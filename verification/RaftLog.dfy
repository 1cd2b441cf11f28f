/** Raft logs: entries, the sentinel every log starts with, and agreement of two logs up to a length. */
module RaftLog {

  /** One log entry. The command is an `interface{}` in the program; here it is an integer. */
  datatype LogEntry = LogEntry(index: nat, term: nat, command: int)

  /** The entry at position 0 that every server starts with. */
  const SENTINEL := LogEntry(0, 0, 0)

  /** Entry i is stored at position i: the log's base index is 0 and no index is skipped. */
  ghost predicate Indexed(log: seq<LogEntry>) {
    && |log| > 0
    && forall i :: 0 <= i < |log| ==> log[i].index == i
  }

  function LastIndex(log: seq<LogEntry>): nat
    requires |log| > 0
  {
    |log| - 1
  }

  function LastTerm(log: seq<LogEntry>): nat
    requires |log| > 0
  {
    log[|log| - 1].term
  }

  /** The two logs have at least n entries each and agree on the first n. */
  ghost predicate Same(a: seq<LogEntry>, b: seq<LogEntry>, n: int) {
    && n <= |a| && n <= |b|
    && forall i :: 0 <= i < n ==> a[i] == b[i]
  }

  /** Log a is a prefix of log b. */
  ghost predicate Prefix(a: seq<LogEntry>, b: seq<LogEntry>) {
    Same(a, b, |a|)
  }

  /** The section 5.4.1 order: a later last term wins, equal last terms compare lengths. */
  predicate UpToDate(lastTerm: nat, lastIndex: nat, log: seq<LogEntry>)
    requires |log| > 0
  {
    || lastTerm > LastTerm(log)
    || (lastTerm == LastTerm(log) && lastIndex >= LastIndex(log))
  }
}
