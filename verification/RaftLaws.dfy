/**
 * Raft: rules for servers. What each critical section does, said over the fields, the messages and the entries of a
 * log alone, and for every server and message: when it says yes, what it answers, what it changes and what it leaves.
 */
module RaftLaws {
  import opened Options
  import opened RaftLog
  import opened RaftServer
  import opened RaftHistory

  /** The disk holds the present term, vote and log. */
  ghost predicate Stored(s: Server) {
    && s.disk.Some? && s.disk.value.currentTerm == s.currentTerm && s.disk.value.votedFor == s.votedFor
    && s.disk.value.logs == s.logs
  }

  /** A term above one's own is taken over, as a follower; otherwise term and role stand. */
  ghost predicate Yields(s: Server, term: nat, s': Server) {
    if term > s.currentTerm then s'.currentTerm == term && s'.state == Follower
    else s'.currentTerm == s.currentTerm && s'.state == s.state
  }

  /* ---------- Requests for votes (sections 5.2 and 5.4.1) ---------- */

  /** The last entry of the first log is of a later term, or of the same term and at least as far back in its log. */
  ghost predicate AtLeast(a: seq<LogEntry>, b: seq<LogEntry>)
    requires |a| > 0 && |b| > 0
  {
    || a[|a| - 1].term > b[|b| - 1].term
    || (a[|a| - 1].term == b[|b| - 1].term && |a| >= |b|)
  }

  /**
   * A vote is granted exactly to a candidate of a term not yet passed, to whom the vote of that term is not lost, and
   * whose last entry is not behind the voter's.
   */
  lemma VoteGrantedIff(s: Server, args: RequestVoteArgs)
    requires |s.logs| > 0
    ensures var last := s.logs[|s.logs| - 1];
            RequestVote(s, args).1.voteGranted <==>
              && args.term >= s.currentTerm
              && (args.term > s.currentTerm || s.votedFor == -1 || s.votedFor == args.candidateId)
              && (args.lastLogTerm > last.term || (args.lastLogTerm == last.term && args.lastLogIndex >= |s.logs| - 1))
  {
  }

  /** What a request for votes does to the voter, and the term of the answer. */
  lemma VoteTaken(s: Server, args: RequestVoteArgs)
    requires |s.logs| > 0
    ensures var (s', reply) := RequestVote(s, args);
            && Yields(s, args.term, s') && reply.term == s'.currentTerm
            && s' == s.(currentTerm := s'.currentTerm, votedFor := s'.votedFor, state := s'.state, disk := s'.disk)
            && (reply.voteGranted ==> s'.votedFor == args.candidateId)
            && (!reply.voteGranted ==> s'.votedFor == if args.term > s.currentTerm then -1 else s.votedFor)
            && (if args.term >= s.currentTerm then Stored(s') else s'.disk == s.disk)
  {
  }

  /** The voter's test orders all logs: of any two one passes it for the other, and passing is transitive. */
  lemma LogsAreOrdered(a: seq<LogEntry>, b: seq<LogEntry>, c: seq<LogEntry>)
    requires |a| > 0 && |b| > 0 && |c| > 0
    ensures UpToDate(LastTerm(a), LastIndex(a), b) <==> AtLeast(a, b)
    ensures AtLeast(a, b) || AtLeast(b, a)
    ensures AtLeast(a, b) && AtLeast(b, c) ==> AtLeast(a, c)
  {
  }

  /** A candidate whose log extends the voter's is not refused for its log. */
  lemma ExtensionIsNotRefused(s: Server, candidate: Server, t: nat)
    requires |s.logs| > 0 && Prefix(s.logs, candidate.logs) && TermLog(candidate.logs, t)
    ensures var args := VoteArgs(candidate);
            RequestVote(s, args).1.voteGranted <==>
              && candidate.currentTerm >= s.currentTerm
              && (candidate.currentTerm > s.currentTerm || s.votedFor == -1 || s.votedFor == candidate.me)
  {
    VoteGrantedIff(s, VoteArgs(candidate));
    assert candidate.logs[|s.logs| - 1] == s.logs[|s.logs| - 1];
    assert candidate.logs[|s.logs| - 1].term <= candidate.logs[|candidate.logs| - 1].term;
  }

  /** A new election: the next term, the own vote and nobody else's, all on disk. */
  lemma ElectionBegins(s: Server)
    ensures var s' := NewElection(s);
            && s'.currentTerm == s.currentTerm + 1 && s'.votedFor == s.me && s'.voteCount == 1 && Stored(s')
            && s' == s.(currentTerm := s'.currentTerm, votedFor := s'.votedFor, voteCount := s'.voteCount, disk := s'.disk)
  {
  }

  /** A request for votes names its sender and the sender's term and last entry. */
  lemma BallotDescribes(s: Server)
    requires |s.logs| > 0
    ensures var args := VoteArgs(s);
            && args.term == s.currentTerm && args.candidateId == s.me
            && args.lastLogIndex == |s.logs| - 1 && args.lastLogTerm == s.logs[|s.logs| - 1].term
  {
  }

  /* ---------- Answers to requests for votes ---------- */

  /** A candidate yields to an answer of a higher term; no other answer changes its term, role or vote. */
  lemma VoteReplyYields(s: Server, args: RequestVoteArgs, reply: RequestVoteReply)
    ensures var s' := DealVoteReply(s, args, reply);
            && s'.logs == s.logs
            && if reply.term > s.currentTerm
               then s'.currentTerm == reply.term && s'.state == Follower && s'.votedFor == -1 && Stored(s')
               else s'.currentTerm == s.currentTerm && s'.state == s.state && s'.votedFor == s.votedFor && s'.disk == s.disk
  {
  }

  /**
   * An answer is counted exactly if it grants a vote of the present term and comes from no later one; a token is made
   * exactly for a counted vote that gives a candidate a majority.
   */
  lemma VoteCountedIff(s: Server, args: RequestVoteArgs, reply: RequestVoteReply)
    ensures var s' := DealVoteReply(s, args, reply);
            var counted := reply.voteGranted && args.term == s.currentTerm && reply.term <= s.currentTerm;
            && s'.voteCount == s.voteCount + (if counted then 1 else 0)
            && s'.chanBeElected == s.chanBeElected +
                 (if counted && s.state == Candidate && 2 * s'.voteCount > s.peers then [s.currentTerm] else [])
            && s' == s.(currentTerm := s'.currentTerm, votedFor := s'.votedFor, state := s'.state, disk := s'.disk,
                        voteCount := s'.voteCount, chanBeElected := s'.chanBeElected)
  {
  }

  /** A new leader: the oldest token is spent, everybody is taken to have the log up to its end and nothing of it. */
  lemma PowerIsTaken(s: Server)
    requires |s.chanBeElected| > 0 && |s.logs| > 0
    ensures var s' := ComeToPower(s);
            && s'.state == Leader && s.chanBeElected == [s.chanBeElected[0]] + s'.chanBeElected
            && |s'.nextIndex| == |s'.matchIndex| == s.peers
            && (forall id :: 0 <= id < s.peers ==> s'.nextIndex[id] == |s.logs| && s'.matchIndex[id] == 0)
            && s' == s.(state := s'.state, nextIndex := s'.nextIndex, matchIndex := s'.matchIndex,
                        chanBeElected := s'.chanBeElected)
  {
  }

  /* ---------- AppendEntries requests (section 5.3) ---------- */

  /** A request is accepted exactly if it is not of an old term and the log holds the entry the new ones follow. */
  lemma RequestAcceptedIff(s: Server, args: AppendEntriesArgs)
    requires |s.logs| > 0
    ensures AppendEntries(s, args).1.success <==>
      && args.term >= s.currentTerm && args.prevLogIndex < |s.logs|
      && (args.prevLogIndex == 0 || s.logs[args.prevLogIndex].term == args.prevLogTerm)
  {
  }

  /** What a request does to term, role, vote and disk, and the term of the answer. */
  lemma RequestYields(s: Server, args: AppendEntriesArgs)
    requires |s.logs| > 0
    ensures var (s', reply) := AppendEntries(s, args);
            && Yields(s, args.term, s') && reply.term == s'.currentTerm
            && s'.votedFor == (if args.term > s.currentTerm then -1 else s.votedFor)
            && (if args.term >= s.currentTerm then Stored(s') else s' == s && reply.nextIndex == 0)
  {
  }

  /** An accepted request puts its entries after the one they follow, and the commit follows up to the last of them. */
  lemma AcceptanceReplaces(s: Server, args: AppendEntriesArgs)
    requires |s.logs| > 0 && AppendEntries(s, args).1.success
    ensures var (s', reply) := AppendEntries(s, args);
            && |s'.logs| == args.prevLogIndex + 1 + |args.entries| == reply.nextIndex
            && (forall i :: 0 <= i <= args.prevLogIndex ==> s'.logs[i] == s.logs[i])
            && (forall i :: 0 <= i < |args.entries| ==> s'.logs[args.prevLogIndex + 1 + i] == args.entries[i])
            && (if args.leaderCommit <= s.commitIndex then s'.commitIndex == s.commitIndex && s'.chanCommit == s.chanCommit
                else s'.chanCommit == s.chanCommit + 1 && s'.commitIndex <= args.leaderCommit && s'.commitIndex < |s'.logs|
                     && (s'.commitIndex == args.leaderCommit || s'.commitIndex == |s'.logs| - 1))
            && s' == s.(currentTerm := s'.currentTerm, votedFor := s'.votedFor, state := s'.state, disk := s'.disk,
                        logs := s'.logs, commitIndex := s'.commitIndex, chanCommit := s'.chanCommit)
  {
  }

  /** A rejected request leaves log and commit alone. */
  lemma RejectionKeeps(s: Server, args: AppendEntriesArgs)
    requires |s.logs| > 0 && !AppendEntries(s, args).1.success
    ensures var s' := AppendEntries(s, args).0;
            s' == s.(currentTerm := s'.currentTerm, votedFor := s'.votedFor, state := s'.state, disk := s'.disk)
  {
  }

  /**
   * The hint of a rejection. A log that ends before prevLogIndex hints its end. Otherwise the hint is the start of the
   * run of entries of one term that ends at prevLogIndex.
   */
  lemma RejectionHint(s: Server, args: AppendEntriesArgs)
    requires |s.logs| > 0 && args.term >= s.currentTerm && !AppendEntries(s, args).1.success
    ensures var next := AppendEntries(s, args).1.nextIndex;
            if args.prevLogIndex >= |s.logs| then next == |s.logs|
            else
              && next <= args.prevLogIndex
              && (forall j :: next <= j <= args.prevLogIndex ==> s.logs[j].term == s.logs[args.prevLogIndex].term)
              && (next > 0 ==> s.logs[next - 1].term != s.logs[args.prevLogIndex].term)
  {
  }

  /** A request carries the log from nextIndex to its end, after the entry before it, with the leader's commit. */
  lemma RequestDescribes(s: Server, id: nat)
    requires id < |s.nextIndex| && 1 <= s.nextIndex[id] <= |s.logs|
    ensures var args := AppendArgs(s, id);
            && args.term == s.currentTerm && args.leaderId == s.me && args.leaderCommit == s.commitIndex
            && args.prevLogIndex == s.nextIndex[id] - 1 && args.prevLogTerm == s.logs[args.prevLogIndex].term
            && s.logs == s.logs[..s.nextIndex[id]] + args.entries
  {
  }

  /* ---------- Answers to AppendEntries requests ---------- */

  /** A leader yields to an answer of a higher term; no other answer changes its term, role or vote. */
  lemma AppendReplyYields(s: Server, id: nat, args: AppendEntriesArgs, reply: AppendEntriesReply)
    requires reply.term <= s.currentTerm && args.term == s.currentTerm && (!reply.success || args.entries != []) ==>
      id < |s.nextIndex| && id < |s.matchIndex|
    ensures var s' := DealAppendReply(s, id, args, reply);
            && s'.logs == s.logs
            && if reply.term > s.currentTerm
               then s'.currentTerm == reply.term && s'.state == Follower && s'.votedFor == -1 && Stored(s')
               else s'.currentTerm == s.currentTerm && s'.state == s.state && s'.votedFor == s.votedFor && s'.disk == s.disk
  {
  }

  /**
   * What the answer of a peer writes into the record of that peer, and of no other: only answers to requests of the
   * present term count, a rejection moves nextIndex to its hint, a success moves both indices to the last entry carried.
   */
  lemma AppendReplyRecords(s: Server, id: nat, args: AppendEntriesArgs, reply: AppendEntriesReply)
    requires reply.term <= s.currentTerm && args.term == s.currentTerm && (!reply.success || args.entries != []) ==>
      id < |s.nextIndex| && id < |s.matchIndex|
    ensures var s' := DealAppendReply(s, id, args, reply);
            var counts := args.term == s.currentTerm && reply.term <= s.currentTerm;
            var n := |args.entries|;
            && s'.nextIndex == (if counts && !reply.success then s.nextIndex[id := reply.nextIndex]
                                else if counts && n > 0 then s.nextIndex[id := args.entries[n - 1].index + 1]
                                else s.nextIndex)
            && s'.matchIndex == (if counts && reply.success && n > 0 then s.matchIndex[id := args.entries[n - 1].index]
                                 else s.matchIndex)
            && s' == s.(currentTerm := s'.currentTerm, votedFor := s'.votedFor, state := s'.state, disk := s'.disk,
                        nextIndex := s'.nextIndex, matchIndex := s'.matchIndex)
  {
  }

  /* ---------- Commands, applying, restarting ---------- */

  /** A leader puts a command of its term at the end of its log and on disk; nobody else takes one. */
  lemma CommandIsTaken(s: Server, command: int)
    requires |s.logs| > 0
    ensures var s' := Start(s, command);
            && (s.state != Leader ==> s' == s)
            && (s.state == Leader ==>
                 && |s'.logs| == |s.logs| + 1 && s.logs <= s'.logs && Stored(s')
                 && s'.logs[|s.logs|].index == |s.logs| && s'.logs[|s.logs|].term == s.currentTerm
                 && s'.logs[|s.logs|].command == command
                 && s' == s.(logs := s'.logs, disk := s'.disk))
  {
  }

  /** Applying reaches commitIndex: every entry above lastApplied is handed over, once and in order. */
  lemma EverythingIsApplied(s: Server)
    requires s.commitIndex < |s.logs|
    ensures s.commitIndex <= s.lastApplied ==> Apply(s) == s
    ensures s.commitIndex > s.lastApplied ==>
            var s' := Apply(s);
            && s'.lastApplied == s.commitIndex
            && |s'.chanApply| == |s.chanApply| + (s.commitIndex - s.lastApplied) && s.chanApply <= s'.chanApply
            && (forall i :: s.lastApplied < i <= s.commitIndex ==>
                 var msg := s'.chanApply[|s.chanApply| + i - s.lastApplied - 1];
                 msg.index == i && msg.command == s.logs[i].command)
            && s' == s.(lastApplied := s'.lastApplied, chanApply := s'.chanApply)
  {
  }

  /** A new incarnation: term, vote and log of the disk, or of the first start; the rest as at the first start. */
  lemma MadeAnew(me: nat, peers: nat, disk: Option<Durable>)
    ensures var s := Make(me, peers, disk);
            && s.me == me && s.peers == peers && s.disk == disk && (disk.Some? ==> Stored(s))
            && (disk.None? ==> s.currentTerm == 0 && s.votedFor == -1 && s.logs == [LogEntry(0, 0, 0)])
            && s.state == Follower && s.commitIndex == s.lastApplied == s.voteCount == s.chanCommit == 0
            && s.nextIndex == [] && s.matchIndex == [] && s.chanBeElected == [] && s.chanApply == []
  {
  }
}
