/** Raft: one server as a value. */
module RaftServer {
  // What each critical section under its lock does to a server. The functions here are the specification of the
  // methods of class `RaftNode.Raft` and the steps of the cluster in `RaftCluster`.

  import opened Options
  import opened RaftLog

  const NOBODY := -1

  datatype Role = Leader | Candidate | Follower

  /** What `persist` writes and `readPersist` restores. */
  datatype Durable = Durable(currentTerm: nat, votedFor: int, logs: seq<LogEntry>)

  datatype ApplyMsg = ApplyMsg(index: nat, command: int)

  datatype RequestVoteArgs = RequestVoteArgs(term: nat, candidateId: nat, lastLogIndex: nat, lastLogTerm: nat)
  datatype RequestVoteReply = RequestVoteReply(term: nat, voteGranted: bool)

  datatype AppendEntriesArgs = AppendEntriesArgs(
    term: nat, leaderId: nat, prevLogIndex: nat, prevLogTerm: nat, leaderCommit: nat, entries: seq<LogEntry>)
  datatype AppendEntriesReply = AppendEntriesReply(term: nat, success: bool, nextIndex: nat)

  /**
   * The fields of the `Raft` struct. `chanCommit` counts the tokens waiting in that channel.
   * `chanBeElected` lists the tokens waiting in that channel, each labelled with the term whose
   * votes produced it (the program's token carries no label). `chanApply` lists the messages this
   * incarnation has sent to its service. `disk` is the content of the persister.
   */
  datatype Server = Server(
    me: nat,
    peers: nat,
    currentTerm: nat,
    votedFor: int,
    logs: seq<LogEntry>,
    commitIndex: nat,
    lastApplied: nat,
    nextIndex: seq<nat>,
    matchIndex: seq<nat>,
    state: Role,
    voteCount: nat,
    chanCommit: nat,
    chanBeElected: seq<nat>,
    chanApply: seq<ApplyMsg>,
    disk: Option<Durable>)

  function Persist(s: Server): Server {
    s.(disk := Some(Durable(s.currentTerm, s.votedFor, s.logs)))
  }

  /** A server freshly made over a persister with the given content. */
  function Make(me: nat, peers: nat, disk: Option<Durable>): Server {
    var s := Server(me, peers, 0, NOBODY, [SENTINEL], 0, 0, [], [], Follower, 0, 0, [], [], disk);
    match disk
    case None => s
    case Some(d) => s.(currentTerm := d.currentTerm, votedFor := d.votedFor, logs := d.logs)
  }

  /** The reaction to a term above one's own. */
  function StepDown(s: Server, term: nat): Server {
    s.(currentTerm := term, state := Follower, votedFor := NOBODY)
  }

  /* ---------- Elections ---------- */

  function NewElection(s: Server): Server {
    Persist(s.(currentTerm := s.currentTerm + 1, votedFor := s.me, voteCount := 1))
  }

  function VoteArgs(s: Server): RequestVoteArgs
    requires |s.logs| > 0
  {
    RequestVoteArgs(s.currentTerm, s.me, LastIndex(s.logs), LastTerm(s.logs))
  }

  predicate IsValidArgs(s: Server, args: RequestVoteArgs)
    requires |s.logs| > 0
  {
    && (s.votedFor == NOBODY || s.votedFor == args.candidateId)
    && UpToDate(args.lastLogTerm, args.lastLogIndex, s.logs)
  }

  function RequestVote(s: Server, args: RequestVoteArgs): (Server, RequestVoteReply)
    requires |s.logs| > 0
  {
    if args.term < s.currentTerm then
      (s, RequestVoteReply(s.currentTerm, false))
    else
      var s1 := if args.term > s.currentTerm then StepDown(s, args.term) else s;
      if IsValidArgs(s1, args) then
        (Persist(s1.(votedFor := args.candidateId)), RequestVoteReply(s1.currentTerm, true))
      else
        (Persist(s1), RequestVoteReply(s1.currentTerm, false))
  }

  /** Whether a vote reply adds to `voteCount`. */
  predicate CountsVote(s: Server, args: RequestVoteArgs, reply: RequestVoteReply) {
    reply.term <= s.currentTerm && s.currentTerm == args.term && reply.voteGranted
  }

  function DealVoteReply(s: Server, args: RequestVoteArgs, reply: RequestVoteReply): Server {
    if reply.term > s.currentTerm then
      Persist(StepDown(s, reply.term))
    else if !CountsVote(s, args, reply) then
      s
    else
      var s1 := s.(voteCount := s.voteCount + 1);
      if 2 * s1.voteCount > s1.peers && s1.state == Candidate
      then s1.(chanBeElected := s1.chanBeElected + [s1.currentTerm])
      else s1
  }

  /** Becoming leader consumes the oldest token, whatever term it belongs to. */
  function ComeToPower(s: Server): Server
    requires |s.chanBeElected| > 0 && |s.logs| > 0
  {
    s.(state := Leader,
       nextIndex := seq(s.peers, i => LastIndex(s.logs) + 1),
       matchIndex := seq(s.peers, i => 0),
       chanBeElected := s.chanBeElected[1..])
  }

  /* ---------- Log replication ---------- */

  function Start(s: Server, command: int): Server
    requires |s.logs| > 0
  {
    if s.state != Leader then s
    else Persist(s.(logs := s.logs + [LogEntry(LastIndex(s.logs) + 1, s.currentTerm, command)]))
  }

  /** The peers other than s itself whose recorded match reaches idx. */
  function Holders(s: Server, idx: nat): (ids: set<nat>)
    requires |s.matchIndex| == s.peers
  {
    set id | 0 <= id < s.peers && id != s.me && s.matchIndex[id] >= idx
  }

  /**
   * The commit test for one index: with the server's own vote a majority holds the entry, where peers
   * count only if the entry belongs to the current term.
   */
  predicate Counted(s: Server, idx: nat)
    requires |s.matchIndex| == s.peers && idx < |s.logs|
  {
    2 * (1 + (if s.logs[idx].term == s.currentTerm then |Holders(s, idx)| else 0)) > s.peers
  }

  /** The largest counted index in (commitIndex, bound], or commitIndex when there is none. */
  function NewCommitIndex(s: Server, bound: nat): (idx: nat)
    requires |s.matchIndex| == s.peers && bound < |s.logs|
    ensures idx == s.commitIndex || (s.commitIndex < idx <= bound && Counted(s, idx))
    ensures forall j :: s.commitIndex < j <= bound && Counted(s, j) ==> j <= idx
  {
    if bound <= s.commitIndex then s.commitIndex
    else if Counted(s, bound) then bound
    else NewCommitIndex(s, bound - 1)
  }

  /** The first half of a broadcast: advance commitIndex and announce it on chanCommit. */
  function AdvanceCommit(s: Server): Server
    requires |s.matchIndex| == s.peers && |s.logs| > 0
  {
    var idx := NewCommitIndex(s, LastIndex(s.logs));
    if idx > s.commitIndex then s.(commitIndex := idx, chanCommit := s.chanCommit + 1) else s
  }

  /** The second half: every request carries the log from nextIndex to its end. */
  function AppendArgs(s: Server, id: nat): AppendEntriesArgs
    requires id < |s.nextIndex| && 1 <= s.nextIndex[id] <= |s.logs|
  {
    var prev := s.nextIndex[id] - 1;
    AppendEntriesArgs(s.currentTerm, s.me, prev, s.logs[prev].term, s.commitIndex, s.logs[prev + 1..])
  }

  /** The position after the last entry at or below `from` whose term is not `term`; 0 when there is none. */
  function RunStart(logs: seq<LogEntry>, from: int, term: nat): (r: nat)
    requires from < |logs|
    ensures r <= from + 1 || r == 0
    ensures forall j :: r <= j <= from ==> logs[j].term == term
    ensures r > 0 ==> logs[r - 1].term != term
    decreases from + 1
  {
    if from < 0 then 0
    else if logs[from].term != term then from + 1
    else RunStart(logs, from - 1, term)
  }

  /** The log position prevLogIndex holds an entry of another term. */
  predicate Conflicts(s: Server, args: AppendEntriesArgs)
    requires args.prevLogIndex < |s.logs|
  {
    args.prevLogIndex > 0 && s.logs[args.prevLogIndex].term != args.prevLogTerm
  }

  function Min(a: nat, b: nat): nat {
    if a < b then a else b
  }

  /** The commit rule of a follower, applied after the log was replaced. */
  function FollowCommit(s: Server, leaderCommit: nat): Server
    requires |s.logs| > 0
  {
    if leaderCommit > s.commitIndex
    then s.(commitIndex := Min(leaderCommit, LastIndex(s.logs)), chanCommit := s.chanCommit + 1)
    else s
  }

  function AppendEntries(s: Server, args: AppendEntriesArgs): (Server, AppendEntriesReply)
    requires |s.logs| > 0
  {
    if args.term < s.currentTerm then
      (s, AppendEntriesReply(s.currentTerm, false, 0))
    else
      var s1 := if args.term > s.currentTerm then StepDown(s, args.term) else s;
      if args.prevLogIndex > LastIndex(s1.logs) then
        (Persist(s1), AppendEntriesReply(s1.currentTerm, false, LastIndex(s1.logs) + 1))
      else if Conflicts(s1, args) then
        var term := s1.logs[args.prevLogIndex].term;
        (Persist(s1), AppendEntriesReply(s1.currentTerm, false, RunStart(s1.logs, args.prevLogIndex - 1, term)))
      else
        var s2 := s1.(logs := s1.logs[..args.prevLogIndex + 1] + args.entries);
        (Persist(FollowCommit(s2, args.leaderCommit)), AppendEntriesReply(s2.currentTerm, true, LastIndex(s2.logs) + 1))
  }

  /** The reply makes the leader change its record of the peer. */
  predicate UpdatesPeer(s: Server, args: AppendEntriesArgs, reply: AppendEntriesReply) {
    reply.term <= s.currentTerm && s.currentTerm == args.term && (!reply.success || |args.entries| > 0)
  }

  function DealAppendReply(s: Server, id: nat, args: AppendEntriesArgs, reply: AppendEntriesReply): Server
    requires UpdatesPeer(s, args, reply) ==> id < |s.nextIndex| && id < |s.matchIndex|
  {
    if reply.term > s.currentTerm then
      Persist(StepDown(s, reply.term))
    else if s.currentTerm != args.term then
      s
    else if !reply.success then
      s.(nextIndex := s.nextIndex[id := reply.nextIndex])
    else if |args.entries| == 0 then
      s
    else
      var last := args.entries[|args.entries| - 1].index;
      s.(matchIndex := s.matchIndex[id := last], nextIndex := s.nextIndex[id := last + 1])
  }

  /* ---------- Applying ---------- */

  /** The messages for the entries from lo to hi, in order. */
  function Messages(logs: seq<LogEntry>, lo: nat, hi: nat): seq<ApplyMsg>
    requires lo <= hi + 1 <= |logs|
  {
    seq(hi + 1 - lo, i requires 0 <= i < hi + 1 - lo => ApplyMsg(lo + i, logs[lo + i].command))
  }

  function Apply(s: Server): Server
    requires s.commitIndex < |s.logs|
  {
    if s.commitIndex <= s.lastApplied then s
    else
      s.(chanApply := s.chanApply + Messages(s.logs, s.lastApplied + 1, s.commitIndex),
         lastApplied := s.commitIndex)
  }
}
