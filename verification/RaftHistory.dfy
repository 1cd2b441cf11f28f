/**
 * What a proof about a run remembers besides the present state, and the invariant behind Election Safety
 * and Log Matching. The history never influences a step: it is computed from the steps.
 */
module RaftHistory {
  import opened RaftLog
  import opened RaftServer
  import opened RaftCluster

  /**
   * The past of one server, by term: whom it voted for, whose votes it counted, the log it started its
   * election with, and how long the log was that it last took over from the leader of the term (for the
   * leader itself: the length of its own log).
   */
  datatype Past = Past(votes: map<nat, nat>, counted: map<nat, set<nat>>, cand: map<nat, seq<LogEntry>>, acc: map<nat, nat>)

  /** By term: who was elected, and the longest log that leader has had. Term 0 stands for the common start. */
  datatype Hist = Hist(leader: map<nat, nat>, tlog: map<nat, seq<LogEntry>>, past: seq<Past>)

  function InitHist(n: nat): Hist {
    Hist(map[], map[0 := [SENTINEL]], seq(n, i => Past(map[], map[], map[], map[0 := 1])))
  }

  function Lookup(m: map<nat, set<nat>>, t: nat): set<nat> {
    if t in m then m[t] else {}
  }

  function SetPast(h: Hist, s: nat, p: Past): Hist
    requires s < |h.past|
  {
    h.(past := h.past[s := p])
  }

  function HistBegin(c: Cluster, h: Hist, s: nat): Hist
    requires s < |c.servers| == |h.past|
  {
    var t, p := c.servers[s].currentTerm + 1, h.past[s];
    SetPast(h, s, Past(p.votes[t := s], p.counted[t := {s}], p.cand[t := c.servers[s].logs], p.acc))
  }

  function HistVote(c: Cluster, h: Hist, k: nat): Hist
    requires k < |c.votes| && c.votes[k].to < |c.servers| == |h.past| && |c.servers[c.votes[k].to].logs| > 0
  {
    var m := c.votes[k];
    var p := h.past[m.to];
    if RequestVote(c.servers[m.to], m.args).1.voteGranted
    then SetPast(h, m.to, p.(votes := p.votes[m.args.term := m.args.candidateId]))
    else h
  }

  function HistCount(c: Cluster, h: Hist, k: nat): Hist
    requires k < |c.votes| && c.votes[k].from < |c.servers| == |h.past| && c.votes[k].status.Answered?
  {
    var m := c.votes[k];
    var p := h.past[m.from];
    if CountsVote(c.servers[m.from], m.args, m.status.reply)
    then SetPast(h, m.from, p.(counted := p.counted[m.args.term := Lookup(p.counted, m.args.term) + {m.to}]))
    else h
  }

  /** The leader of term t has the given log. */
  function HistLeaderLog(h: Hist, s: nat, t: nat, log: seq<LogEntry>): Hist
    requires s < |h.past|
  {
    var p := h.past[s];
    SetPast(h, s, p.(acc := p.acc[t := |log|])).(leader := h.leader[t := s], tlog := h.tlog[t := log])
  }

  function HistStart(c: Cluster, h: Hist, s: nat, command: int): Hist
    requires s < |c.servers| == |h.past| && |c.servers[s].logs| > 0
  {
    var sv := c.servers[s];
    if sv.state == Leader then HistLeaderLog(h, s, sv.currentTerm, Start(sv, command).logs) else h
  }

  function HistAdopt(c: Cluster, h: Hist, k: nat): Hist
    requires k < |c.appends| && c.appends[k].to < |c.servers| == |h.past| && |c.servers[c.appends[k].to].logs| > 0
  {
    var m := c.appends[k];
    var p := h.past[m.to];
    var (sv, reply) := AppendEntries(c.servers[m.to], m.args);
    if reply.success then SetPast(h, m.to, p.(acc := p.acc[m.args.term := |sv.logs|])) else h
  }

  ghost function NextHist(c: Cluster, e: Event, h: Hist): Hist
    requires Shape(c) && Enabled(c, e) && !Faults(c, e) && |h.past| == |c.servers|
  {
    match e
    case BeginElection(s) => HistBegin(c, h, s)
    case DeliverVote(k) => HistVote(c, h, k)
    case TakeVoteReply(k) => HistCount(c, h, k)
    case BeElected(s) => HistLeaderLog(h, s, c.servers[s].currentTerm, c.servers[s].logs)
    case ClientStart(s, command) => HistStart(c, h, s, command)
    case DeliverAppend(k) => HistAdopt(c, h, k)
    case _ => h
  }

  /* ---------- Growth of the history ---------- */

  ghost predicate PastGrows(p: Past, p': Past) {
    && (forall t :: t in p.votes ==> t in p'.votes && p'.votes[t] == p.votes[t])
    && (forall t :: t in p.counted ==> t in p'.counted && p.counted[t] <= p'.counted[t])
    && (forall t :: t in p.cand ==> t in p'.cand && p'.cand[t] == p.cand[t])
  }

  ghost predicate TlogGrows(h: Hist, h': Hist) {
    forall t :: t in h.tlog ==>
      && t in h'.tlog && Prefix(h.tlog[t], h'.tlog[t])
      && forall i :: |h.tlog[t]| <= i < |h'.tlog[t]| ==> h'.tlog[t][i].term == t
  }

  ghost predicate Grows(h: Hist, h': Hist) {
    && |h'.past| == |h.past|
    && (forall t :: t in h.leader ==> t in h'.leader && h'.leader[t] == h.leader[t])
    && TlogGrows(h, h')
    && (forall j {:trigger PastGrows(h.past[j], h'.past[j])} :: 0 <= j < |h.past| ==> PastGrows(h.past[j], h'.past[j]))
  }

  /** Only the acting server's past and the log of a term it leads change. */
  ghost predicate GrowsAt(h: Hist, h': Hist, s: nat) {
    && Grows(h, h')
    && (forall j :: 0 <= j < |h.past| && j != s ==> h'.past[j] == h.past[j])
    && (forall t :: t in h.tlog && h'.tlog[t] != h.tlog[t] ==> t in h.leader && h.leader[t] == s)
    && (forall t :: t in h'.leader && t !in h.leader ==> h'.leader[t] == s)
  }

  /* ---------- The invariant ---------- */

  /** A log a leader of term t may have: it starts with the sentinel and its terms never fall and stay up to t. */
  ghost predicate TermLog(log: seq<LogEntry>, t: nat) {
    && Indexed(log)
    && log[0] == SENTINEL
    && (forall i :: 1 <= i < |log| ==> 1 <= log[i].term <= t)
    && (forall i, j :: 0 <= i < j < |log| ==> log[i].term <= log[j].term)
  }

  /** Every entry of a term is where the leader of that term put it, after the same entries. */
  ghost predicate TlogInv(h: Hist) {
    && 0 in h.tlog && h.tlog[0] == [SENTINEL]
    && (forall t {:trigger TermLog(h.tlog[t], t)} :: t in h.tlog ==> TermLog(h.tlog[t], t))
    && (forall t, i {:trigger RootedAt(h, h.tlog[t], i)} ::
      t in h.tlog && 0 <= i < |h.tlog[t]| ==> RootedAt(h, h.tlog[t], i))
  }

  ghost predicate RootedAt(h: Hist, log: seq<LogEntry>, i: int)
    requires 0 <= i < |log|
  {
    log[i].term in h.tlog && Same(log, h.tlog[log[i].term], i + 1)
  }

  /** The log is a prefix of the log of its last term's leader. */
  ghost predicate Rooted(h: Hist, log: seq<LogEntry>) {
    |log| > 0 && RootedAt(h, log, |log| - 1)
  }

  ghost predicate LogInv(sv: Server, h: Hist) {
    && Rooted(h, sv.logs)
    && LastTerm(sv.logs) <= sv.currentTerm
  }

  /** What is on disk is what is in memory; an empty disk stands for the initial triple. */
  ghost predicate DiskInv(sv: Server) {
    match sv.disk
    case None => sv.currentTerm == 0 && sv.votedFor == NOBODY && sv.logs == [SENTINEL]
    case Some(d) => d == Durable(sv.currentTerm, sv.votedFor, sv.logs)
  }

  ghost predicate LeaderInv(sv: Server, h: Hist) {
    sv.state == Leader ==>
      && sv.currentTerm in h.leader && h.leader[sv.currentTerm] == sv.me
      && sv.currentTerm in h.tlog && sv.logs == h.tlog[sv.currentTerm]
      && |sv.nextIndex| == sv.peers
      && forall id :: 0 <= id < sv.peers && id != sv.me ==> 1 <= sv.nextIndex[id] <= |sv.logs|
  }

  ghost predicate VotesInv(sv: Server, p: Past) {
    && (forall t :: t in p.votes ==> t <= sv.currentTerm)
    && (sv.votedFor == NOBODY ==> sv.currentTerm !in p.votes)
    && (sv.votedFor != NOBODY ==> sv.currentTerm in p.votes && p.votes[sv.currentTerm] == sv.votedFor)
  }

  /** Server v gave its vote of term t to c. */
  ghost predicate VotedFor(h: Hist, v: nat, t: nat, c: nat) {
    v < |h.past| && t in h.past[v].votes && h.past[v].votes[t] == c
  }

  ghost predicate CountInv(sv: Server, h: Hist)
    requires sv.me < |h.past|
  {
    var counted := h.past[sv.me].counted;
    && (forall t :: t in counted ==> 0 < t <= sv.currentTerm)
    && (forall t :: t in h.past[sv.me].cand ==> t in counted)
    && (forall t, v {:trigger VotedFor(h, v, t, sv.me)} :: t in counted && v in counted[t] ==> VotedFor(h, v, t, sv.me))
    && (sv.votedFor == sv.me ==> sv.currentTerm in counted)
    && (sv.currentTerm in counted ==> sv.voteCount <= |counted[sv.currentTerm]|)
    && (forall i :: 0 <= i < |sv.chanBeElected| ==>
      sv.chanBeElected[i] in counted && 2 * |counted[sv.chanBeElected[i]]| > sv.peers)
  }

  ghost predicate ServerInv(sv: Server, h: Hist)
    requires sv.me < |h.past|
  {
    && LogInv(sv, h)
    && DiskInv(sv)
    && LeaderInv(sv, h)
    && VotesInv(sv, h.past[sv.me])
    && CountInv(sv, h)
  }

  ghost predicate ThreadsInv(c: Cluster, h: Hist, s: nat)
    requires Shape(c) && |h.past| == |c.servers| && s < |c.servers|
  {
    && (forall t :: t in c.threads[s].ballots ==> t in h.past[s].counted && h.past[s].counted[t] == {s})
    && (c.threads[s].loop == BeforeElection || c.threads[s].loop == AwaitingVotes ==> c.servers[s].state != Leader)
    && (c.threads[s].loop == AwaitingVotes ==>
      (c.servers[s].currentTerm in h.leader ==> h.leader[c.servers[s].currentTerm] != s))
  }

  /** A leader won a majority, and its server never falls back below its term. */
  ghost predicate TermInv(c: Cluster, h: Hist, t: nat)
    requires Shape(c) && |h.past| == |c.servers| && t in h.leader
  {
    var l := h.leader[t];
    && 0 < t && t in h.tlog
    && l < |c.servers| && t <= c.servers[l].currentTerm
    && t in h.past[l].counted && 2 * |h.past[l].counted[t]| > |c.servers|
  }

  ghost predicate VoteInv(c: Cluster, h: Hist, m: VoteRpc)
    requires Shape(c) && |h.past| == |c.servers| && m.from < |c.servers| && m.to < |c.servers|
  {
    && m.args.candidateId == m.from
    && m.args.term in h.past[m.from].counted
    && m.args.term !in c.threads[m.from].ballots
    && (!m.status.Closed? ==> m.to !in h.past[m.from].counted[m.args.term])
    && (m.status.Answered? && m.status.reply.voteGranted ==>
      VotedFor(h, m.to, m.args.term, m.from))
  }

  /** A candidate asks each peer at most once in a term. */
  ghost predicate AskedOnce(c: Cluster) {
    forall i, j :: 0 <= i < j < |c.votes| ==>
      c.votes[i].from != c.votes[j].from || c.votes[i].to != c.votes[j].to || c.votes[i].args.term != c.votes[j].args.term
  }

  /** How long the log is that a request carries to the follower. */
  function CarriedLength(args: AppendEntriesArgs): nat {
    args.prevLogIndex + 1 + |args.entries|
  }

  /** The request carries the leader's log of its term from prevLogIndex on, all older terms included. */
  ghost predicate Carries(args: AppendEntriesArgs, log: seq<LogEntry>) {
    && CarriedLength(args) <= |log|
    && args.prevLogTerm == log[args.prevLogIndex].term
    && (forall i :: 0 <= i < |args.entries| ==> args.entries[i] == log[args.prevLogIndex + 1 + i])
    && (forall i :: CarriedLength(args) <= i < |log| ==> log[i].term == args.term)
  }

  ghost predicate ReplyInv(args: AppendEntriesArgs, reply: AppendEntriesReply) {
    && reply.term >= args.term
    && (reply.success ==> reply.term == args.term)
    && (reply.term == args.term && !reply.success ==> 1 <= reply.nextIndex <= args.prevLogIndex)
  }

  ghost predicate AppendInv(c: Cluster, h: Hist, m: AppendRpc)
    requires Shape(c) && m.from < |c.servers|
  {
    && m.args.term in h.leader && h.leader[m.args.term] == m.from
    && m.args.term in h.tlog && Carries(m.args, h.tlog[m.args.term])
    && (m.status.Answered? ==> ReplyInv(m.args, m.status.reply))
    && m.epoch <= c.threads[m.from].epoch
    && (m.epoch == c.threads[m.from].epoch && m.args.term == c.servers[m.from].currentTerm
        ==> c.servers[m.from].state == Leader)
  }

  ghost predicate ServersInv(c: Cluster, h: Hist)
    requires Shape(c) && |h.past| == |c.servers|
  {
    forall s {:trigger ServerInv(c.servers[s], h)} {:trigger ThreadsInv(c, h, s)} ::
      0 <= s < |c.servers| ==> ServerInv(c.servers[s], h) && ThreadsInv(c, h, s)
  }

  ghost predicate LeadersInv(c: Cluster, h: Hist)
    requires Shape(c) && |h.past| == |c.servers|
  {
    && (forall t {:trigger TermInv(c, h, t)} :: t in h.leader ==> TermInv(c, h, t))
    && (forall t :: t in h.tlog && t > 0 ==> t in h.leader)
  }

  ghost predicate BallotsInv(c: Cluster, h: Hist)
    requires Shape(c) && |h.past| == |c.servers|
  {
    && (forall k {:trigger VoteInv(c, h, c.votes[k])} :: 0 <= k < |c.votes| ==> VoteInv(c, h, c.votes[k]))
    && AskedOnce(c)
  }

  ghost predicate AppendsInv(c: Cluster, h: Hist)
    requires Shape(c)
  {
    forall k {:trigger AppendInv(c, h, c.appends[k])} :: 0 <= k < |c.appends| ==> AppendInv(c, h, c.appends[k])
  }

  ghost predicate Inv(c: Cluster, h: Hist) {
    && Shape(c) && |h.past| == |c.servers|
    && TlogInv(h)
    && ServersInv(c, h)
    && LeadersInv(c, h)
    && BallotsInv(c, h)
    && AppendsInv(c, h)
  }
}
