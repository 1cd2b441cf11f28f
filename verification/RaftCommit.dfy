/**
 * The invariant behind Leader Completeness and State Machine Safety (sections 5.4.1 to 5.4.3). It needs
 * AppendEntries requests to arrive in the order they were sent.
 */
module RaftCommit {
  import opened RaftLog
  import opened RaftServer
  import opened RaftCluster
  import opened RaftHistory
  import opened Quorum

  /** Entry i of the log of term t was made in term t. */
  ghost predicate EntryOf(h: Hist, t: nat, i: nat) {
    t in h.tlog && i < |h.tlog[t]| && h.tlog[t][i].term == t
  }

  /** While in term t, server v took over the leader's log up to and including entry i. */
  ghost predicate Acked(h: Hist, v: nat, t: nat, i: nat) {
    v < |h.past| && t in h.past[v].acc && i < h.past[v].acc[t]
  }

  ghost predicate ChosenBy(h: Hist, t: nat, i: nat, q: set<nat>) {
    EntryOf(h, t, i) && Majority(q, |h.past|) && forall v :: v in q ==> Acked(h, v, t, i)
  }

  /** A majority holds entry i of term t, and held it while in term t. */
  ghost predicate Chosen(h: Hist, t: nat, i: nat) {
    exists q :: ChosenBy(h, t, i, q)
  }

  ghost predicate BlockedBy(c: Cluster, h: Hist, t: nat, i: nat, q: set<nat>) {
    && Majority(q, |c.servers|)
    && forall v :: v in q && v < |c.servers| ==> c.servers[v].currentTerm > t && !Acked(h, v, t, i)
  }

  /** A majority has left term t without entry i, so the entry can never be chosen. */
  ghost predicate Blocked(c: Cluster, h: Hist, t: nat, i: nat) {
    exists q :: BlockedBy(c, h, t, i, q)
  }

  /** The log holds entry i of term t and everything before it, unless that entry cannot be chosen any more. */
  ghost predicate Safe(c: Cluster, h: Hist, t: nat, i: nat, log: seq<LogEntry>) {
    t in h.tlog && (Same(h.tlog[t], log, i + 1) || Blocked(c, h, t, i))
  }

  /** The log up to the given length is part of what was chosen in a term up to u. */
  ghost predicate CommittedBy(h: Hist, log: seq<LogEntry>, len: nat, u: nat, t: nat, i: nat) {
    t <= u && Chosen(h, t, i) && len <= i + 1 && t in h.tlog && Same(log, h.tlog[t], len)
  }

  ghost predicate Committed(h: Hist, log: seq<LogEntry>, len: nat, u: nat) {
    exists t: nat, i: nat :: CommittedBy(h, log, len, u, t, i)
  }

  lemma ChosenNotBlocked(c: Cluster, h: Hist, t: nat, i: nat)
    requires |h.past| == |c.servers| && Chosen(h, t, i)
    ensures !Blocked(c, h, t, i)
  {
    if Blocked(c, h, t, i) {
      var q :| ChosenBy(h, t, i, q);
      var r :| BlockedBy(c, h, t, i, r);
      var v := MajoritiesMeet(q, r, |c.servers|);
      assert false;
    }
  }

  /* ---------- The parts of the invariant ---------- */

  /** Every later leader's log is safe for every entry. */
  ghost predicate LeaderSafe(c: Cluster, h: Hist, t: nat, t': nat, i: nat) {
    t < t' && t' in h.tlog && EntryOf(h, t, i) ==> Safe(c, h, t, i, h.tlog[t'])
  }

  /** What a server acknowledged is safe in its log. */
  ghost predicate AckSafe(c: Cluster, h: Hist, v: nat, t: nat, i: nat) {
    v < |c.servers| && Acked(h, v, t, i) && EntryOf(h, t, i) ==> Safe(c, h, t, i, c.servers[v].logs)
  }

  /** What a voter acknowledged is safe in the log of the candidate it voted for, while that race is open. */
  ghost predicate VoteSafe(c: Cluster, h: Hist, v: nat, u: nat, b: nat, t: nat, i: nat) {
    VotedFor(h, v, u, b) && u !in h.tlog && t < u && Acked(h, v, t, i) && EntryOf(h, t, i) ==>
      b < |h.past| && u in h.past[b].cand && Safe(c, h, t, i, h.past[b].cand[u])
  }

  /** How the log of a server stands to the logs of the leaders it followed. */
  ghost predicate AccInv(sv: Server, h: Hist)
    requires sv.me < |h.past| && |sv.logs| > 0
  {
    var acc := h.past[sv.me].acc;
    && (forall t :: t in acc ==> t <= sv.currentTerm && t in h.tlog && acc[t] <= |h.tlog[t]|)
    && 0 in acc && acc[0] > 0
    && (if sv.currentTerm in acc
        then acc[sv.currentTerm] == |sv.logs| && Prefix(sv.logs, h.tlog[sv.currentTerm])
        else LastTerm(sv.logs) < sv.currentTerm)
    && (forall t :: t in h.leader && h.leader[t] == sv.me ==> t in acc && t in h.tlog && acc[t] == |h.tlog[t]|)
  }

  /** The log a candidate ran with is the log it still has while the race is open. */
  ghost predicate CandInv(sv: Server, h: Hist)
    requires sv.me < |h.past|
  {
    var p := h.past[sv.me];
    && (forall t :: t in p.counted ==> t in p.cand && Rooted(h, p.cand[t]) && LastTerm(p.cand[t]) < t)
    && (sv.currentTerm in p.counted && sv.currentTerm !in h.tlog ==> sv.logs == p.cand[sv.currentTerm])
  }

  /** A vote was asked for by the candidate it went to. */
  ghost predicate AskedFor(h: Hist, v: nat, t: nat)
    requires v < |h.past|
  {
    t in h.past[v].votes ==> h.past[v].votes[t] < |h.past| && t in h.past[h.past[v].votes[t]].counted
  }

  /** What a leader believes a peer holds, the peer acknowledged in the leader's term. */
  ghost predicate MatchInv(sv: Server, h: Hist) {
    sv.state == Leader ==>
      && |sv.matchIndex| == sv.peers
      && forall id :: 0 <= id < sv.peers && id != sv.me ==>
        sv.matchIndex[id] == 0 || Acked(h, id, sv.currentTerm, sv.matchIndex[id])
  }

  /** The committed part of the log is committed, and the applied part is a prefix of it, applied once and in order. */
  ghost predicate CommitInv(sv: Server, h: Hist) {
    && sv.lastApplied <= sv.commitIndex < |sv.logs|
    && Committed(h, sv.logs, sv.commitIndex + 1, sv.currentTerm)
    && |sv.chanApply| == sv.lastApplied
    && (forall j :: 0 <= j < |sv.chanApply| ==> sv.chanApply[j] == ApplyMsg(j + 1, sv.logs[j + 1].command))
  }

  ghost predicate ServerInv2(sv: Server, h: Hist)
    requires sv.me < |h.past| && |sv.logs| > 0
  {
    AccInv(sv, h) && CandInv(sv, h) && MatchInv(sv, h) && CommitInv(sv, h)
  }

  /** The request describes the log the candidate ran with. */
  ghost predicate BallotInv(h: Hist, m: VoteRpc)
    requires m.from < |h.past|
  {
    var u := m.args.term;
    u !in h.tlog && u in h.past[m.from].cand ==>
      && m.args.lastLogIndex + 1 == |h.past[m.from].cand[u]|
      && m.args.lastLogTerm == LastTerm(h.past[m.from].cand[u])
  }

  ghost predicate RequestInv(h: Hist, m: AppendRpc)
    requires m.to < |h.past| && m.args.term in h.tlog
  {
    && m.args.leaderCommit < CarriedLength(m.args)
    && Committed(h, h.tlog[m.args.term], m.args.leaderCommit + 1, m.args.term)
    && (m.status.Answered? && m.status.reply.success ==> Acked(h, m.to, m.args.term, CarriedLength(m.args) - 1))
  }

  /** Later requests of a term carry at least as much. */
  ghost predicate Longer(c: Cluster, j: nat, k: nat)
    requires j < |c.appends| && k < |c.appends|
  {
    j <= k && c.appends[j].args.term == c.appends[k].args.term ==>
      CarriedLength(c.appends[j].args) <= CarriedLength(c.appends[k].args)
  }

  /** What a follower acknowledged last in term t is the length of a request that was delivered to it. */
  ghost predicate DeliveredAt(c: Cluster, h: Hist, v: nat, t: nat, k: nat)
    requires v < |h.past| && t in h.past[v].acc
  {
    && k < |c.appends| && c.appends[k].to == v && c.appends[k].args.term == t
    && c.appends[k].status != Sent && CarriedLength(c.appends[k].args) == h.past[v].acc[t]
  }

  ghost predicate AccDelivered(c: Cluster, h: Hist, v: nat, t: nat) {
    v < |h.past| && t in h.past[v].acc && t in h.leader && h.leader[t] != v ==> exists k :: DeliveredAt(c, h, v, t, k)
  }

  ghost predicate ServersInv2(c: Cluster, h: Hist)
    requires Shape(c) && |h.past| == |c.servers|
  {
    forall s {:trigger ServerInv2(c.servers[s], h)} :: 0 <= s < |c.servers| ==> ServerInv2(c.servers[s], h)
  }

  ghost predicate SafetyInv(c: Cluster, h: Hist) {
    && (forall t: nat, t': nat, i: nat {:trigger LeaderSafe(c, h, t, t', i)} :: LeaderSafe(c, h, t, t', i))
    && (forall v: nat, t: nat, i: nat {:trigger AckSafe(c, h, v, t, i)} :: AckSafe(c, h, v, t, i))
    && (forall v: nat, u: nat, b: nat, t: nat, i: nat {:trigger VoteSafe(c, h, v, u, b, t, i)} :: VoteSafe(c, h, v, u, b, t, i))
  }

  ghost predicate CallsInv(c: Cluster, h: Hist)
    requires Shape(c) && |h.past| == |c.servers| && AppendsInv(c, h)
  {
    && (forall k {:trigger BallotInv(h, c.votes[k])} :: 0 <= k < |c.votes| ==> BallotInv(h, c.votes[k]))
    && (forall v: nat, t: nat {:trigger AskedFor(h, v, t)} :: 0 <= v < |h.past| ==> AskedFor(h, v, t))
    && (forall k {:trigger RequestInv(h, c.appends[k])} :: 0 <= k < |c.appends| ==>
      AppendInv(c, h, c.appends[k]) && RequestInv(h, c.appends[k]))
    && (forall j, k {:trigger Longer(c, j, k)} :: 0 <= j < |c.appends| && 0 <= k < |c.appends| ==> Longer(c, j, k))
    && (forall v: nat, t: nat {:trigger AccDelivered(c, h, v, t)} :: AccDelivered(c, h, v, t))
  }

  ghost predicate Inv2(c: Cluster, h: Hist) {
    && Inv(c, h)
    && ServersInv2(c, h)
    && SafetyInv(c, h)
    && CallsInv(c, h)
  }

  /* ---------- Growth ---------- */

  ghost predicate AccStep(p: Past, p': Past, term: nat) {
    && (forall t :: t in p.acc ==> t in p'.acc && p.acc[t] <= p'.acc[t])
    && (forall t :: t in p'.acc && t < term ==> t in p.acc && p'.acc[t] == p.acc[t])
  }

  /** Nothing acknowledged is forgotten, and a server acknowledges nothing in a term it has left. */
  ghost predicate Advances(c: Cluster, h: Hist, c': Cluster, h': Hist) {
    && |c'.servers| == |c.servers| == |h.past| && Grows(h, h')
    && forall v {:trigger AccStep(h.past[v], h'.past[v], c.servers[v].currentTerm)} :: 0 <= v < |c.servers| ==>
      && AccStep(h.past[v], h'.past[v], c.servers[v].currentTerm)
      && c'.servers[v].currentTerm >= c.servers[v].currentTerm
  }

  lemma AckedStays(c: Cluster, h: Hist, c': Cluster, h': Hist, v: nat, t: nat, i: nat)
    requires Advances(c, h, c', h') && Acked(h, v, t, i)
    ensures Acked(h', v, t, i)
  {
    assert AccStep(h.past[v], h'.past[v], c.servers[v].currentTerm);
  }

  lemma ChosenStays(c: Cluster, h: Hist, c': Cluster, h': Hist, t: nat, i: nat)
    requires Advances(c, h, c', h') && Chosen(h, t, i)
    ensures Chosen(h', t, i)
  {
    var q :| ChosenBy(h, t, i, q);
    forall v | v in q
      ensures Acked(h', v, t, i)
    {
      AckedStays(c, h, c', h', v, t, i);
    }
    assert ChosenBy(h', t, i, q);
  }

  lemma BlockedStays(c: Cluster, h: Hist, c': Cluster, h': Hist, t: nat, i: nat)
    requires Advances(c, h, c', h') && Blocked(c, h, t, i)
    ensures Blocked(c', h', t, i)
  {
    var q :| BlockedBy(c, h, t, i, q);
    forall v | v in q && v < |c.servers|
      ensures c'.servers[v].currentTerm > t && !Acked(h', v, t, i)
    {
      assert AccStep(h.past[v], h'.past[v], c.servers[v].currentTerm);
    }
    assert BlockedBy(c', h', t, i, q);
  }

  lemma SafeStays(c: Cluster, h: Hist, c': Cluster, h': Hist, t: nat, i: nat, log: seq<LogEntry>, log': seq<LogEntry>)
    requires Advances(c, h, c', h') && Safe(c, h, t, i, log) && i < |h.tlog[t]|
    requires Prefix(log, log')
    ensures Safe(c', h', t, i, log')
  {
    if Blocked(c, h, t, i) {
      BlockedStays(c, h, c', h', t, i);
    }
  }

  lemma CommittedStays(c: Cluster, h: Hist, c': Cluster, h': Hist, log: seq<LogEntry>, len: nat, u: nat, log': seq<LogEntry>, u': nat)
    requires Advances(c, h, c', h') && Committed(h, log, len, u) && u <= u' && Same(log, log', len)
    ensures Committed(h', log', len, u')
  {
    var t: nat, i: nat :| CommittedBy(h, log, len, u, t, i);
    ChosenStays(c, h, c', h', t, i);
    assert CommittedBy(h', log', len, u', t, i);
  }
}
