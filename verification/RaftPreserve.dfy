/**
 * Every timely step of the cluster keeps the invariant `RaftHistory.Inv` for whatever it does not act on: the
 * other servers, their goroutines, the calls that stay as they are and the terms that nobody enters. The events
 * that change only a goroutine, a state or the applied part are dealt with here as a whole.
 */
module RaftPreserve {
  import opened RaftLog
  import opened RaftServer
  import opened RaftCluster
  import opened RaftHistory
  import opened RaftInvariant
  import opened RaftSteps
  import opened Quorum

  ghost predicate Ready(c: Cluster, e: Event, h: Hist) {
    Inv(c, h) && Enabled(c, e) && !Faults(c, e) && Timely(c, e)
  }

  /** The part of the invariant that a step of server s starts from. */
  ghost predicate Standing(c: Cluster, h: Hist, s: nat) {
    && Shape(c) && |h.past| == |c.servers| && s < |c.servers|
    && TlogInv(h) && LeadersInv(c, h)
    && ServerInv(c.servers[s], h) && ThreadsInv(c, h, s)
  }

  lemma InvStanding(c: Cluster, h: Hist, s: nat)
    requires Inv(c, h) && s < |c.servers|
    ensures Standing(c, h, s)
  {
  }

  lemma LogOf(c: Cluster, h: Hist, s: nat)
    requires Inv(c, h) && s < |c.servers|
    ensures LogInv(c.servers[s], h)
  {
    assert ServerInv(c.servers[s], h);
  }

  lemma CountOf(c: Cluster, h: Hist, s: nat)
    requires Inv(c, h) && s < |c.servers|
    ensures CountInv(c.servers[s], h)
  {
    assert ServerInv(c.servers[s], h);
  }

  lemma CountedIsMajority(c: Cluster, h: Hist, s: nat, t: nat)
    requires Shape(c) && |h.past| == |c.servers| && s < |c.servers| && CountInv(c.servers[s], h)
    requires t in h.past[s].counted && 2 * |h.past[s].counted[t]| > |c.servers|
    ensures Majority(h.past[s].counted[t], |c.servers|)
  {
    forall v | v in h.past[s].counted[t]
      ensures v in Ids(|c.servers|)
    {
      assert VotedFor(h, v, t, s);
    }
  }

  /** Two candidates of one term cannot both have a majority: a common voter voted once. */
  lemma OneWinner(c: Cluster, h: Hist, a: nat, b: nat, t: nat)
    requires Inv(c, h) && a < |c.servers| && b < |c.servers|
    requires t in h.past[a].counted && 2 * |h.past[a].counted[t]| > |c.servers|
    requires t in h.past[b].counted && 2 * |h.past[b].counted[t]| > |c.servers|
    ensures a == b
  {
    assert ServerInv(c.servers[a], h) && ServerInv(c.servers[b], h);
    CountedIsMajority(c, h, a, t);
    CountedIsMajority(c, h, b, t);
    var v := MajoritiesMeet(h.past[a].counted[t], h.past[b].counted[t], |c.servers|);
    assert VotedFor(h, v, t, a) && VotedFor(h, v, t, b);
  }

  /** When a server takes power with a token of its term, the term has no leader yet. */
  lemma TermIsOpen(c: Cluster, h: Hist, s: nat)
    requires Inv(c, h) && s < |c.servers| && |c.servers[s].chanBeElected| > 0
    requires c.servers[s].chanBeElected[0] == c.servers[s].currentTerm && c.threads[s].loop == AwaitingVotes
    ensures var t := c.servers[s].currentTerm;
            && t > 0 && t !in h.leader && t !in h.tlog
            && t in h.past[s].counted && 2 * |h.past[s].counted[t]| > |c.servers|
  {
    var sv := c.servers[s];
    var t := sv.currentTerm;
    assert ServerInv(sv, h) && ThreadsInv(c, h, s);
    if t in h.leader {
      assert TermInv(c, h, t);
      OneWinner(c, h, s, h.leader[t], t);
    }
  }

  lemma NewTlog(h: Hist, t: nat, log: seq<LogEntry>, h': Hist)
    requires TlogInv(h) && t !in h.tlog && Rooted(h, log) && LastTerm(log) <= t
    requires h'.tlog == h.tlog[t := log]
    ensures TlogInv(h')
  {
    RootedIsTermLog(h, log);
    forall u, i | u in h'.tlog && 0 <= i < |h'.tlog[u]|
      ensures RootedAt(h', h'.tlog[u], i)
    {
      if u == t {
        RootedEverywhere(h, log, i);
      } else {
        assert RootedAt(h, h.tlog[u], i);
      }
    }
  }

  lemma LongerTlog(h: Hist, t: nat, log: seq<LogEntry>, h': Hist)
    requires TlogInv(h) && t > 0 && t in h.tlog
    requires |log| == |h.tlog[t]| + 1 && Prefix(h.tlog[t], log)
    requires log[|log| - 1].term == t && log[|log| - 1].index == |log| - 1
    requires h'.tlog == h.tlog[t := log]
    ensures TlogInv(h')
  {
    assert TermLog(h.tlog[t], t);
    forall u, i | u in h'.tlog && 0 <= i < |h'.tlog[u]|
      ensures RootedAt(h', h'.tlog[u], i)
    {
      if u == t && i == |log| - 1 {
      } else {
        assert RootedAt(h, h.tlog[u], i);
      }
    }
  }

  /* ---------- Events that only move goroutines or fields no other server depends on ---------- */

  /** One server changes quiet fields only and keeps its ballots and its election standing. */
  ghost predicate QuietTurn(c: Cluster, c': Cluster, s: nat) {
    && |c'.servers| == |c.servers| == |c.threads| == |c'.threads| && s < |c.servers|
    && (forall j :: 0 <= j < |c.servers| && j != s ==> c'.servers[j] == c.servers[j] && c'.threads[j] == c.threads[j])
    && (var sv, sv' := c.servers[s], c'.servers[s];
        && sv' == sv.(state := sv'.state, commitIndex := sv'.commitIndex, lastApplied := sv'.lastApplied,
                      chanCommit := sv'.chanCommit, chanApply := sv'.chanApply)
        && (sv'.state == Leader <==> sv.state == Leader))
    && c'.threads[s].ballots == c.threads[s].ballots && c'.threads[s].epoch == c.threads[s].epoch
    && (c'.threads[s].loop == AwaitingVotes ==> c.threads[s].loop == AwaitingVotes)
    && c'.votes == c.votes && c'.appends == c.appends
  }

  /** Before an election and while it awaits votes a server is no leader. */
  predicate NoLeaderStands(c: Cluster, s: nat)
    requires s < |c.servers| && s < |c.threads|
  {
    c.threads[s].loop == BeforeElection || c.threads[s].loop == AwaitingVotes ==> c.servers[s].state != Leader
  }

  lemma LoopTurns(c: Cluster, e: Event)
    requires Shape(c) && Enabled(c, e) && !Faults(c, e) && Quiet(e) && !e.TakeCommit? && !e.ApplyAll?
    requires NoLeaderStands(c, e.s)
    ensures QuietTurn(c, Next(c, e), e.s) && NoLeaderStands(Next(c, e), e.s)
  {
  }

  lemma ApplyTurns(c: Cluster, e: Event)
    requires Shape(c) && Enabled(c, e) && !Faults(c, e) && (e.TakeCommit? || e.ApplyAll?)
    requires NoLeaderStands(c, e.s)
    ensures QuietTurn(c, Next(c, e), e.s) && NoLeaderStands(Next(c, e), e.s)
  {
  }

  lemma QuietStep(c: Cluster, h: Hist, c': Cluster, s: nat)
    requires Inv(c, h) && Shape(c') && QuietTurn(c, c', s)
    requires NoLeaderStands(c', s)
    ensures Inv(c', h)
    ensures ActsAt(c, h, c', h, s)
  {
    assert ServerInv(c.servers[s], h) && ThreadsInv(c, h, s);
    QuietServer(c.servers[s], h, c'.servers[s]);
    GlueFrame(c, h, c', h, s);
  }

  lemma QuietEvents(c: Cluster, e: Event, h: Hist)
    requires Ready(c, e, h) && Quiet(e) && Shape(Next(c, e))
    ensures Inv(Next(c, e), h)
    ensures ActsAt(c, h, Next(c, e), h, e.s)
  {
    assert ThreadsInv(c, h, e.s);
    if e.TakeCommit? || e.ApplyAll? {
      ApplyTurns(c, e);
    } else {
      LoopTurns(c, e);
    }
    QuietStep(c, h, Next(c, e), e.s);
  }
}
