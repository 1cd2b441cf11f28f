/** Raft: stale tokens and ballots. */
module RaftGaps {
  // Four assumptions stand behind the safety theorems, and the program enforces none of them. The two about elections
  // are dropped here in turn, with the others in force: a reachable state shows what then goes wrong, and the sizes of
  // the clusters in which it goes wrong are exact.

  import opened RaftLog
  import opened RaftServer
  import opened RaftCluster
  import opened RaftDurable
  import opened RaftSafety
  import opened RaftTraces
  import opened RaftVotes

  /* ---------- Elections ---------- */

  /** At most one server is ever leader of a term, in all runs of n servers that meet all assumptions but g. */
  ghost predicate ElectsOne(g: Gap, n: nat) {
    forall states, events, i: nat, j: nat, a: nat, b: nat, term: nat ::
      Trace(g, n, states, events) && i < |states| && j < |states| && IsLeader(states[i], a, term) && IsLeader(states[j], b, term)
      ==> a == b
  }

  ghost predicate TwoLead(c: Cluster, a: nat, b: nat, term: nat) {
    a != b && IsLeader(c, a, term) && IsLeader(c, b, term)
  }

  lemma TwoLeadersRefute(g: Gap, n: nat, c: Cluster, a: nat, b: nat, term: nat)
    requires Reach(g, n, c) && TwoLead(c, a, b, term)
    ensures !ElectsOne(g, n)
  {
    var states, events :| EndsIn(g, n, states, events, c);
    assert IsLeader(states[|events|], a, term) && IsLeader(states[|events|], b, term);
  }

  /** The peers 1, ..., n / 2 of server 0. */
  function FirstHalf(n: nat): seq<nat> {
    seq(n / 2, i => i + 1)
  }

  /** The peers 0, 2, ..., n / 2 of server 1. */
  function OtherHalf(n: nat): seq<nat> {
    seq(n / 2, i => if i == 0 then 0 else i + 1)
  }

  lemma FirstElectorate(n: nat)
    requires n >= 2 && Shape(Init(n))
    ensures Electorate(Init(n), 0, Stood(Init(n).servers[0], 1), FirstHalf(n))
  {
  }

  lemma SecondElectorate(n: nat, c: Cluster)
    requires n >= 2 && Shape(c) && |c.servers| == n
    requires c.servers[1].currentTerm == 1 && c.servers[0].currentTerm == 1
    requires forall j :: 0 <= j < n ==> c.servers[j].logs == [SENTINEL] && c.servers[j].currentTerm <= 1
    ensures Electorate(c, 1, Stood(c.servers[1], 1), OtherHalf(n))
  {
  }

  /** Server 0 wins term 1 and leaves its token unread. */
  lemma WinFirst(n: nat) returns (c: Cluster)
    requires n >= 2
    ensures At(StaleToken, n, c) && Idle(c, 1)
    ensures c.servers[0].currentTerm == 1 && c.servers[0].chanBeElected == [1] && c.threads[0].loop == AwaitingVotes
    ensures c.servers[1].currentTerm == 1
    ensures forall j :: 0 <= j < n ==> c.servers[j].logs == [SENTINEL] && c.servers[j].currentTerm <= 1
  {
    ReachInit(StaleToken, n);
    FirstElectorate(n);
    c := Campaign(StaleToken, n, Init(n), 0, 1, FirstHalf(n));
    assert FirstHalf(n)[0] == 1;
  }

  /** Server 1 wins term 2, with the vote of server 0. */
  lemma WinBoth(n: nat) returns (c: Cluster)
    requires n >= 2
    ensures At(StaleToken, n, c)
    ensures c.servers[0].currentTerm == 2 && c.servers[0].chanBeElected == [1] && c.threads[0].loop == AwaitingVotes
    ensures c.servers[1].currentTerm == 2 && c.servers[1].chanBeElected == [2] && c.threads[1].loop == AwaitingVotes
  {
    var c1 := WinFirst(n);
    assert OtherHalf(n)[0] == 0;
    SecondElectorate(n, c1);
    c := Campaign(StaleToken, n, c1, 1, 1, OtherHalf(n));
  }

  /**
   * If a server may take power with a token of an earlier term, two servers can lead the same term in a cluster of
   * any size but one: server 0, now in term 2, reads its old token.
   */
  lemma StaleTokenElectsTwo(n: nat)
    requires n >= 2
    ensures exists c :: Reach(StaleToken, n, c) && TwoLead(c, 0, 1, 2)
  {
    var c := WinBoth(n);
    var c1 := ReachStep(StaleToken, n, c, BeElected(1));
    var c2 := ReachStep(StaleToken, n, c1, BeElected(0));
    assert TwoLead(c2, 0, 1, 2);
  }

  /** Current requests for votes alone give Election Safety exactly in clusters of at most one server. */
  lemma TokensNeededIff(n: nat)
    ensures ElectsOne(StaleToken, n) <==> n <= 1
  {
    if n >= 2 {
      StaleTokenElectsTwo(n);
      var c :| Reach(StaleToken, n, c) && TwoLead(c, 0, 1, 2);
      TwoLeadersRefute(StaleToken, n, c, 0, 1, 2);
    } else {
      forall states, events, i: nat, j: nat, a: nat, b: nat, term: nat |
        Trace(StaleToken, n, states, events) && i < |states| && j < |states| && IsLeader(states[i], a, term) && IsLeader(states[j], b, term)
        ensures a == b
      {
        DurableState(n, states, events, i);
        DurableState(n, states, events, j);
      }
    }
  }

  /** The ballots of m elections, all read in the last term, ask v again and again. */
  lemma {:induction false} AskAgain(n: nat, c: Cluster, s: nat, v: nat, from: nat) returns (c': Cluster)
    requires At(StaleBallot, n, c) && s < n && v < n && v != s && from <= c.servers[s].currentTerm
    requires forall t :: from < t <= c.servers[s].currentTerm ==> t in c.threads[s].ballots
    ensures At(StaleBallot, n, c') && c'.servers == c.servers && c'.appends == c.appends
    ensures c'.threads == c.threads[s := c.threads[s].(ballots := c'.threads[s].ballots)]
    ensures var m := c.servers[s].currentTerm - from;
            c'.votes == c.votes + seq(m, i => Rpc(s, v, c.threads[s].epoch, VoteArgs(c.servers[s]), Sent))
    decreases c.servers[s].currentTerm - from
  {
    if from == c.servers[s].currentTerm {
      c' := c;
    } else {
      var c1 := ReachStep(StaleBallot, n, c, SendBallots(s, from + 1, [v]));
      c' := AskAgain(n, c1, s, v, from + 1);
    }
  }

  /** As many votes of peer v as half of the cluster has. */
  function Repeated(n: nat, v: nat): seq<nat> {
    seq(n / 2, i => v)
  }

  lemma RepeatedPending(c: Cluster, s: nat, k: nat, v: nat)
    requires Shape(c) && s < |c.servers| && v < |c.servers| && v != s && k + |c.servers| / 2 == |c.votes|
    requires Willing(c.servers[v], c.servers[s])
    requires c.votes[k..] == seq(|c.servers| / 2, i => Rpc(s, v, c.threads[s].epoch, VoteArgs(c.servers[s]), Sent))
    requires c.servers[s].state == Candidate && c.threads[s].loop == AwaitingVotes && c.servers[s].voteCount == 1
    ensures Polling(c, s, k, Repeated(|c.servers|, v), 0)
  {
    var targets := Repeated(|c.servers|, v);
    forall x | 0 <= x < |targets|
      ensures Pending(c, s, k, targets, x)
    {
      assert c.votes[k..][x] == c.votes[k + x];
    }
  }

  /** Server s asks peer v alone, in n / 2 elections at once. */
  lemma AskOne(n: nat, c: Cluster, s: nat, v: nat) returns (c': Cluster, k: nat)
    requires At(StaleBallot, n, c) && Idle(c, s) && v < n && v != s && n >= 2
    requires Willing(c.servers[v], Stood(c.servers[s], n / 2))
    ensures At(StaleBallot, n, c') && Polling(c', s, k, Repeated(n, v), 0)
    ensures c'.servers == c.servers[s := Stood(c.servers[s].(state := Candidate), n / 2)]
    ensures forall j :: 0 <= j < n && j != s ==> c'.threads[j] == c.threads[j]
  {
    var c1 := StandUp(StaleBallot, n, c, s, n / 2);
    c' := AskAgain(n, c1, s, v, c.servers[s].currentTerm);
    k := |c1.votes|;
    RepeatedPending(c', s, k, v);
  }

  /** Server s is elected with one peer's vote counted again and again. */
  lemma ElectByOne(n: nat, c: Cluster, s: nat, v: nat) returns (c': Cluster)
    requires At(StaleBallot, n, c) && Idle(c, s) && v < n && v != s && n >= 2
    requires Willing(c.servers[v], Stood(c.servers[s], n / 2))
    ensures At(StaleBallot, n, c') && IsLeader(c', s, c.servers[s].currentTerm + n / 2)
    ensures forall j :: 0 <= j < n && j != s && j != v ==> c'.servers[j] == c.servers[j]
    ensures forall j :: 0 <= j < n && j != s ==> c'.threads[j] == c.threads[j]
  {
    var c1, k := AskOne(n, c, s, v);
    var c2 := Poll(StaleBallot, n, c1, s, k, Repeated(n, v), 0);
    c' := ReachStep(StaleBallot, n, c2, BeElected(s));
  }

  /**
   * If a request for votes may be read in a later term than its election, two servers can lead the same term in any
   * cluster of at least four: each has one peer's vote counted often enough.
   */
  lemma StaleBallotElectsTwo(n: nat)
    requires n >= 4
    ensures exists c :: Reach(StaleBallot, n, c) && TwoLead(c, 0, 2, n / 2)
  {
    ReachInit(StaleBallot, n);
    var c1 := ElectByOne(n, Init(n), 0, 1);
    var c2 := ElectByOne(n, c1, 2, 3);
    assert TwoLead(c2, 0, 2, n / 2);
  }

  /** Current tokens alone give Election Safety exactly in clusters of at most three servers. */
  lemma BallotsNeededIff(n: nat)
    ensures ElectsOne(StaleBallot, n) <==> n <= 3
  {
    if n >= 4 {
      StaleBallotElectsTwo(n);
      var c :| Reach(StaleBallot, n, c) && TwoLead(c, 0, 2, n / 2);
      TwoLeadersRefute(StaleBallot, n, c, 0, 2, n / 2);
    } else {
      forall states, events, i: nat, j: nat, a: nat, b: nat, term: nat |
        Trace(StaleBallot, n, states, events) && i < |states| && j < |states| && IsLeader(states[i], a, term) && IsLeader(states[j], b, term)
        ensures a == b
      {
        TraceHasTokens(n, states, events);
        FewServersElectOne(n, states, events, i, j, a, b, term);
      }
    }
  }

  lemma TraceHasTokens(n: nat, states: seq<Cluster>, events: seq<Event>)
    requires Trace(StaleBallot, n, states, events)
    ensures TokenRun(n, states, events)
  {
    forall i | 0 <= i < |events|
      ensures TokenAt(states, events, i)
    {
      assert AllowedAt(StaleBallot, states, events, i);
    }
  }
}
