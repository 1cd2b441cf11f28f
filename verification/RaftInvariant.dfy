/**
 * Every timely step keeps the invariant `RaftHistory.Inv`: the frame. A step of one server is described by what
 * the others keep; the lemmas here show which parts of the invariant survive such a step, and how the whole
 * invariant is put together again from the part of the acting server and the parts of all others.
 */
module RaftInvariant {
  import opened RaftLog
  import opened RaftServer
  import opened RaftCluster
  import opened RaftHistory
  import opened Quorum

  /* ---------- Logs under growth ---------- */

  lemma RootedAtGrows(h: Hist, h': Hist, log: seq<LogEntry>, i: int)
    requires 0 <= i < |log| && RootedAt(h, log, i) && TlogGrows(h, h')
    ensures RootedAt(h', log, i)
  {
  }

  /** A rooted log agrees with the leader's log of the term of each of its entries. */
  lemma RootedEverywhere(h: Hist, log: seq<LogEntry>, i: nat)
    requires TlogInv(h) && Rooted(h, log) && i < |log|
    ensures RootedAt(h, log, i)
  {
    var t := LastTerm(log);
    assert RootedAt(h, log, |log| - 1);
    assert RootedAt(h, h.tlog[t], i);
  }

  /** Two rooted logs with the same term at a position agree up to there. */
  lemma RootedLogsMatch(h: Hist, a: seq<LogEntry>, b: seq<LogEntry>, i: nat)
    requires TlogInv(h) && Rooted(h, a) && Rooted(h, b)
    requires i < |a| && i < |b| && a[i].term == b[i].term
    ensures Same(a, b, i + 1)
  {
    RootedEverywhere(h, a, i);
    RootedEverywhere(h, b, i);
  }

  lemma RootedIsTermLog(h: Hist, log: seq<LogEntry>)
    requires TlogInv(h) && Rooted(h, log)
    ensures TermLog(log, LastTerm(log))
  {
    assert RootedAt(h, log, |log| - 1);
    assert TermLog(h.tlog[LastTerm(log)], LastTerm(log));
  }

  /** A prefix of a rooted log is rooted. */
  lemma RootedPrefix(h: Hist, log: seq<LogEntry>, p: seq<LogEntry>)
    requires TlogInv(h) && Rooted(h, log) && |p| > 0 && Prefix(p, log)
    ensures Rooted(h, p)
  {
    RootedEverywhere(h, log, |p| - 1);
  }

  lemma LeaderLogRooted(h: Hist, t: nat)
    requires TlogInv(h) && t in h.tlog
    ensures Rooted(h, h.tlog[t])
  {
    assert TermLog(h.tlog[t], t);
    assert RootedAt(h, h.tlog[t], |h.tlog[t]| - 1);
  }

  lemma VotersStay(sv: Server, h: Hist, h': Hist)
    requires sv.me < |h.past| && CountInv(sv, h) && Grows(h, h')
    ensures forall t, v :: t in h.past[sv.me].counted && v in h.past[sv.me].counted[t] ==> VotedFor(h', v, t, sv.me)
  {
    forall t, v | t in h.past[sv.me].counted && v in h.past[sv.me].counted[t]
      ensures VotedFor(h', v, t, sv.me)
    {
      assert VotedFor(h, v, t, sv.me);
      assert PastGrows(h.past[v], h'.past[v]);
    }
  }

  /** The acting server is s; every other server stands still and the actor's term does not fall. */
  ghost predicate ActsAt(c: Cluster, h: Hist, c': Cluster, h': Hist, s: nat) {
    && Shape(c) && Shape(c') && |c'.servers| == |c.servers| == |h.past| && s < |c.servers|
    && GrowsAt(h, h', s)
    && c'.servers[s].currentTerm >= c.servers[s].currentTerm
    && (forall j :: 0 <= j < |c.servers| && j != s ==> c'.servers[j] == c.servers[j])
    && (forall j :: 0 <= j < |c.servers| && j != s ==> c'.threads[j] == c.threads[j])
  }

  /* ---------- Parts of the state an event does not act on ---------- */

  lemma OtherServer(sv: Server, h: Hist, h': Hist, s: nat)
    requires sv.me < |h.past| && sv.me != s
    requires ServerInv(sv, h) && GrowsAt(h, h', s)
    ensures ServerInv(sv, h')
  {
    RootedAtGrows(h, h', sv.logs, |sv.logs| - 1);
    assert h'.past[sv.me] == h.past[sv.me];
    VotersStay(sv, h, h');
  }

  lemma OtherThreads(c: Cluster, h: Hist, c': Cluster, h': Hist, s: nat, j: nat)
    requires Shape(c) && Shape(c') && |c'.servers| == |c.servers| == |h.past| && GrowsAt(h, h', s)
    requires j < |c.servers| && j != s && ThreadsInv(c, h, j)
    requires c'.servers[j] == c.servers[j] && c'.threads[j] == c.threads[j]
    ensures ThreadsInv(c', h', j)
  {
  }

  lemma OldTerm(c: Cluster, h: Hist, c': Cluster, h': Hist, s: nat, t: nat)
    requires ActsAt(c, h, c', h', s)
    requires t in h.leader && TermInv(c, h, t)
    ensures t in h'.leader && TermInv(c', h', t)
  {
    var l := h.leader[t];
    assert PastGrows(h.past[l], h'.past[l]);
    assert h.past[l].counted[t] <= h'.past[l].counted[t];
    SubsetSize(h.past[l].counted[t], h'.past[l].counted[t]);
  }

  lemma CarriesMore(args: AppendEntriesArgs, log: seq<LogEntry>, log': seq<LogEntry>)
    requires Carries(args, log) && Prefix(log, log')
    requires forall i :: |log| <= i < |log'| ==> log'[i].term == args.term
    ensures Carries(args, log')
  {
  }

  lemma OldAppend(c: Cluster, h: Hist, c': Cluster, h': Hist, m: AppendRpc)
    requires Shape(c) && Shape(c') && |c'.servers| == |c.servers| && Grows(h, h')
    requires m.from < |c.servers|
    requires c'.threads[m.from].epoch >= c.threads[m.from].epoch
    requires (c'.threads[m.from].epoch == m.epoch && c'.servers[m.from].currentTerm == m.args.term)
      ==> c'.servers[m.from].state == Leader
    requires AppendInv(c, h, m)
    ensures AppendInv(c', h', m)
  {
    CarriesMore(m.args, h.tlog[m.args.term], h'.tlog[m.args.term]);
  }

  lemma OldVote(c: Cluster, h: Hist, c': Cluster, h': Hist, m: VoteRpc)
    requires Shape(c) && Shape(c') && |c'.servers| == |c.servers| == |h.past| && Grows(h, h')
    requires m.from < |c.servers| && m.to < |c.servers|
    requires VoteInv(c, h, m) && PastGrows(h.past[m.from], h'.past[m.from])
    requires m.args.term !in c'.threads[m.from].ballots
    requires h'.past[m.from].counted[m.args.term] == h.past[m.from].counted[m.args.term]
    ensures VoteInv(c', h', m)
  {
    assert PastGrows(h.past[m.from], h'.past[m.from]);
    assert PastGrows(h.past[m.to], h'.past[m.to]);
  }

  /* ---------- From the acting server to the whole cluster ---------- */

  lemma AssembleServers(c: Cluster, h: Hist, c': Cluster, h': Hist, s: nat)
    requires ActsAt(c, h, c', h', s) && ServersInv(c, h)
    requires ServerInv(c'.servers[s], h') && ThreadsInv(c', h', s)
    ensures ServersInv(c', h')
  {
    forall j | 0 <= j < |c.servers| && j != s
      ensures ServerInv(c'.servers[j], h') && ThreadsInv(c', h', j)
    {
      OtherServer(c.servers[j], h, h', s);
      OtherThreads(c, h, c', h', s, j);
    }
  }

  lemma AssembleLeaders(c: Cluster, h: Hist, c': Cluster, h': Hist, s: nat)
    requires ActsAt(c, h, c', h', s) && LeadersInv(c, h)
    requires forall t :: t in h'.leader && t !in h.leader ==> TermInv(c', h', t)
    requires forall t :: t in h'.tlog && t !in h.tlog ==> t in h'.leader
    ensures LeadersInv(c', h')
  {
    forall t | t in h'.leader
      ensures TermInv(c', h', t)
    {
      if t in h.leader {
        OldTerm(c, h, c', h', s, t);
      }
    }
  }

  lemma AppendKept(c: Cluster, h: Hist, c': Cluster, h': Hist, s: nat, m: AppendRpc)
    requires ActsAt(c, h, c', h', s) && LeadersInv(c, h) && StaysLeader(c, c', s)
    requires m.from < |c.servers| && AppendInv(c, h, m)
    ensures AppendInv(c', h', m)
  {
    assert TermInv(c, h, m.args.term);
    OldAppend(c, h, c', h', m);
  }

  /** A leader that does not restart remains leader until its term grows. */
  ghost predicate StaysLeader(c: Cluster, c': Cluster, s: nat)
    requires Shape(c) && Shape(c') && |c'.servers| == |c.servers| && s < |c.servers|
  {
    && c'.threads[s].epoch >= c.threads[s].epoch
    && (c.servers[s].state == Leader && c'.threads[s].epoch == c.threads[s].epoch ==>
      c'.servers[s].currentTerm == c.servers[s].currentTerm ==> c'.servers[s].state == Leader)
  }

  lemma AppendsFrame(c: Cluster, h: Hist, c': Cluster, h': Hist, s: nat)
    requires ActsAt(c, h, c', h', s) && LeadersInv(c, h) && StaysLeader(c, c', s)
    requires AppendsInv(c, h) && c'.appends == c.appends
    ensures AppendsInv(c', h')
  {
    forall k | 0 <= k < |c.appends|
      ensures AppendInv(c', h', c.appends[k])
    {
      AppendKept(c, h, c', h', s, c.appends[k]);
    }
  }

  lemma BallotsFrame(c: Cluster, h: Hist, c': Cluster, h': Hist, s: nat)
    requires ActsAt(c, h, c', h', s) && BallotsInv(c, h) && c'.votes == c.votes
    requires h'.past[s].counted == h.past[s].counted
    requires c'.threads[s].ballots <= c.threads[s].ballots
    ensures BallotsInv(c', h')
  {
    forall k | 0 <= k < |c.votes|
      ensures VoteInv(c', h', c.votes[k])
    {
      OldVote(c, h, c', h', c.votes[k]);
    }
  }

  /** What a step has to show about its actor. */
  ghost predicate ActorKept(c: Cluster, h: Hist, c': Cluster, h': Hist, s: nat) {
    && ActsAt(c, h, c', h', s) && StaysLeader(c, c', s)
    && TlogInv(h')
    && ServerInv(c'.servers[s], h') && ThreadsInv(c', h', s)
    && (forall t :: t in h'.leader && t !in h.leader ==> TermInv(c', h', t))
    && (forall t :: t in h'.tlog && t !in h.tlog ==> t in h'.leader)
  }

  lemma Glue(c: Cluster, h: Hist, c': Cluster, h': Hist, s: nat)
    requires Inv(c, h) && ActorKept(c, h, c', h', s)
    requires BallotsInv(c', h') && AppendsInv(c', h')
    ensures Inv(c', h')
  {
    AssembleServers(c, h, c', h', s);
    AssembleLeaders(c, h, c', h', s);
  }

  /** Same, for a step that leaves the calls alone. */
  lemma GlueFrame(c: Cluster, h: Hist, c': Cluster, h': Hist, s: nat)
    requires Inv(c, h) && ActorKept(c, h, c', h', s)
    requires c'.votes == c.votes && c'.appends == c.appends
    requires h'.past[s].counted == h.past[s].counted
    requires c'.threads[s].ballots <= c.threads[s].ballots
    ensures Inv(c', h')
  {
    BallotsFrame(c, h, c', h', s);
    AppendsFrame(c, h, c', h', s);
    Glue(c, h, c', h', s);
  }
}
