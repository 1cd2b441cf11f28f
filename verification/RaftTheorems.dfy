/** Raft: ordered runs. */
module RaftTheorems {
  // What holds in every ordered run: Leader Completeness (section 5.4), State Machine Safety (section 5.4.3), the
  // rise of commitIndex, the soundness of matchIndex, and that no index goes out of range.

  import opened RaftLog
  import opened RaftServer
  import opened RaftCluster
  import opened RaftHistory
  import opened RaftInvariant
  import opened RaftSteps
  import opened RaftPreserve
  import opened RaftEvents
  import opened RaftSafety
  import opened RaftCommit
  import opened RaftCompleteness
  import opened RaftCommitEvents

  /* ---------- The invariant along an ordered run ---------- */

  lemma OrderedStep(n: nat, states: seq<Cluster>, events: seq<Event>, k: nat)
    requires OrderedRun(n, states, events) && k < |events|
    ensures Step(states[k], events[k], states[k + 1]) && Timely(states[k], events[k]) && Orderly(states[k], events[k])
  {
    TimelyStep(n, states, events, k);
    assert OrderlyAt(states, events, k);
  }

  lemma SafetyNext(n: nat, states: seq<Cluster>, events: seq<Event>, k: nat)
    requires OrderedRun(n, states, events) && k < |events| && Inv2(states[k], HistoryAt(n, states, events, k))
    ensures Inv2(states[k + 1], HistoryAt(n, states, events, k + 1))
  {
    OrderedStep(n, states, events, k);
    HistoryStep(n, states, events, k);
    StepKeeps2(states[k], events[k], HistoryAt(n, states, events, k));
  }

  lemma {:induction false} SafetyHolds(n: nat, states: seq<Cluster>, events: seq<Event>, k: nat)
    requires OrderedRun(n, states, events) && k < |states|
    ensures Inv2(states[k], HistoryAt(n, states, events, k))
  {
    if k == 0 {
      InitKeeps2(n);
    } else {
      SafetyHolds(n, states, events, k - 1);
      SafetyNext(n, states, events, k - 1);
    }
  }

  /** What a request notes in the past of its receiver. */
  lemma AcceptedLength(c: Cluster, h: Hist, k: nat)
    requires k < |c.appends| && c.appends[k].to < |c.servers| == |h.past| && |c.servers[c.appends[k].to].logs| > 0
    ensures var m := c.appends[k];
            var p, p' := h.past[m.to], HistAdopt(c, h, k).past[m.to];
            p'.acc == if Accepts(c.servers[m.to], m.args) then p.acc[m.args.term := CarriedLength(m.args)] else p.acc
  {
    AppendEntriesCases(c.servers[c.appends[k].to], c.appends[k].args);
  }

  lemma AcceptGrowsAcc(c: Cluster, h: Hist, k: nat)
    requires Inv2(c, h) && Enabled(c, DeliverAppend(k)) && InOrder(c, DeliverAppend(k))
    ensures var s := c.appends[k].to;
            AccStep(h.past[s], HistAdopt(c, h, k).past[s], c.servers[s].currentTerm)
  {
    AcceptedLength(c, h, k);
    NoShrink(c, h, k);
  }

  lemma ElectGrowsAcc(c: Cluster, h: Hist, s: nat)
    requires Inv2(c, h) && Enabled(c, BeElected(s)) && TokenIsCurrent(c, BeElected(s))
    ensures AccStep(h.past[s], HistElect(c, h, s).past[s], c.servers[s].currentTerm)
  {
    assert ServerInv2(c.servers[s], h);
    TermIsOpen(c, h, s);
  }

  lemma OthersKeepAcc(c: Cluster, e: Event, h: Hist)
    requires Shape(c) && Enabled(c, e) && !Faults(c, e) && |h.past| == |c.servers|
    requires !e.BeElected? && !e.DeliverAppend? && !e.ClientStart?
    ensures Actor(c, e) < |h.past| && NextHist(c, e, h).past[Actor(c, e)].acc == h.past[Actor(c, e)].acc
  {
  }

  ghost predicate AccGrows(c: Cluster, e: Event, h: Hist, h': Hist) {
    var s := Actor(c, e);
    s < |c.servers| && s < |h.past| && s < |h'.past| && AccStep(h.past[s], h'.past[s], c.servers[s].currentTerm)
  }

  /** Only three events note an acknowledgement. */
  lemma AccGrowsIf(c: Cluster, e: Event, h: Hist)
    requires Shape(c) && Enabled(c, e) && !Faults(c, e) && |h.past| == |c.servers|
    requires e.BeElected? ==> AccStep(h.past[e.s], HistElect(c, h, e.s).past[e.s], c.servers[e.s].currentTerm)
    requires e.ClientStart? ==> AccStep(h.past[e.s], HistStart(c, h, e.s, e.command).past[e.s], c.servers[e.s].currentTerm)
    requires e.DeliverAppend? ==>
      var s := c.appends[e.k].to; AccStep(h.past[s], HistAdopt(c, h, e.k).past[s], c.servers[s].currentTerm)
    ensures AccGrows(c, e, h, NextHist(c, e, h))
  {
    if !e.BeElected? && !e.DeliverAppend? && !e.ClientStart? {
      OthersKeepAcc(c, e, h);
    }
  }

  lemma AccGrowsAt(c: Cluster, e: Event, h: Hist)
    requires Inv2(c, h) && Enabled(c, e) && !Faults(c, e) && TokenIsCurrent(c, e) && InOrder(c, e)
    ensures AccGrows(c, e, h, NextHist(c, e, h))
  {
    if e.BeElected? {
      ElectGrowsAcc(c, h, e.s);
    } else if e.DeliverAppend? {
      AcceptGrowsAcc(c, h, e.k);
    } else if e.ClientStart? {
      StartGrowsAcc(c, h, e.s, e.command);
    }
    AccGrowsIf(c, e, h);
  }

  lemma StepAdvances(c: Cluster, e: Event, h: Hist)
    requires Ready(c, e, h) && Inv2(c, h) && Orderly(c, e)
    ensures Advances(c, h, Next(c, e), NextHist(c, e, h))
  {
    StepKeeps(c, e, h);
    AccGrowsAt(c, e, h);
    ActsAdvances(c, h, Next(c, e), NextHist(c, e, h), Actor(c, e));
  }

  /** What is committed stays committed. */
  lemma {:induction false} CommittedForEver(n: nat, states: seq<Cluster>, events: seq<Event>, i: nat, j: nat,
                                            log: seq<LogEntry>, len: nat, u: nat)
    requires OrderedRun(n, states, events) && i <= j < |states|
    requires Committed(HistoryAt(n, states, events, i), log, len, u)
    ensures Committed(HistoryAt(n, states, events, j), log, len, u)
    decreases j - i
  {
    if i < j {
      CommittedNext(n, states, events, i, log, len, u);
      CommittedForEver(n, states, events, i + 1, j, log, len, u);
    }
  }

  lemma CommittedNext(n: nat, states: seq<Cluster>, events: seq<Event>, i: nat, log: seq<LogEntry>, len: nat, u: nat)
    requires OrderedRun(n, states, events) && i < |events|
    requires Committed(HistoryAt(n, states, events, i), log, len, u)
    ensures Committed(HistoryAt(n, states, events, i + 1), log, len, u)
  {
    SafetyHolds(n, states, events, i);
    OrderedStep(n, states, events, i);
    HistoryStep(n, states, events, i);
    CommittedByStep(states[i], events[i], HistoryAt(n, states, events, i), log, len, u);
  }

  lemma CommittedByStep(c: Cluster, e: Event, h: Hist, log: seq<LogEntry>, len: nat, u: nat)
    requires Ready(c, e, h) && Inv2(c, h) && Orderly(c, e) && Committed(h, log, len, u)
    ensures Committed(NextHist(c, e, h), log, len, u)
  {
    StepAdvances(c, e, h);
    var t: nat, k: nat :| CommittedBy(h, log, len, u, t, k);
    CommittedStays(c, h, Next(c, e), NextHist(c, e, h), log, len, u, log, u);
  }

  /** The committed part of a server's log at moment i, seen from the later moment j. */
  lemma CommittedSeenFrom(n: nat, states: seq<Cluster>, events: seq<Event>, i: nat, a: nat, j: nat)
    requires OrderedRun(n, states, events) && i <= j < |states| && a < |states[i].servers|
    ensures var sv := states[i].servers[a];
            && sv.commitIndex < |sv.logs|
            && Committed(HistoryAt(n, states, events, j), sv.logs, sv.commitIndex + 1, sv.currentTerm)
  {
    SafetyHolds(n, states, events, i);
    var sv := states[i].servers[a];
    assert ServerInv2(sv, HistoryAt(n, states, events, i));
    CommittedForEver(n, states, events, i, j, sv.logs, sv.commitIndex + 1, sv.currentTerm);
  }

  /* ---------- Leader Completeness ---------- */

  /** What is committed in a term up to u is in the log of every leader of a term from u on. */
  lemma CommittedInLeaderLog(c: Cluster, h: Hist, log: seq<LogEntry>, len: nat, u: nat, t': nat)
    requires Inv(c, h) && SafetyInv(c, h) && Committed(h, log, len, u) && u <= t' && t' in h.tlog
    ensures Same(log, h.tlog[t'], len)
    ensures u < t' ==> forall i :: 0 <= i < len ==> log[i].term < t'
  {
    var t: nat, i: nat :| CommittedBy(h, log, len, u, t, i);
    ChosenNotBlocked(c, h, t, i);
    var q :| ChosenBy(h, t, i, q);
    assert TermLog(h.tlog[t], t);
    if t < t' {
      assert LeaderSafe(c, h, t, t', i);
    }
  }

  lemma SameIsPrefix(a: seq<LogEntry>, b: seq<LogEntry>, n: nat)
    requires Same(a, b, n)
    ensures a[..n] <= b
  {
  }

  /** A leader of the run, its invariant, and the growth of the history from there to moment m. */
  lemma LeaderSeenFrom(n: nat, states: seq<Cluster>, events: seq<Event>, j: nat, b: nat, m: nat)
    requires TimelyRun(n, states, events) && j <= m < |states| && b < |states[j].servers|
    ensures LeaderInv(states[j].servers[b], HistoryAt(n, states, events, j))
    ensures TlogGrows(HistoryAt(n, states, events, j), HistoryAt(n, states, events, m))
  {
    InvHolds(n, states, events, j);
    HistoryGrows(n, states, events, j, m);
    assert ServerInv(states[j].servers[b], HistoryAt(n, states, events, j));
  }

  /**
   * Leader Completeness: what any server knows to be committed is a prefix of the log of every leader of a
   * later term, whenever in the run that leader is looked at.
   */
  lemma LeaderCompleteness(n: nat, states: seq<Cluster>, events: seq<Event>, i: nat, a: nat, j: nat, b: nat)
    requires OrderedRun(n, states, events) && i < |states| && j < |states|
    requires a < |states[i].servers| && b < |states[j].servers| && states[j].servers[b].state == Leader
    requires states[i].servers[a].currentTerm < states[j].servers[b].currentTerm
    ensures var sv := states[i].servers[a];
            sv.commitIndex < |sv.logs| && sv.logs[..sv.commitIndex + 1] <= states[j].servers[b].logs
  {
    var m := if i <= j then j else i;
    var sv, leader := states[i].servers[a], states[j].servers[b];
    var hj, hm := HistoryAt(n, states, events, j), HistoryAt(n, states, events, m);
    CommittedSeenFrom(n, states, events, i, a, m);
    SafetyHolds(n, states, events, m);
    LeaderSeenFrom(n, states, events, j, b, m);
    LeaderHoldsCommitted(states[m], hm, sv.logs, sv.commitIndex + 1, sv.currentTerm, hj, leader);
    SameIsPrefix(sv.logs, leader.logs, sv.commitIndex + 1);
  }

  lemma LeaderHoldsCommitted(c: Cluster, h: Hist, log: seq<LogEntry>, len: nat, u: nat, h0: Hist, leader: Server)
    requires Inv(c, h) && SafetyInv(c, h) && Committed(h, log, len, u) && u < leader.currentTerm
    requires LeaderInv(leader, h0) && leader.state == Leader && TlogGrows(h0, h)
    ensures Same(log, leader.logs, len)
  {
    var t := leader.currentTerm;
    CommittedInLeaderLog(c, h, log, len, u, t);
    var k := |leader.logs|;
    assert k < len ==> log[k].term < t;
    assert k < |h.tlog[t]| ==> h.tlog[t][k].term == t;
  }

  /* ---------- State Machine Safety ---------- */

  lemma CommittedAgree(c: Cluster, h: Hist, a: seq<LogEntry>, la: nat, ua: nat, b: seq<LogEntry>, lb: nat, ub: nat, k: nat)
    requires Inv(c, h) && SafetyInv(c, h)
    requires Committed(h, a, la, ua) && Committed(h, b, lb, ub) && k < la && k < lb
    ensures k < |a| && k < |b| && a[k] == b[k]
  {
    var t: nat, i: nat :| CommittedBy(h, a, la, ua, t, i);
    var t': nat, i': nat :| CommittedBy(h, b, lb, ub, t', i');
    assert CommittedBy(h, a, la, t, t, i) && CommittedBy(h, b, lb, t', t', i');
    if t <= t' {
      CommittedInLeaderLog(c, h, a, la, t, t');
    } else {
      CommittedInLeaderLog(c, h, b, lb, t', t);
    }
  }

  /** Each incarnation applies the entries 1, 2, 3, ... of its log, all of them committed, without gap or repeat. */
  lemma AppliesInOrder(n: nat, states: seq<Cluster>, events: seq<Event>, i: nat, a: nat)
    requires OrderedRun(n, states, events) && i < |states| && a < |states[i].servers|
    ensures var sv := states[i].servers[a];
            && |sv.chanApply| == sv.lastApplied <= sv.commitIndex < |sv.logs|
            && forall k :: 0 <= k < |sv.chanApply| ==> sv.chanApply[k] == ApplyMsg(k + 1, sv.logs[k + 1].command)
  {
    SafetyHolds(n, states, events, i);
    assert ServerInv2(states[i].servers[a], HistoryAt(n, states, events, i));
  }

  /** What a server has applied at moment i is part of what is committed, seen from the later moment j. */
  lemma AppliedSeenFrom(n: nat, states: seq<Cluster>, events: seq<Event>, i: nat, a: nat, j: nat, k: nat)
    requires OrderedRun(n, states, events) && i <= j < |states| && a < |states[i].servers|
    requires k < |states[i].servers[a].chanApply|
    ensures var sv := states[i].servers[a];
            && k < sv.commitIndex < |sv.logs| && sv.chanApply[k] == ApplyMsg(k + 1, sv.logs[k + 1].command)
            && Committed(HistoryAt(n, states, events, j), sv.logs, sv.commitIndex + 1, sv.currentTerm)
  {
    AppliesInOrder(n, states, events, i, a);
    CommittedSeenFrom(n, states, events, i, a, j);
  }

  /**
   * State Machine Safety: no two servers, at any two moments of a run and across crashes, hand their service
   * different commands for the same position.
   */
  lemma StateMachineSafety(n: nat, states: seq<Cluster>, events: seq<Event>, i: nat, a: nat, j: nat, b: nat, k: nat)
    requires OrderedRun(n, states, events) && i < |states| && j < |states|
    requires a < |states[i].servers| && b < |states[j].servers|
    requires k < |states[i].servers[a].chanApply| && k < |states[j].servers[b].chanApply|
    ensures states[i].servers[a].chanApply[k] == states[j].servers[b].chanApply[k]
  {
    var m := if i <= j then j else i;
    var sa, sb := states[i].servers[a], states[j].servers[b];
    AppliedSeenFrom(n, states, events, i, a, m, k);
    AppliedSeenFrom(n, states, events, j, b, m, k);
    SafetyHolds(n, states, events, m);
    CommittedAgree(states[m], HistoryAt(n, states, events, m), sa.logs, sa.commitIndex + 1, sa.currentTerm,
                   sb.logs, sb.commitIndex + 1, sb.currentTerm, k + 1);
  }

  /* ---------- commitIndex and lastApplied ---------- */

  ghost predicate Raised(sv: Server, sv': Server) {
    sv.commitIndex <= sv'.commitIndex && sv.lastApplied <= sv'.lastApplied
  }

  /** A request that carries what its leader had committed never lowers commitIndex, although it may cut the log. */
  lemma RequestRaises(sv: Server, args: AppendEntriesArgs)
    requires |sv.logs| > 0 && args.leaderCommit < CarriedLength(args)
    ensures Raised(sv, AppendEntries(sv, args).0)
  {
  }

  lemma OthersRaise(c: Cluster, e: Event)
    requires Shape(c) && Enabled(c, e) && !Faults(c, e) && !e.DeliverAppend? && !e.Restart?
    requires Actor(c, e) < |c.servers| == |Next(c, e).servers|
    ensures Raised(c.servers[Actor(c, e)], Next(c, e).servers[Actor(c, e)])
  {
  }

  lemma StepRaises(c: Cluster, e: Event, h: Hist, s: nat)
    requires Inv2(c, h) && Enabled(c, e) && !Faults(c, e) && s < |c.servers| && e != Restart(s)
    ensures s < |Next(c, e).servers| && Raised(c.servers[s], Next(c, e).servers[s])
  {
    ShapeKept(c, e);
    if s == Actor(c, e) {
      if e.DeliverAppend? {
        assert AppendInv(c, h, c.appends[e.k]) && RequestInv(h, c.appends[e.k]);
        RequestRaises(c.servers[s], c.appends[e.k].args);
      } else {
        OthersRaise(c, e);
      }
    }
  }

  /** Between restarts a server's commitIndex and lastApplied never fall. */
  lemma {:induction false} CommitIndexRises(n: nat, states: seq<Cluster>, events: seq<Event>, i: nat, j: nat, s: nat)
    requires OrderedRun(n, states, events) && i <= j < |states| && s < |states[i].servers|
    requires forall m :: i <= m < j ==> events[m] != Restart(s)
    ensures s < |states[j].servers| && Raised(states[i].servers[s], states[j].servers[s])
    decreases j - i
  {
    if i < j {
      SafetyHolds(n, states, events, i);
      OrderedStep(n, states, events, i);
      StepRaises(states[i], events[i], HistoryAt(n, states, events, i), s);
      CommitIndexRises(n, states, events, i + 1, j, s);
    }
  }

  /* ---------- matchIndex ---------- */

  /** A follower still in the leader's term agrees with the leader's log through matchIndex. */
  lemma MatchIndexSound(n: nat, states: seq<Cluster>, events: seq<Event>, i: nat, s: nat, id: nat)
    requires OrderedRun(n, states, events) && i < |states| && s < |states[i].servers| && id < |states[i].servers| && id != s
    requires states[i].servers[s].state == Leader
    requires states[i].servers[id].currentTerm == states[i].servers[s].currentTerm
    ensures var leader, follower := states[i].servers[s], states[i].servers[id];
            && id < |leader.matchIndex| && leader.matchIndex[id] < |leader.logs| && leader.matchIndex[id] < |follower.logs|
            && leader.logs[..leader.matchIndex[id] + 1] == follower.logs[..leader.matchIndex[id] + 1]
  {
    SafetyHolds(n, states, events, i);
    MatchSound(states[i], HistoryAt(n, states, events, i), s, id);
  }

  /** A follower in the leader's term that acknowledged entry i agrees with the leader's log up to there. */
  lemma AckedAgrees(c: Cluster, h: Hist, s: nat, id: nat, i: nat)
    requires Inv2(c, h) && s < |c.servers| && id < |c.servers| && c.servers[s].state == Leader
    requires c.servers[id].currentTerm == c.servers[s].currentTerm && Acked(h, id, c.servers[s].currentTerm, i)
    ensures Same(c.servers[s].logs, c.servers[id].logs, i + 1)
  {
    assert ServerInv(c.servers[s], h) && ServerInv2(c.servers[id], h);
  }

  lemma SentinelsAgree(c: Cluster, h: Hist, s: nat, id: nat)
    requires Inv(c, h) && s < |c.servers| && id < |c.servers|
    ensures Same(c.servers[s].logs, c.servers[id].logs, 1)
  {
    assert ServerInv(c.servers[s], h) && ServerInv(c.servers[id], h);
    RootedIsTermLog(h, c.servers[s].logs);
    RootedIsTermLog(h, c.servers[id].logs);
  }

  lemma MatchSound(c: Cluster, h: Hist, s: nat, id: nat)
    requires Inv2(c, h) && s < |c.servers| && id < |c.servers| && id != s
    requires c.servers[s].state == Leader && c.servers[id].currentTerm == c.servers[s].currentTerm
    ensures id < |c.servers[s].matchIndex|
    ensures Same(c.servers[s].logs, c.servers[id].logs, c.servers[s].matchIndex[id] + 1)
  {
    assert ServerInv2(c.servers[s], h);
    if c.servers[s].matchIndex[id] == 0 {
      SentinelsAgree(c, h, s, id);
    } else {
      AckedAgrees(c, h, s, id, c.servers[s].matchIndex[id]);
    }
  }

  /* ---------- No index out of range ---------- */

  lemma BroadcastFits(c: Cluster, h: Hist, s: nat)
    requires Inv2(c, h) && s < |c.servers| && c.servers[s].state == Leader
    ensures CanBroadcast(c.servers[s])
  {
    assert ServerInv(c.servers[s], h) && ServerInv2(c.servers[s], h);
  }

  lemma ReplyFits(c: Cluster, h: Hist, k: nat)
    requires Inv2(c, h) && Enabled(c, TakeAppendReply(k))
    ensures CanTakeAppendReply(c.servers[c.appends[k].from], c.appends[k])
  {
    var m := c.appends[k];
    assert AppendInv(c, h, m);
    if m.args.term == c.servers[m.from].currentTerm {
      BroadcastFits(c, h, m.from);
    }
  }

  lemma EventFits(c: Cluster, h: Hist, e: Event)
    requires Inv2(c, h) && Enabled(c, e) && BroadcastsAsLeader(c, e)
    ensures !Faults(c, e)
  {
    match e
    case Broadcast(s) => BroadcastFits(c, h, s);
    case TakeAppendReply(k) => ReplyFits(c, h, k);
    case ApplyAll(s) => assert ServerInv2(c.servers[s], h);
    case _ =>
  }

  /** In an ordered run no timely event faults. */
  lemma NothingFaults(n: nat, states: seq<Cluster>, events: seq<Event>, i: nat, e: Event)
    requires OrderedRun(n, states, events) && i < |states|
    requires Shape(states[i]) && Enabled(states[i], e) && Timely(states[i], e) && BroadcastsAsLeader(states[i], e)
    ensures !Faults(states[i], e)
  {
    SafetyHolds(n, states, events, i);
    EventFits(states[i], HistoryAt(n, states, events, i), e);
  }
}
