/** Mutual exclusion: how runs end. */
module MutexTermination {
  // Without new requests a run ends, and it ends only when every request has been served; so every run begins a fair
  // behaviour. A process that is alone is never served.

  import opened Options
  import opened MutexTimestamp
  import opened MutexProcess
  import opened MutexSystem
  import opened MutexInvariant
  import opened MutexSteps
  import opened MutexEvents
  import opened MutexTheorems
  import opened MutexFairness

  /* ---------- A measure that every step but a request lowers ---------- */

  /** The processes with a request that is not yet released. */
  ghost function Outstanding(s: System): set<nat> {
    set q: nat | q < |s.procs| && s.procs[q].requestTimestamp.Some?
  }

  /** The acknowledgments still to be sent: by whom, and for which message of the stream. */
  ghost function Unanswered(s: System): set<(nat, nat)> {
    set q: nat, i: nat | q < |s.procs| && i < |s.log| && i >= Acked(s.procs[q]) && s.log[i].from != q
                      && s.log[i].msgType == RequestResource :: (q, i)
  }

  /** The messages still to be read: by whom, and at which position. */
  ghost function Unread(s: System): set<(nat, nat)> {
    set q: nat, i: nat | q < |s.procs| && i < |s.log| && i >= s.procs[q].cursor :: (q, i)
  }

  /** The steps a process has to take before it reads on, and its step to end the wait for a finished request. */
  function StepsLeft(pr: Proc): nat {
    Weight(pr.stage) + if pr.waiting && pr.requestTimestamp.None? then 1 else 0
  }

  ghost function Chores(s: System): set<(nat, nat)> {
    set q: nat, w: nat | q < |s.procs| && w < StepsLeft(s.procs[q]) :: (q, w)
  }

  /** The lexicographic order of the four, each compared by inclusion. */
  ghost predicate Lower(s': System, s: System) {
    || Outstanding(s') < Outstanding(s)
    || (Outstanding(s') == Outstanding(s) && Unanswered(s') < Unanswered(s))
    || (Outstanding(s') == Outstanding(s) && Unanswered(s') == Unanswered(s) && Unread(s') < Unread(s))
    || (Outstanding(s') == Outstanding(s) && Unanswered(s') == Unanswered(s) && Unread(s') == Unread(s)
        && Chores(s') < Chores(s))
  }

  lemma SameOutstanding(s: System, s': System)
    requires |s'.procs| == |s.procs|
    requires forall q :: 0 <= q < |s.procs| ==> s'.procs[q].requestTimestamp == s.procs[q].requestTimestamp
    ensures Outstanding(s') == Outstanding(s)
  {
  }

  /** There is no request of somebody else from position lo on and before hi. */
  ghost predicate NothingToAnswer(log: seq<Message>, lo: int, hi: int, p: nat) {
    forall i :: lo <= i < hi && 0 <= i < |log| ==> log[i].from == p || log[i].msgType != RequestResource
  }

  /** A step that does not move past a request of somebody else and sends nothing answers nothing. */
  lemma SameUnanswered(s: System, s': System, p: nat)
    requires Inv(s) && p < |s.procs| && s'.log == s.log && |s'.procs| == |s.procs|
    requires forall q :: 0 <= q < |s.procs| && q != p ==> s'.procs[q] == s.procs[q]
    requires NothingToAnswer(s.log, Acked(s.procs[p]), Acked(s'.procs[p]), p)
    requires Acked(s.procs[p]) <= Acked(s'.procs[p])
    ensures Unanswered(s') == Unanswered(s)
  {
    forall q: nat, i: nat
      ensures (q, i) in Unanswered(s') <==> (q, i) in Unanswered(s)
    {
    }
  }

  lemma TakeLowers(s: System, p: nat)
    requires Inv(s) && Enabled(s, TakeMessage(p))
    ensures Lower(Next(s, TakeMessage(p)), s)
  {
    var s', pr := Next(s, TakeMessage(p)), s.procs[p];
    assert MsgOk(s.log[pr.cursor], |s.procs|);
    SameOutstanding(s, s');
    SameUnanswered(s, s', p);
    assert (p, pr.cursor) in Unread(s) && (p, pr.cursor) !in Unread(s');
    assert Unread(s') <= Unread(s);
  }

  /** Steps inside the treatment of one message, and the end of a wait. */
  lemma ChoreLowers(s: System, s': System, p: nat)
    requires Inv(s) && p < |s.procs| && s'.log == s.log && |s'.procs| == |s.procs|
    requires forall q :: 0 <= q < |s.procs| && q != p ==> s'.procs[q] == s.procs[q]
    requires s'.procs[p].requestTimestamp == s.procs[p].requestTimestamp && s'.procs[p].cursor == s.procs[p].cursor
    requires Acked(s.procs[p]) <= Acked(s'.procs[p])
    requires NothingToAnswer(s.log, Acked(s.procs[p]), Acked(s'.procs[p]), p)
    requires StepsLeft(s'.procs[p]) < StepsLeft(s.procs[p])
    ensures Lower(s', s)
  {
    SameOutstanding(s, s');
    SameUnanswered(s, s', p);
    assert Unread(s') == Unread(s);
    var w := StepsLeft(s'.procs[p]);
    assert (p, w) in Chores(s) && (p, w) !in Chores(s');
    assert Chores(s') <= Chores(s);
  }

  lemma AckLowers(s: System, p: nat)
    requires Inv(s) && Enabled(s, SendAck(p))
    ensures Lower(Next(s, SendAck(p)), s)
  {
    var s', pr := Next(s, SendAck(p)), s.procs[p];
    assert ProcInv(pr, p, s.log, |s.procs|);
    SameOutstanding(s, s');
    var k: nat := pr.cursor - 1;
    assert (p, k) in Unanswered(s) && (p, k) !in Unanswered(s');
    assert Unanswered(s') <= Unanswered(s);
  }

  lemma ReleaseLowers(s: System, p: nat)
    requires Inv(s) && Enabled(s, Event.ReleaseResource(p))
    ensures Lower(Next(s, Event.ReleaseResource(p)), s)
  {
    HolderReleases(s, p);
    var s' := Next(s, Event.ReleaseResource(p));
    assert p in Outstanding(s) && p !in Outstanding(s');
    assert Outstanding(s') <= Outstanding(s);
  }

  lemma RecordLowers(s: System, p: nat)
    requires Inv(s) && Enabled(s, RecordTime(p))
    ensures Lower(Next(s, RecordTime(p)), s)
  {
    assert ProcInv(s.procs[p], p, s.log, |s.procs|);
    ChoreLowers(s, Next(s, RecordTime(p)), p);
  }

  lemma DropLowers(s: System, p: nat)
    requires Inv(s) && Enabled(s, DropRequest(p))
    ensures Lower(Next(s, DropRequest(p)), s)
  {
    assert ProcInv(s.procs[p], p, s.log, |s.procs|);
    ReleasedIsQueued(s.procs[p], p, s.log, |s.procs|);
    ChoreLowers(s, Next(s, DropRequest(p)), p);
  }

  lemma CheckLowers(s: System, p: nat)
    requires Inv(s) && Enabled(s, CheckRule5(p))
    ensures Lower(Next(s, CheckRule5(p)), s)
  {
    if Rule5(s.procs[p], p) {
      Rule5FindsResourceFree(s, p);
    }
    ChoreLowers(s, Next(s, CheckRule5(p)), p);
  }

  /** Every step except a new request lowers the measure. */
  lemma StepLowers(s: System, event: Event)
    requires Inv(s) && Enabled(s, event) && !event.MakeRequest?
    ensures Lower(Next(s, event), s)
  {
    match event
    case TakeMessage(p) => TakeLowers(s, p);
    case RecordTime(p) => RecordLowers(s, p);
    case DropRequest(p) => DropLowers(s, p);
    case CheckRule5(p) => CheckLowers(s, p);
    case SendAck(p) => AckLowers(s, p);
    case ReleaseResource(p) => ReleaseLowers(s, p);
    case QueueRequest(p) => ChoreLowers(s, Next(s, event), p);
    case FinishRelease(p) => ChoreLowers(s, Next(s, event), p);
  }

  /** Moment k has a step, and it is not a new request. */
  ghost predicate WorksOn(f: nat -> System, e: nat -> Option<Event>, k: nat) {
    e(k).Some? && !e(k).value.MakeRequest?
  }

  lemma {:induction false} WorkEnds(n: nat, f: nat -> System, e: nat -> Option<Event>, k: nat) returns (k': nat)
    requires Behaviour(n, f, e)
    ensures k <= k' && !WorksOn(f, e, k')
    decreases Outstanding(f(k)), Unanswered(f(k)), Unread(f(k)), Chores(f(k))
  {
    if WorksOn(f, e, k) {
      InvAlways(n, f, e, k);
      assert StepOf(f, e, k);
      StepLowers(f(k), e(k).value);
      k' := WorkEnds(n, f, e, k + 1);
    } else {
      k' := k;
    }
  }

  /** A behaviour cannot go on for ever from any moment without a new request or a pause. */
  lemma WithoutRequestsItEnds(n: nat, f: nat -> System, e: nat -> Option<Event>, k: nat)
    requires Behaviour(n, f, e)
    ensures exists k': nat :: k <= k' && !WorksOn(f, e, k')
  {
    var k' := WorkEnds(n, f, e, k);
  }

  /* ---------- Where it ends ---------- */

  /** No event is possible but a new request. */
  ghost predicate Quiet(s: System) {
    forall event: Event :: Enabled(s, event) ==> event.MakeRequest?
  }

  /** What a process can do next. */
  lemma WhatIsNext(s: System, q: nat)
    requires Inv(s) && q < |s.procs|
    ensures var pr := s.procs[q];
            && (pr.stage.Idle? && pr.cursor < |s.log| ==> Enabled(s, TakeMessage(q)))
            && (pr.stage.Received? ==> Enabled(s, RecordTime(q)))
            && (pr.stage.Queueing? ==> Enabled(s, QueueRequest(q)))
            && (pr.stage.Acking? ==> Enabled(s, SendAck(q)))
            && (pr.stage.Dequeueing? ==> Enabled(s, DropRequest(q)))
            && (pr.stage.Checking? ==> Enabled(s, CheckRule5(q)))
            && (pr.isOccupying ==> Enabled(s, Event.ReleaseResource(q)))
            && (pr.waiting && pr.requestTimestamp.None? ==> Enabled(s, FinishRelease(q)))
            && pr.cursor <= |s.log|
  {
    assert ProcInv(s.procs[q], q, s.log, |s.procs|);
    assert s.procs[q].stage.Received? ==> MsgOk(s.procs[q].stage.msg, |s.procs|);
  }

  lemma QuietStages(s: System, q: nat)
    requires Inv(s) && Quiet(s) && q < |s.procs|
    ensures s.procs[q].stage.Idle? && s.procs[q].cursor == |s.log| && !s.procs[q].isOccupying
    ensures s.procs[q].waiting ==> s.procs[q].requestTimestamp.Some?
  {
    WhatIsNext(s, q);
  }

  /** A state of two or more processes in which only new requests are possible has served every request. */
  lemma QuietIsServed(n: nat, states: seq<System>, events: seq<Event>, i: nat, ts: Timestamp)
    requires Run(n, states, events) && i < |states| && n >= 2 && Quiet(states[i])
    ensures Asked(states[i].log, |states[i].log|, ts) ==>
      ts in states[i].resource.timestamps && LetGo(states[i].log, |states[i].log|, ts)
    ensures forall q :: 0 <= q < |states[i].procs| ==> !states[i].procs[q].waiting
  {
    var s := states[i];
    InvHolds(n, states, events, i);
    forall t | Asked(s.log, |s.log|, t)
      ensures LetGo(s.log, |s.log|, t)
    {
      if Live(s, t) {
        var t0 := OneIsFirst(s, t);
        QuietStages(s, t0.process);
        var x :| x < |s.log| && AskAt(s.log, x, t0);
        forall q | 0 <= q < n
          ensures Acked(s.procs[q]) > x
        {
          QuietStages(s, q);
        }
        FirstIsGranted(s, t0, x, s, s);
        assert false;
      }
    }
    forall q | 0 <= q < n
      ensures !s.procs[q].waiting
    {
      QuietStages(s, q);
      assert ProcInv(s.procs[q], q, s.log, n);
      if s.procs[q].requestTimestamp.Some? {
        assert Owns(s.procs, s.procs[q].requestTimestamp.value);
      }
    }
  }

  /* ---------- Fair behaviours exist ---------- */

  lemma OneMore(n: nat, states: seq<System>, events: seq<Event>, event: Event)
    requires Run(n, states, events) && Enabled(states[|events|], event)
    ensures Run(n, states + [Next(states[|events|], event)], events + [event])
  {
    var states', events' := states + [Next(states[|events|], event)], events + [event];
    forall i | 0 <= i < |events'|
      ensures StepAt(states', events', i)
    {
      assert i < |events| ==> StepAt(states, events, i);
    }
  }

  /** Every run can be continued, without new requests, to a quiet state. */
  lemma {:induction false} RunToQuiet(n: nat, states: seq<System>, events: seq<Event>)
    returns (states': seq<System>, events': seq<Event>)
    requires Run(n, states, events)
    ensures Run(n, states', events') && states <= states' && Quiet(states'[|events'|])
    decreases Outstanding(states[|events|]), Unanswered(states[|events|]), Unread(states[|events|]), Chores(states[|events|])
  {
    var s := states[|events|];
    if Quiet(s) {
      states', events' := states, events;
    } else {
      var event :| Enabled(s, event) && !event.MakeRequest?;
      InvHolds(n, states, events, |events|);
      StepLowers(s, event);
      OneMore(n, states, events, event);
      states', events' := RunToQuiet(n, states + [Next(s, event)], events + [event]);
    }
  }

  /** The run, and then nothing more. */
  function ThenRest(states: seq<System>): nat -> System
    requires |states| > 0
  {
    (k: nat) => if k < |states| then states[k] else states[|states| - 1]
  }

  function ThenNone(events: seq<Event>): nat -> Option<Event> {
    (k: nat) => if k < |events| then Some(events[k]) else None
  }

  lemma RunIsBehaviour(n: nat, states: seq<System>, events: seq<Event>)
    requires Run(n, states, events)
    ensures Behaviour(n, ThenRest(states), ThenNone(events))
  {
    forall k: nat
      ensures StepOf(ThenRest(states), ThenNone(events), k)
    {
      assert k < |events| ==> StepAt(states, events, k);
    }
  }

  /** Before the run rests, a listener that can step does. */
  lemma {:induction false} ListenerGetsTurn(n: nat, states: seq<System>, events: seq<Event>, q: nat, k: nat) returns (k': nat)
    requires Run(n, states, events) && Quiet(states[|events|]) && k <= |events| && ListenerCanStep(states[k], q)
    ensures k <= k' && ListenerSteps(ThenNone(events), q, k')
    decreases |events| - k
  {
    InvHolds(n, states, events, k);
    if k == |events| {
      QuietStages(states[k], q);
      assert false;
    } else if OfListener(events[k], q) {
      k' := k;
    } else {
      assert StepAt(states, events, k);
      OthersWait(states[k], events[k], q);
      StepGrows(states[k], events[k], q);
      k' := ListenerGetsTurn(n, states, events, q, k + 1);
    }
  }

  /** Before the run rests, a process that occupies releases. */
  lemma {:induction false} HolderGetsTurn(n: nat, states: seq<System>, events: seq<Event>, q: nat, k: nat) returns (k': nat)
    requires Run(n, states, events) && Quiet(states[|events|]) && k <= |events| && Occupies(states[k], q)
    ensures k <= k' && Releases(ThenNone(events), q, k')
    decreases |events| - k
  {
    InvHolds(n, states, events, k);
    if k == |events| {
      QuietStages(states[k], q);
      assert false;
    } else if events[k] == Event.ReleaseResource(q) {
      k' := k;
    } else {
      assert StepAt(states, events, k);
      assert ProcInv(states[k].procs[q], q, states[k].log, n);
      HolderWaits(states[k], events[k], q, states[k].procs[q].requestTimestamp.value);
      k' := HolderGetsTurn(n, states, events, q, k + 1);
    }
  }

  lemma RestIsFair(n: nat, states: seq<System>, events: seq<Event>)
    requires Run(n, states, events) && Quiet(states[|events|])
    ensures Fair(ThenRest(states), ThenNone(events))
  {
    var f, e := ThenRest(states), ThenNone(events);
    InvHolds(n, states, events, |events|);
    forall q: nat, k: nat | ListenerCanStep(f(k), q)
      ensures exists k': nat :: k <= k' && ListenerSteps(e, q, k')
    {
      if k > |events| {
        QuietStages(states[|events|], q);
        assert false;
      }
      var k' := ListenerGetsTurn(n, states, events, q, k);
    }
    forall q: nat, k: nat | Occupies(f(k), q)
      ensures exists k': nat :: k <= k' && Releases(e, q, k')
    {
      if k > |events| {
        QuietStages(states[|events|], q);
        assert false;
      }
      var k' := HolderGetsTurn(n, states, events, q, k);
    }
  }

  /** Fairness can always still be met: every run is the beginning of a fair behaviour. */
  lemma EveryRunExtends(n: nat, states: seq<System>, events: seq<Event>) returns (f: nat -> System, e: nat -> Option<Event>)
    requires Run(n, states, events)
    ensures Behaviour(n, f, e) && Fair(f, e) && forall i :: 0 <= i < |states| ==> f(i) == states[i]
  {
    var states', events' := RunToQuiet(n, states, events);
    f, e := ThenRest(states'), ThenNone(events');
    RunIsBehaviour(n, states', events');
    RestIsFair(n, states', events');
  }

  /* ---------- The order of asking ---------- */

  /** Two processes whose clocks start at 10 and 1 ask in this order, before either reads anything. */
  lemma AskBoth() returns (states: seq<System>, events: seq<Event>)
    ensures Run(2, states, events)
    ensures states[|events|].log == [
      Message(RequestResource, 11, 0, OTHERS, Timestamp(11, 0)), Message(RequestResource, 2, 1, OTHERS, Timestamp(2, 1))]
  {
    var s := System([Make(2, 10), Make(2, 1)], [], [], Resource(Timestamp(-1, -1), None, []), None);
    assert Init(2, s);
    OneMore(2, [s], [], MakeRequest(0));
    var s1 := Next(s, MakeRequest(0));
    OneMore(2, [s] + [s1], [] + [MakeRequest(0)], MakeRequest(1));
    states := [s] + [s1] + [Next(s1, MakeRequest(1))];
    events := [] + [MakeRequest(0)] + [MakeRequest(1)];
  }

  ghost predicate GrantedBefore(s: System, a: Timestamp, b: Timestamp) {
    exists k, l :: 0 <= k < l < |s.resource.timestamps| && s.resource.timestamps[k] == a && s.resource.timestamps[l] == b
  }

  /** A request that stands later in the stream can be granted first: its process's clock was behind. */
  lemma AskedFirstServedSecond()
    ensures exists states: seq<System>, events: seq<Event> ::
      && Run(2, states, events)
      && AskAt(states[|events|].log, 0, Timestamp(11, 0)) && AskAt(states[|events|].log, 1, Timestamp(2, 1))
      && GrantedBefore(states[|events|], Timestamp(2, 1), Timestamp(11, 0))
  {
    var a, b := Timestamp(11, 0), Timestamp(2, 1);
    var states0, events0 := AskBoth();
    var states, events := RunToQuiet(2, states0, events0);
    var i := |events0|;
    var s := states[|events|];
    assert states[i] == states0[i];
    LogGrows(2, states, events, i, |events|);
    assert AskAt(s.log, 0, a) && AskAt(s.log, 1, b);
    assert Asked(s.log, |s.log|, a) && Asked(s.log, |s.log|, b);
    QuietIsServed(2, states, events, |events|, a);
    var l :| 0 <= l < |s.resource.timestamps| && s.resource.timestamps[l] == a;
    FirstComeFirstServed(2, states, events, |events|, |events|, l, b);
    var k :| 0 <= k < l && s.resource.timestamps[k] == b;
    assert GrantedBefore(s, b, a);
  }

  /* ---------- One process alone ---------- */

  /** Rule 5 is checked only after a message from another process, so a process alone never gets the resource. */
  lemma {:induction false} AloneIsNeverServed(states: seq<System>, events: seq<Event>, i: nat)
    requires Run(1, states, events) && i < |states|
    ensures |states[i].procs| == 1 && states[i].procs[0].stage.Idle? && states[i].resource.timestamps == []
  {
    if i > 0 {
      AloneIsNeverServed(states, events, i - 1);
      InvHolds(1, states, events, i - 1);
      assert StepAt(states, events, i - 1);
      var s := states[i - 1];
      assert ProcInv(s.procs[0], 0, s.log, 1);
      assert s.procs[0].cursor < |s.log| ==> MsgOk(s.log[s.procs[0].cursor], 1);
    }
  }
}
