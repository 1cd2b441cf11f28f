/** Mutual exclusion: no starvation. */
module MutexFairness {
  // A behaviour is an infinite run in which any process may request again and again; it is fair if a listener that
  // can step steps eventually, and a process that occupies releases eventually.

  import opened Options
  import opened Quorum
  import opened MutexTimestamp
  import opened MutexProcess
  import opened MutexSystem
  import opened MutexInvariant
  import opened MutexSteps
  import opened MutexEvents
  import opened MutexTheorems

  /** The event at each moment; None is a moment at which nothing happens. */
  ghost predicate StepOf(f: nat -> System, e: nat -> Option<Event>, k: nat) {
    match e(k)
    case None => f(k + 1) == f(k)
    case Some(event) => Enabled(f(k), event) && f(k + 1) == Next(f(k), event)
  }

  ghost predicate Behaviour(n: nat, f: nat -> System, e: nat -> Option<Event>) {
    Init(n, f(0)) && forall k: nat {:trigger StepOf(f, e, k)} :: StepOf(f, e, k)
  }

  /** An event of the listener goroutine of process q. */
  predicate OfListener(event: Event, q: nat) {
    event.p == q && !event.ReleaseResource? && !event.FinishRelease? && !event.MakeRequest?
  }

  /** The listener of q holds a message or has one to read. */
  ghost predicate ListenerCanStep(s: System, q: nat) {
    q < |s.procs| && (!s.procs[q].stage.Idle? || s.procs[q].cursor < |s.log|)
  }

  ghost predicate Occupies(s: System, q: nat) {
    q < |s.procs| && s.procs[q].isOccupying
  }

  ghost predicate ListenerSteps(e: nat -> Option<Event>, q: nat, k: nat) {
    e(k).Some? && OfListener(e(k).value, q)
  }

  ghost predicate Releases(e: nat -> Option<Event>, q: nat, k: nat) {
    e(k) == Some(Event.ReleaseResource(q))
  }

  ghost predicate Fair(f: nat -> System, e: nat -> Option<Event>) {
    && (forall q: nat, k: nat {:trigger ListenerCanStep(f(k), q)} ::
      ListenerCanStep(f(k), q) ==> exists k': nat :: k <= k' && ListenerSteps(e, q, k'))
    && (forall q: nat, k: nat {:trigger Occupies(f(k), q)} ::
      Occupies(f(k), q) ==> exists k': nat :: k <= k' && Releases(e, q, k'))
  }

  lemma {:induction false} InvAlways(n: nat, f: nat -> System, e: nat -> Option<Event>, k: nat)
    requires Behaviour(n, f, e)
    ensures Inv(f(k)) && |f(k).procs| == n
  {
    if k == 0 {
      InitInv(n, f(0));
    } else {
      InvAlways(n, f, e, k - 1);
      assert StepOf(f, e, k - 1);
      if e(k - 1).Some? {
        StepKeeps(f(k - 1), e(k - 1).value);
      }
    }
  }

  /** What one step does to process q: the stream grows, what q has dealt with grows, its clock does not fall. */
  ghost predicate Grown(s: System, s': System, q: nat)
    requires q < |s.procs| && q < |s'.procs|
  {
    && s.log <= s'.log
    && Acked(s.procs[q]) <= Acked(s'.procs[q]) && Queued(s.procs[q]) <= Queued(s'.procs[q])
    && s.procs[q].clock <= s'.procs[q].clock
  }

  lemma StreamGrows(s: System, event: Event)
    requires Enabled(s, event)
    ensures |Next(s, event).procs| == |s.procs| && s.log <= Next(s, event).log
    ensures forall q :: 0 <= q < |s.procs| && q != event.p ==> Next(s, event).procs[q] == s.procs[q]
  {
  }

  lemma ListenerGrows(s: System, event: Event)
    requires Inv(s) && Enabled(s, event) && OfListener(event, event.p) && |Next(s, event).procs| == |s.procs|
    ensures var pr, pr' := s.procs[event.p], Next(s, event).procs[event.p];
            Acked(pr) <= Acked(pr') && Queued(pr) <= Queued(pr') && pr.clock <= pr'.clock
  {
    assert ProcInv(s.procs[event.p], event.p, s.log, |s.procs|);
  }

  lemma CallerGrows(s: System, event: Event)
    requires Enabled(s, event) && !OfListener(event, event.p) && |Next(s, event).procs| == |s.procs|
    ensures var pr, pr' := s.procs[event.p], Next(s, event).procs[event.p];
            Acked(pr) <= Acked(pr') && Queued(pr) <= Queued(pr') && pr.clock <= pr'.clock
  {
  }

  lemma StepGrows(s: System, event: Event, q: nat)
    requires Inv(s) && Enabled(s, event) && q < |s.procs|
    ensures |Next(s, event).procs| == |s.procs| && Grown(s, Next(s, event), q)
  {
    StreamGrows(s, event);
    if q == event.p {
      if OfListener(event, q) {
        ListenerGrows(s, event);
      } else {
        CallerGrows(s, event);
      }
    }
  }

  lemma {:induction false} GrowsAlways(n: nat, f: nat -> System, e: nat -> Option<Event>, k: nat, k': nat, q: nat)
    requires Behaviour(n, f, e) && k <= k' && q < n
    ensures |f(k).procs| == |f(k').procs| == n && Grown(f(k), f(k'), q)
    decreases k'
  {
    InvAlways(n, f, e, k);
    if k < k' {
      GrowsAlways(n, f, e, k, k' - 1, q);
      InvAlways(n, f, e, k' - 1);
      assert StepOf(f, e, k' - 1);
      if e(k' - 1).Some? {
        StepGrows(f(k' - 1), e(k' - 1).value, q);
      }
    }
  }

  /* ---------- Listeners read everything ---------- */

  function Weight(stage: Stage): nat {
    match stage
    case Idle => 0
    case Checking => 1
    case Acking(_) => 2
    case Dequeueing(_) => 2
    case Queueing(_) => 3
    case Received(_) => 4
  }

  /** What the listener has to do until it rests behind message x. */
  function ToRead(pr: Proc, x: nat): nat {
    5 * (if pr.cursor <= x then x + 1 - pr.cursor else 0) + Weight(pr.stage)
  }

  lemma ListenerWorks(s: System, event: Event, q: nat, x: nat)
    requires Inv(s) && Enabled(s, event) && q < |s.procs| && OfListener(event, q) && ToRead(s.procs[q], x) > 0
    ensures q < |Next(s, event).procs| && ToRead(Next(s, event).procs[q], x) < ToRead(s.procs[q], x)
  {
    StepKeeps(s, event);
  }

  lemma OthersWait(s: System, event: Event, q: nat)
    requires Inv(s) && Enabled(s, event) && q < |s.procs| && !OfListener(event, q)
    ensures q < |Next(s, event).procs|
    ensures Next(s, event).procs[q].stage == s.procs[q].stage && Next(s, event).procs[q].cursor == s.procs[q].cursor
  {
  }

  /** The first listener step in a stretch that has one. */
  lemma {:induction false} NextListenerStep(n: nat, f: nat -> System, e: nat -> Option<Event>, q: nat, x: nat, k: nat, k1: nat)
    returns (k': nat)
    requires Behaviour(n, f, e) && q < n && k <= k1 && ListenerSteps(e, q, k1)
    requires |f(k).procs| == n && ToRead(f(k).procs[q], x) > 0
    ensures k < k' && |f(k').procs| == n && ToRead(f(k').procs[q], x) < ToRead(f(k).procs[q], x)
    decreases k1 - k
  {
    InvAlways(n, f, e, k);
    InvAlways(n, f, e, k + 1);
    assert StepOf(f, e, k);
    if e(k).Some? && OfListener(e(k).value, q) {
      ListenerWorks(f(k), e(k).value, q, x);
      k' := k + 1;
    } else {
      if e(k).Some? {
        OthersWait(f(k), e(k).value, q);
      }
      k' := NextListenerStep(n, f, e, q, x, k + 1, k1);
    }
  }

  /** The listener of q eventually rests behind message x. */
  lemma {:induction false} ListenerReads(n: nat, f: nat -> System, e: nat -> Option<Event>, q: nat, x: nat, k: nat)
    returns (k': nat)
    requires Behaviour(n, f, e) && Fair(f, e) && q < n && |f(k).procs| == n && x < |f(k).log|
    ensures k <= k' && |f(k').procs| == n && f(k').procs[q].stage.Idle? && f(k').procs[q].cursor > x
    decreases ToRead(f(k).procs[q], x)
  {
    if ToRead(f(k).procs[q], x) == 0 {
      k' := k;
    } else {
      assert ListenerCanStep(f(k), q);
      var k1: nat :| k <= k1 && ListenerSteps(e, q, k1);
      var k2 := NextListenerStep(n, f, e, q, x, k, k1);
      GrowsAlways(n, f, e, k, k2, q);
      k' := ListenerReads(n, f, e, q, x, k2);
    }
  }

  /** The first m processes have dealt with message x. */
  ghost predicate AllRead(s: System, x: nat, m: nat) {
    m <= |s.procs| && forall q :: 0 <= q < m ==> Acked(s.procs[q]) > x
  }

  lemma {:induction false} EverybodyReads(n: nat, f: nat -> System, e: nat -> Option<Event>, x: nat, k: nat, m: nat)
    returns (k': nat)
    requires Behaviour(n, f, e) && Fair(f, e) && |f(k).procs| == n && x < |f(k).log| && m <= n
    ensures k <= k' && |f(k').procs| == n && AllRead(f(k'), x, m)
    decreases m
  {
    if m == 0 {
      k' := k;
    } else {
      var k1 := EverybodyReads(n, f, e, x, k, m - 1);
      GrowsAlways(n, f, e, k, k1, m - 1);
      k' := ListenerReads(n, f, e, m - 1, x, k1);
      forall q | 0 <= q < m
        ensures Acked(f(k').procs[q]) > x
      {
        GrowsAlways(n, f, e, k1, k', q);
      }
    }
  }

  /* ---------- Holders release ---------- */

  lemma HolderWaits(s: System, event: Event, r: nat, ts: Timestamp)
    requires Inv(s) && Enabled(s, event) && r < |s.procs| && event != Event.ReleaseResource(r)
    requires s.procs[r].isOccupying && s.procs[r].requestTimestamp == Some(ts)
    ensures r < |Next(s, event).procs|
    ensures Next(s, event).procs[r].isOccupying && Next(s, event).procs[r].requestTimestamp == Some(ts)
  {
    assert ProcInv(s.procs[r], r, s.log, |s.procs|);
  }

  lemma ReleaseLetsGo(s: System, r: nat, ts: Timestamp)
    requires Inv(s) && Enabled(s, Event.ReleaseResource(r)) && s.procs[r].requestTimestamp == Some(ts)
    ensures var log := Next(s, Event.ReleaseResource(r)).log; LetGo(log, |log|, ts)
  {
    HolderReleases(s, r);
    PendingNext(s.log, ReleaseMessage(s.procs[r], r), ts);
  }

  /** A process that occupies lets its request go. */
  lemma {:induction false} HolderLetsGo(n: nat, f: nat -> System, e: nat -> Option<Event>, r: nat, ts: Timestamp, k: nat, k1: nat)
    returns (k': nat)
    requires Behaviour(n, f, e) && r < n && k <= k1 && Releases(e, r, k1)
    requires |f(k).procs| == n && f(k).procs[r].isOccupying && f(k).procs[r].requestTimestamp == Some(ts)
    ensures k <= k' && LetGo(f(k').log, |f(k').log|, ts)
    decreases k1 - k
  {
    InvAlways(n, f, e, k);
    InvAlways(n, f, e, k + 1);
    assert StepOf(f, e, k);
    if e(k) == Some(Event.ReleaseResource(r)) {
      ReleaseLetsGo(f(k), r, ts);
      k' := k + 1;
    } else {
      if e(k).Some? {
        HolderWaits(f(k), e(k).value, r, ts);
      }
      k' := HolderLetsGo(n, f, e, r, ts, k + 1, k1);
    }
  }

  /* ---------- Nothing new comes before a request that everybody knows of ---------- */

  /** Every clock has reached the time of ts. */
  ghost predicate Known(s: System, ts: Timestamp) {
    forall q :: 0 <= q < |s.procs| ==> s.procs[q].clock >= ts.time
  }

  lemma StepMakesLater(s: System, event: Event, ts: Timestamp, t: Timestamp)
    requires Inv(s) && Enabled(s, event) && Known(s, ts) && (t == ts || t.Less(ts))
    ensures var log' := Next(s, event).log; Asked(log', |log'|, t) ==> Asked(s.log, |s.log|, t)
  {
    var p, pr := event.p, s.procs[event.p];
    match event
    case SendAck(_) => PendingNext(s.log, AckMessage(pr, p, pr.stage.msg), t);
    case MakeRequest(_) => PendingNext(s.log, RequestMessage(pr, p), t);
    case ReleaseResource(_) => PendingNext(s.log, ReleaseMessage(pr, p), t);
    case _ =>
  }

  lemma {:induction false} NoneEarlier(n: nat, f: nat -> System, e: nat -> Option<Event>, k: nat, k': nat, ts: Timestamp, t: Timestamp)
    requires Behaviour(n, f, e) && k <= k' && Known(f(k), ts) && (t == ts || t.Less(ts))
    ensures Known(f(k'), ts)
    ensures Asked(f(k').log, |f(k').log|, t) ==> Asked(f(k).log, |f(k).log|, t)
    decreases k'
  {
    InvAlways(n, f, e, k);
    InvAlways(n, f, e, k');
    forall q | 0 <= q < n
      ensures f(k').procs[q].clock >= ts.time
    {
      GrowsAlways(n, f, e, k, k', q);
    }
    if k < k' {
      NoneEarlier(n, f, e, k, k' - 1, ts, t);
      InvAlways(n, f, e, k' - 1);
      assert StepOf(f, e, k' - 1);
      if e(k' - 1).Some? {
        StepMakesLater(f(k' - 1), e(k' - 1).value, ts, t);
      }
    }
  }

  /* ---------- The first live request is served ---------- */

  ghost predicate Live(s: System, t: Timestamp) {
    Pending(s.log, |s.log|, t)
  }

  /** Request t0 is the earliest of the live ones. */
  ghost predicate FirstLive(s: System, t0: Timestamp) {
    Live(s, t0) && forall t :: Live(s, t) ==> t == t0 || t0.Less(t)
  }

  /** What is pending after k messages was asked for, and not let go in an earlier stream. */
  lemma PendingLater(log: seq<Message>, log': seq<Message>, k: int, t: Timestamp)
    requires log <= log' && |log| <= k && Pending(log', k, t)
    ensures Asked(log', |log'|, t) && !LetGo(log, |log|, t)
  {
    var i :| i < k && AskAt(log', i, t);
    assert i < |log'|;
    forall j | j < |log|
      ensures !LetGoAt(log, j, t)
    {
      assert LetGoAt(log, j, t) ==> LetGoAt(log', j, t);
    }
  }

  /** The process of t0 has dealt with every message of the earlier stream: nothing earlier is left in its queue. */
  lemma FirstInQueue(s: System, t0: Timestamp, s': System)
    requires Inv(s) && Inv(s') && FirstLive(s, t0) && s.log <= s'.log && |s'.procs| == |s.procs|
    requires forall t: Timestamp :: t.Less(t0) && Asked(s'.log, |s'.log|, t) ==> Asked(s.log, |s.log|, t)
    requires Owns(s'.procs, t0) && s'.procs[t0.process].stage.Idle? && s'.procs[t0.process].cursor >= |s.log|
    ensures IsLeast(t0, s'.procs[t0.process].queue)
  {
    var r := t0.process;
    var pr := s'.procs[r];
    assert ProcInv(pr, r, s'.log, |s'.procs|);
    assert InQueue(pr, r, s'.log, t0);
    forall t | t in pr.queue
      ensures t == t0 || t0.Less(t)
    {
      assert InQueue(pr, r, s'.log, t);
      if t.process != r {
        PendingLater(s.log, s'.log, pr.cursor, t);
      }
    }
  }

  /** Once everybody answered t0 and its process has read the answers, their times are all later than t0. */
  lemma AnswersAreLater(s: System, t0: Timestamp, x: nat, s': System, q: nat)
    requires Inv(s) && Inv(s') && s.log <= s'.log && |s'.procs| == |s.procs|
    requires AskAt(s.log, x, t0) && AllRead(s, x, |s.procs|) && 0 <= t0.process < |s.procs|
    requires s'.procs[t0.process].stage.Idle? && s'.procs[t0.process].cursor >= |s.log|
    requires q < |s.procs| && q != t0.process
    ensures |s'.procs[t0.process].received| == |s'.procs| && t0.time < s'.procs[t0.process].received[q]
  {
    var r := t0.process;
    assert ProcInv(s.procs[q], q, s.log, |s.procs|) && ProcInv(s'.procs[r], r, s'.log, |s'.procs|);
    assert MsgOk(s.log[x], |s.procs|);
    assert Answered(s.log, x, q);
    var k :| 0 <= k < |s.log| && AnswersAt(s.log, x, q, k);
    assert ReceivedInv(s'.procs[r], r, s'.log, q);
    assert Recorded(s'.procs[r], r, s'.log, k, q);
  }

  /** So the first live request cannot be waiting any more: Rule 5 would hold for a resting listener. */
  lemma FirstIsGranted(s: System, t0: Timestamp, x: nat, s1: System, s': System)
    requires Inv(s) && Inv(s1) && Inv(s') && FirstLive(s, t0) && |s.procs| == |s1.procs| == |s'.procs| >= 2
    requires s.log <= s1.log && s1.log <= s'.log
    requires forall t: Timestamp :: t.Less(t0) && Asked(s'.log, |s'.log|, t) ==> Asked(s.log, |s.log|, t)
    requires AskAt(s1.log, x, t0) && AllRead(s1, x, |s1.procs|) && 0 <= t0.process < |s.procs|
    requires s'.procs[t0.process].stage.Idle? && s'.procs[t0.process].cursor >= |s1.log|
    requires Owns(s'.procs, t0)
    ensures s'.procs[t0.process].isOccupying
  {
    var r := t0.process;
    var pr := s'.procs[r];
    FirstInQueue(s, t0, s');
    forall q | 0 <= q < |pr.received| && q != r
      ensures t0.IsBefore(pr.received[q])
    {
      assert ProcInv(pr, r, s'.log, |s'.procs|);
      AnswersAreLater(s1, t0, x, s', q);
    }
    assert ProcInv(pr, r, s'.log, |s'.procs|);
    assert WakeInv(pr, r);
  }

  lemma OneIsFirst(s: System, ts: Timestamp) returns (t0: Timestamp)
    requires Inv(s) && Live(s, ts)
    ensures FirstLive(s, t0) && Owns(s.procs, t0) && (t0 == ts || t0.Less(ts))
  {
    var live := set q | 0 <= q < |s.procs| && s.procs[q].requestTimestamp.Some? :: s.procs[q].requestTimestamp.value;
    forall t
      ensures Live(s, t) <==> t in live
    {
      assert Live(s, t) <==> Owns(s.procs, t);
      if t in live {
        var q :| 0 <= q < |s.procs| && s.procs[q].requestTimestamp == Some(t);
        assert ProcInv(s.procs[q], q, s.log, |s.procs|);
      }
    }
    t0 := LeastExists(live);
  }

  lemma FirstLiveLetsGo(n: nat, f: nat -> System, e: nat -> Option<Event>, k: nat, t0: Timestamp) returns (k': nat)
    requires Behaviour(n, f, e) && Fair(f, e) && n >= 2
    requires FirstLive(f(k), t0) && Known(f(k), t0)
    ensures k <= k' && LetGo(f(k').log, |f(k').log|, t0)
  {
    InvAlways(n, f, e, k);
    assert Owns(f(k).procs, t0);
    var r := t0.process;
    var x :| x < |f(k).log| && AskAt(f(k).log, x, t0);
    var k1 := EverybodyReads(n, f, e, x, k, n);
    GrowsAlways(n, f, e, k, k1, r);
    InvAlways(n, f, e, k1);
    var k2 := ListenerReads(n, f, e, r, |f(k1).log| - 1, k1);
    GrowsAlways(n, f, e, k1, k2, r);
    InvAlways(n, f, e, k2);
    forall t: Timestamp | t.Less(t0) && Asked(f(k2).log, |f(k2).log|, t)
      ensures Asked(f(k).log, |f(k).log|, t)
    {
      NoneEarlier(n, f, e, k, k2, t0, t);
    }
    assert AskAt(f(k1).log, x, t0) && AskAt(f(k2).log, x, t0);
    if LetGo(f(k2).log, |f(k2).log|, t0) {
      k' := k2;
    } else {
      assert Owns(f(k2).procs, t0);
      FirstIsGranted(f(k), t0, x, f(k1), f(k2));
      assert Occupies(f(k2), r);
      var k3: nat :| k2 <= k3 && Releases(e, r, k3);
      k' := HolderLetsGo(n, f, e, r, t0, k2, k3);
    }
  }

  /* ---------- Every request is served ---------- */

  /** The processes whose live request is ts or comes before it. */
  ghost function Ahead(s: System, ts: Timestamp): set<nat> {
    set q: nat | q < |s.procs| && s.procs[q].requestTimestamp.Some?
              && (s.procs[q].requestTimestamp.value == ts || s.procs[q].requestTimestamp.value.Less(ts))
  }

  /** When the first of them has let go, fewer are ahead. */
  lemma FewerAhead(s: System, s': System, ts: Timestamp, t0: Timestamp)
    requires Inv(s) && Inv(s') && |s.procs| == |s'.procs| && s.log <= s'.log
    requires Owns(s.procs, t0) && (t0 == ts || t0.Less(ts)) && LetGo(s'.log, |s'.log|, t0)
    requires forall t :: (t == ts || t.Less(ts)) && Asked(s'.log, |s'.log|, t) ==> Asked(s.log, |s.log|, t)
    ensures |Ahead(s', ts)| < |Ahead(s, ts)|
  {
    var r: nat := t0.process;
    forall q | q in Ahead(s', ts)
      ensures q in Ahead(s, ts) && q != r
    {
      var t := s'.procs[q].requestTimestamp.value;
      assert ProcInv(s'.procs[q], q, s'.log, |s'.procs|);
      assert Owns(s'.procs, t);
      assert Pending(s'.log, |s'.log|, t);
      if LetGo(s.log, |s.log|, t) {
        var i :| i < |s.log| && LetGoAt(s.log, i, t);
        assert LetGoAt(s'.log, i, t);
        assert false;
      }
      assert Pending(s.log, |s.log|, t);
      assert Owns(s.procs, t);
    }
    assert r in Ahead(s, ts);
    SubsetSize(Ahead(s', ts), Ahead(s, ts) - {r});
  }

  lemma {:induction false} KnownIsServed(n: nat, f: nat -> System, e: nat -> Option<Event>, k: nat, ts: Timestamp) returns (k': nat)
    requires Behaviour(n, f, e) && Fair(f, e) && n >= 2
    requires Asked(f(k).log, |f(k).log|, ts) && Known(f(k), ts)
    ensures k <= k' && LetGo(f(k').log, |f(k').log|, ts)
    decreases |Ahead(f(k), ts)|
  {
    InvAlways(n, f, e, k);
    if LetGo(f(k).log, |f(k).log|, ts) {
      k' := k;
    } else {
      var t0 := OneIsFirst(f(k), ts);
      var k1 := FirstLiveLetsGo(n, f, e, k, t0);
      InvAlways(n, f, e, k1);
      GrowsAlways(n, f, e, k, k1, 0);
      NoneEarlier(n, f, e, k, k1, ts, ts);
      forall t | (t == ts || t.Less(ts)) && Asked(f(k1).log, |f(k1).log|, t)
        ensures Asked(f(k).log, |f(k).log|, t)
      {
        NoneEarlier(n, f, e, k, k1, ts, t);
      }
      FewerAhead(f(k), f(k1), ts, t0);
      StillAsked(f(k).log, f(k1).log, ts);
      k' := KnownIsServed(n, f, e, k1, ts);
    }
  }

  /** Everybody who answered a request has passed its time. */
  lemma ReadersKnow(s: System, x: nat, ts: Timestamp)
    requires Inv(s) && AskAt(s.log, x, ts) && AllRead(s, x, |s.procs|)
    ensures Known(s, ts)
  {
    forall q | 0 <= q < |s.procs|
      ensures s.procs[q].clock >= ts.time
    {
      assert ProcInv(s.procs[q], q, s.log, |s.procs|) && MsgOk(s.log[x], |s.procs|);
      if q != s.log[x].from {
        assert Answered(s.log, x, q);
        var k :| 0 <= k < |s.log| && AnswersAt(s.log, x, q, k);
      }
    }
  }

  /**
   * No starvation: in every fair behaviour of two or more processes, every request ever made is granted the
   * resource and released again, however many other requests are made meanwhile.
   */
  lemma EveryRequestIsServed(n: nat, f: nat -> System, e: nat -> Option<Event>, k: nat, ts: Timestamp)
    requires Behaviour(n, f, e) && Fair(f, e) && n >= 2
    requires Asked(f(k).log, |f(k).log|, ts)
    ensures exists k': nat :: k <= k' && ts in f(k').resource.timestamps && LetGo(f(k').log, |f(k').log|, ts)
  {
    InvAlways(n, f, e, k);
    var x :| x < |f(k).log| && AskAt(f(k).log, x, ts);
    var k1 := EverybodyReads(n, f, e, x, k, n);
    GrowsAlways(n, f, e, k, k1, 0);
    InvAlways(n, f, e, k1);
    assert AskAt(f(k1).log, x, ts);
    ReadersKnow(f(k1), x, ts);
    var k2 := KnownIsServed(n, f, e, k1, ts);
    InvAlways(n, f, e, k2);
    var i :| i < |f(k2).log| && LetGoAt(f(k2).log, i, ts);
  }
}
