/** Mutual exclusion: every run. */
module MutexTheorems {
  // What holds in every run. The theorems ask nothing of the order of the events: every interleaving of listeners,
  // requests and releases is a run.

  import opened Options
  import opened MutexTimestamp
  import opened MutexProcess
  import opened MutexSystem
  import opened MutexInvariant
  import opened MutexSteps
  import opened MutexEvents

  lemma {:induction false} InvHolds(n: nat, states: seq<System>, events: seq<Event>, i: nat)
    requires Run(n, states, events) && i < |states|
    ensures Inv(states[i]) && |states[i].procs| == n
  {
    if i == 0 {
      InitInv(n, states[0]);
    } else {
      InvHolds(n, states, events, i - 1);
      assert StepAt(states, events, i - 1);
      StepKeeps(states[i - 1], events[i - 1]);
    }
  }

  /* ---------- Mutual exclusion ---------- */

  /**
   * At every moment of every run no panic has happened and none is about to; at most one process occupies; and
   * a process occupies exactly when the resource is recorded as occupied by its request.
   */
  lemma MutualExclusion(n: nat, states: seq<System>, events: seq<Event>, i: nat, e: Event)
    requires Run(n, states, events) && i < |states|
    ensures states[i].panic.None? && |states[i].procs| == n
    ensures Enabled(states[i], e) ==> Next(states[i], e).panic.None?
    ensures forall p, q :: 0 <= p < n && 0 <= q < n && states[i].procs[p].isOccupying && states[i].procs[q].isOccupying ==> p == q
    ensures forall p :: 0 <= p < n ==>
      (states[i].procs[p].isOccupying <==>
        states[i].resource.occupiedBy.Some? && states[i].resource.occupiedBy.value.process == p)
  {
    InvHolds(n, states, events, i);
    var s := states[i];
    if Enabled(s, e) {
      StepKeeps(s, e);
    }
    forall p | 0 <= p < n
      ensures s.procs[p].isOccupying <==> s.resource.occupiedBy.Some? && s.resource.occupiedBy.value.process == p
    {
      assert GrantInv(s.procs[p], s.resource) && ProcInv(s.procs[p], p, s.log, n);
      assert s.resource.occupiedBy.Some? ==> Owns(s.procs, s.resource.occupiedBy.value);
    }
  }

  /* ---------- The order of the grants ---------- */

  lemma {:induction false} GrantsGrow(n: nat, states: seq<System>, events: seq<Event>, i: nat, j: nat)
    requires Run(n, states, events) && i <= j < |states|
    ensures states[i].resource.timestamps <= states[j].resource.timestamps
    decreases j
  {
    if i < j {
      GrantsGrow(n, states, events, i, j - 1);
      assert StepAt(states, events, j - 1);
    }
  }

  /** The grants follow the order of the timestamps. */
  lemma GrantsAreSorted(n: nat, states: seq<System>, events: seq<Event>, i: nat)
    requires Run(n, states, events) && i < |states|
    ensures Sorted(states[i].resource.timestamps)
  {
    InvHolds(n, states, events, i);
  }

  /** No live request is earlier than a granted one. */
  lemma LiveIsNotEarlier(s: System, ts: Timestamp, live: Timestamp)
    requires Inv(s) && ts in s.resource.timestamps
    ensures Pending(s.log, |s.log|, live) ==> !live.Less(ts)
  {
    var grants := s.resource.timestamps;
    var k :| 0 <= k < |grants| && grants[k] == ts;
    var last := grants[|grants| - 1];
    assert ts == last || ts.Less(last);
    if Pending(s.log, |s.log|, live) {
      assert Owns(s.procs, live);
      assert GrantInv(s.procs[live.process], s.resource);
    }
  }

  /** A request earlier than a granted one was granted. */
  lemma EarlierWasGranted(s: System, ts: Timestamp, earlier: Timestamp)
    requires Inv(s) && ts in s.resource.timestamps && Asked(s.log, |s.log|, earlier) && earlier.Less(ts)
    ensures earlier in s.resource.timestamps
  {
    LiveIsNotEarlier(s, ts, earlier);
    var i :| i < |s.log| && LetGoAt(s.log, i, earlier);
  }

  /**
   * No request is overtaken: when ts has been granted as the k-th, every request with an earlier timestamp that
   * is made at any time, before or after, is among the first k grants.
   */
  lemma FirstComeFirstServed(n: nat, states: seq<System>, events: seq<Event>, i: nat, j: nat, k: nat, earlier: Timestamp)
    requires Run(n, states, events) && i < |states| && j < |states| && k < |states[i].resource.timestamps|
    requires Asked(states[j].log, |states[j].log|, earlier) && earlier.Less(states[i].resource.timestamps[k])
    ensures earlier in states[i].resource.timestamps[..k]
  {
    var m := if i <= j then j else i;
    var ts, grants, before := states[i].resource.timestamps[k], states[m].resource.timestamps, states[i].resource.timestamps;
    InvHolds(n, states, events, m);
    GrantsGrow(n, states, events, i, m);
    LogGrows(n, states, events, j, m);
    StillAsked(states[j].log, states[m].log, earlier);
    assert grants[k] == ts;
    EarlierWasGranted(states[m], ts, earlier);
    var x :| 0 <= x < |grants| && grants[x] == earlier;
    assert k < x ==> grants[k].Less(grants[x]);
    assert before[..k][x] == earlier;
  }

  lemma {:induction false} LogGrows(n: nat, states: seq<System>, events: seq<Event>, i: nat, j: nat)
    requires Run(n, states, events) && i <= j < |states|
    ensures states[i].log <= states[j].log
    decreases j
  {
    if i < j {
      LogGrows(n, states, events, i, j - 1);
      assert StepAt(states, events, j - 1);
    }
  }

  lemma StillAsked(log: seq<Message>, log': seq<Message>, ts: Timestamp)
    requires log <= log' && Asked(log, |log|, ts)
    ensures Asked(log', |log'|, ts)
  {
    var i :| i < |log| && AskAt(log, i, ts);
    assert AskAt(log', i, ts);
  }

  /**
   * When two requests have been granted, the one that was asked for first, in the order of the stream, was granted
   * first if and only if its timestamp is the earlier one.
   */
  lemma AskedFirstServedFirstIff(n: nat, states: seq<System>, events: seq<Event>, i: nat, x: nat, y: nat, k: nat, l: nat)
    requires Run(n, states, events) && i < |states| && x < y < |states[i].log|
    requires k < |states[i].resource.timestamps| && AskAt(states[i].log, x, states[i].resource.timestamps[k])
    requires l < |states[i].resource.timestamps| && AskAt(states[i].log, y, states[i].resource.timestamps[l])
    ensures k < l <==> states[i].resource.timestamps[k].Less(states[i].resource.timestamps[l])
  {
    InvHolds(n, states, events, i);
    var grants := states[i].resource.timestamps;
    assert l < k ==> grants[l].Less(grants[k]);
  }

  /**
   * A request made after its process recorded another's request is served after it: the new timestamp is later,
   * and wherever it appears among the grants, the other one stands before it.
   */
  lemma LaterIsServedLater(n: nat, states: seq<System>, events: seq<Event>, i: nat, p: nat, x: nat, j: nat, k: nat)
    requires Run(n, states, events) && i < |events| && events[i] == MakeRequest(p)
    requires p < |states[i].procs| && x < |states[i].log|
    requires Recorded(states[i].procs[p], p, states[i].log, x, states[i].log[x].from)
    requires states[i].log[x].msgType == RequestResource
    requires j < |states| && k < |states[j].resource.timestamps|
    requires states[j].resource.timestamps[k] == Timestamp(states[i].procs[p].clock + 1, p)
    ensures states[i].log[x].timestamp.Less(states[j].resource.timestamps[k])
    ensures states[i].log[x].timestamp in states[j].resource.timestamps[..k]
  {
    var s, other := states[i], states[i].log[x].timestamp;
    InvHolds(n, states, events, i);
    assert ProcInv(s.procs[p], p, s.log, n);
    assert MsgOk(s.log[x], n);
    assert AskAt(s.log, x, other);
    FirstComeFirstServed(n, states, events, j, i, k, other);
  }

  /* ---------- The replicated queue ---------- */

  /** Between two messages a queue holds exactly the unreleased requests of others in the part of the stream read, and the own one. */
  lemma QueueIsLogPrefix(n: nat, states: seq<System>, events: seq<Event>, i: nat, p: nat, ts: Timestamp)
    requires Run(n, states, events) && i < |states| && p < |states[i].procs| && states[i].procs[p].stage.Idle?
    ensures var pr := states[i].procs[p];
            ts in pr.queue <==>
              (ts.process != p && Pending(states[i].log, pr.cursor, ts)) || pr.requestTimestamp == Some(ts)
  {
    InvHolds(n, states, events, i);
    var pr := states[i].procs[p];
    assert ProcInv(pr, p, states[i].log, n);
    assert ts in pr.queue <==> InQueue(pr, p, states[i].log, ts);
  }

  /** So two processes that have read equally far agree on the requests of all others. */
  lemma QueuesAgree(n: nat, states: seq<System>, events: seq<Event>, i: nat, p: nat, j: nat, q: nat, ts: Timestamp)
    requires Run(n, states, events) && i < |states| && j < |states| && p < |states[i].procs| && q < |states[j].procs|
    requires states[i].procs[p].stage.Idle? && states[j].procs[q].stage.Idle?
    requires states[i].procs[p].cursor == states[j].procs[q].cursor && ts.process != p && ts.process != q
    ensures ts in states[i].procs[p].queue <==> ts in states[j].procs[q].queue
  {
    QueueIsLogPrefix(n, states, events, i, p, ts);
    QueueIsLogPrefix(n, states, events, j, q, ts);
    InvHolds(n, states, events, i);
    InvHolds(n, states, events, j);
    assert ProcInv(states[i].procs[p], p, states[i].log, n) && ProcInv(states[j].procs[q], q, states[j].log, n);
    if i <= j {
      LogGrows(n, states, events, i, j);
      SamePending(states[i].log, states[j].log, states[i].procs[p].cursor, ts);
    } else {
      LogGrows(n, states, events, j, i);
      SamePending(states[j].log, states[i].log, states[i].procs[p].cursor, ts);
    }
  }

  lemma SamePending(log: seq<Message>, log': seq<Message>, k: nat, ts: Timestamp)
    requires log <= log' && k <= |log|
    ensures Pending(log, k, ts) <==> Pending(log', k, ts)
  {
    forall i | i < k
      ensures AskAt(log', i, ts) <==> AskAt(log, i, ts)
      ensures LetGoAt(log', i, ts) <==> LetGoAt(log, i, ts)
    {
    }
  }

  /** What is pushed on a queue was not in it, and what is removed from a queue is in it. */
  lemma QueueUseIsLegal(n: nat, states: seq<System>, events: seq<Event>, i: nat, e: Event)
    requires Run(n, states, events) && i < |states| && Enabled(states[i], e)
    ensures var pr := states[i].procs[e.p];
            && (e.QueueRequest? ==> pr.stage.msg.timestamp !in pr.queue)
            && (e.MakeRequest? ==> Timestamp(pr.clock + 1, e.p) !in pr.queue)
            && (e.DropRequest? ==> pr.stage.msg.timestamp in pr.queue)
            && (e.ReleaseResource? ==> pr.requestTimestamp.value in pr.queue)
  {
    InvHolds(n, states, events, i);
    var s, pr := states[i], states[i].procs[e.p];
    assert ProcInv(pr, e.p, s.log, n);
    match e
    case QueueRequest(p) => QueuedIsNew(pr, p, s.log, n);
    case MakeRequest(p) => RequestKeeps(pr, p, s.log, n);
    case DropRequest(p) => ReleasedIsQueued(pr, p, s.log, n);
    case ReleaseResource(p) => HolderReleases(s, p);
    case _ =>
  }

  /* ---------- No missed wake-up ---------- */

  /** Whenever a listener waits for a message, Rule 5 is false for its process. */
  lemma NoMissedWakeUp(n: nat, states: seq<System>, events: seq<Event>, i: nat, p: nat)
    requires Run(n, states, events) && i < |states| && n >= 2
    requires p < |states[i].procs| && states[i].procs[p].stage.Idle?
    ensures !Rule5(states[i].procs[p], p)
  {
    InvHolds(n, states, events, i);
    assert ProcInv(states[i].procs[p], p, states[i].log, n);
  }

  /* ---------- The clock condition ---------- */

  /** Message a was sent by the sender of b before b, or its time was recorded by the sender of b before it sent b. */
  ghost predicate Precedes(s: System, a: nat, b: nat) {
    && a < |s.log| && b < |s.log| && |s.seen| == |s.log|
    && (|| (a < b && s.log[a].from == s.log[b].from)
        || (a < s.seen[b] && For(s.log[a], s.log[b].from)))
  }

  /** A chain of messages, each preceding the next. */
  ghost predicate HappenedBefore(s: System, chain: seq<nat>) {
    |chain| >= 2 && forall i :: 0 <= i < |chain| - 1 ==> Precedes(s, chain[i], chain[i + 1])
  }

  /** What a sender had recorded is earlier than what it sent then. */
  ghost predicate SeenInv(s: System) {
    && |s.seen| == |s.log|
    && (forall b :: 0 <= b < |s.log| ==> s.seen[b] <= b)
    && forall a, b :: 0 <= a < |s.log| && 0 <= b < |s.log| && a < s.seen[b] && For(s.log[a], s.log[b].from) ==>
      a < b && s.log[a].msgTime < s.log[b].msgTime
  }

  /** A process that sends m has recorded only messages earlier than m. */
  lemma SeenSend(s: System, p: nat, m: Message)
    requires Inv(s) && SeenInv(s) && p < |s.procs| && m.from == p && m.msgTime > s.procs[p].clock
    ensures SeenInv(s.(log := s.log + [m], seen := s.seen + [Timed(s.procs[p])]))
  {
    assert ProcInv(s.procs[p], p, s.log, |s.procs|);
    var log', seen' := s.log + [m], s.seen + [Timed(s.procs[p])];
    forall a, b | 0 <= a < |log'| && 0 <= b < |log'| && a < seen'[b] && For(log'[a], log'[b].from)
      ensures a < b && log'[a].msgTime < log'[b].msgTime
    {
      assert b < |s.log| ==> a < s.seen[b] <= b;
    }
  }

  lemma SeenStill(s: System, e: Event)
    requires Enabled(s, e) && SeenInv(s) && !e.SendAck? && !e.MakeRequest? && !e.ReleaseResource?
    ensures SeenInv(Next(s, e))
  {
  }

  lemma SeenKept(s: System, e: Event)
    requires Inv(s) && Enabled(s, e) && SeenInv(s)
    ensures SeenInv(Next(s, e))
  {
    var p, pr := e.p, s.procs[e.p];
    match e
    case SendAck(_) => SeenSend(s, p, AckMessage(pr, p, pr.stage.msg));
    case MakeRequest(_) => SeenSend(s, p, RequestMessage(pr, p));
    case ReleaseResource(_) => SeenSend(s, p, ReleaseMessage(pr, p));
    case _ => SeenStill(s, e);
  }

  lemma {:induction false} SeenHolds(n: nat, states: seq<System>, events: seq<Event>, i: nat)
    requires Run(n, states, events) && i < |states|
    ensures SeenInv(states[i])
  {
    if i > 0 {
      SeenHolds(n, states, events, i - 1);
      InvHolds(n, states, events, i - 1);
      assert StepAt(states, events, i - 1);
      SeenKept(states[i - 1], events[i - 1]);
    }
  }

  lemma {:induction false} ChainRises(s: System, chain: seq<nat>)
    requires Inv(s) && SeenInv(s) && HappenedBefore(s, chain)
    ensures chain[0] < chain[|chain| - 1] < |s.log|
    ensures s.log[chain[0]].msgTime < s.log[chain[|chain| - 1]].msgTime
  {
    assert Precedes(s, chain[0], chain[1]);
    if |chain| > 2 {
      forall i | 0 <= i < |chain[1..]| - 1
        ensures Precedes(s, chain[1..][i], chain[1..][i + 1])
      {
        assert Precedes(s, chain[i + 1], chain[i + 2]);
      }
      ChainRises(s, chain[1..]);
    }
  }

  /** The clock condition: a message that happened before another carries a smaller time. */
  lemma ClockCondition(n: nat, states: seq<System>, events: seq<Event>, i: nat, chain: seq<nat>)
    requires Run(n, states, events) && i < |states| && HappenedBefore(states[i], chain)
    ensures chain[0] < chain[|chain| - 1] < |states[i].log|
    ensures states[i].log[chain[0]].msgTime < states[i].log[chain[|chain| - 1]].msgTime
  {
    InvHolds(n, states, events, i);
    SeenHolds(n, states, events, i);
    ChainRises(states[i], chain);
  }

  /** What RecordTime writes is later than what stood there. */
  lemma RecordRises(pr: Proc, p: int, log: seq<Message>, n: nat)
    requires LogInv(log, n) && ProcInv(pr, p, log, n) && pr.stage.Received?
    ensures 0 <= pr.stage.msg.from < |pr.received| && pr.received[pr.stage.msg.from] < pr.stage.msg.msgTime
  {
    var q := pr.stage.msg.from;
    assert MsgOk(pr.stage.msg, n);
    assert ReceivedInv(pr, p, log, q);
    if pr.received[q] != 0 {
      var x :| Recorded(pr, p, log, x, q) && log[x].msgTime == pr.received[q];
      assert x < pr.cursor - 1;
    }
  }

  /**
   * Every step keeps what a process recorded, except that RecordTime raises the sender's time and moves the clock
   * past it, and no further than it must.
   */
  lemma ReceivedTimeRises(n: nat, states: seq<System>, events: seq<Event>, i: nat, p: nat)
    requires Run(n, states, events) && i < |events| && p < n
    ensures |states[i].procs| == |states[i + 1].procs| == n
    ensures var pr, pr' := states[i].procs[p], states[i + 1].procs[p];
            if events[i] == RecordTime(p) then
              && pr.stage.Received? && 0 <= pr.stage.msg.from < |pr.received|
              && pr.received[pr.stage.msg.from] < pr.stage.msg.msgTime
              && pr'.received == pr.received[pr.stage.msg.from := pr.stage.msg.msgTime]
              && pr'.clock == (if pr.clock > pr.stage.msg.msgTime then pr.clock else pr.stage.msg.msgTime + 1)
            else pr'.received == pr.received
  {
    InvHolds(n, states, events, i);
    assert StepAt(states, events, i);
    if events[i] == RecordTime(p) {
      assert ProcInv(states[i].procs[p], p, states[i].log, n);
      RecordRises(states[i].procs[p], p, states[i].log, n);
    }
  }
}
