/** Mutual exclusion: every event. */
module MutexEvents {
  // The invariant of the system, event by event.

  import opened Options
  import opened MutexTimestamp
  import opened MutexProcess
  import opened MutexSystem
  import opened MutexInvariant
  import opened MutexSteps

  /* ---------- Steps of one process that send nothing ---------- */

  /** A step that leaves the stream, the resource and the own request alone. */
  lemma QuietStep(s: System, p: nat, pr: Proc)
    requires Inv(s) && p < |s.procs| && ProcInv(pr, p, s.log, |s.procs|)
    requires pr.requestTimestamp == s.procs[p].requestTimestamp && pr.isOccupying == s.procs[p].isOccupying
    requires pr.clock >= s.procs[p].clock
    ensures Inv(SetProc(s, p, pr))
  {
    var s' := SetProc(s, p, pr);
    forall q | 0 <= q < |s'.procs|
      ensures ProcInv(s'.procs[q], q, s'.log, |s'.procs|) && GrantInv(s'.procs[q], s'.resource)
    {
      assert ProcInv(s.procs[q], q, s.log, |s.procs|) && GrantInv(s.procs[q], s.resource);
    }
    forall ts
      ensures Pending(s'.log, |s'.log|, ts) <==> Owns(s'.procs, ts)
    {
      assert Owns(s'.procs, ts) <==> Owns(s.procs, ts);
    }
    if s.resource.occupiedBy.Some? {
      assert Owns(s.procs, s.resource.occupiedBy.value);
    }
  }

  lemma TakeStep(s: System, p: nat)
    requires Inv(s) && Enabled(s, TakeMessage(p))
    ensures Inv(Next(s, TakeMessage(p)))
  {
    assert ProcInv(s.procs[p], p, s.log, |s.procs|);
    TakeKeeps(s.procs[p], p, s.log, |s.procs|);
    QuietStep(s, p, Take(s.procs[p], p, s.log[s.procs[p].cursor]));
  }

  lemma RecordStep(s: System, p: nat)
    requires Inv(s) && Enabled(s, RecordTime(p))
    ensures Inv(Next(s, RecordTime(p)))
  {
    assert ProcInv(s.procs[p], p, s.log, |s.procs|);
    RecordKeeps(s.procs[p], p, s.log, |s.procs|);
    QuietStep(s, p, UpdateTime(s.procs[p], s.procs[p].stage.msg));
  }

  lemma QueueStep(s: System, p: nat)
    requires Inv(s) && Enabled(s, QueueRequest(p))
    ensures Inv(Next(s, QueueRequest(p)))
  {
    assert ProcInv(s.procs[p], p, s.log, |s.procs|);
    PushKeeps(s.procs[p], p, s.log, |s.procs|);
    QuietStep(s, p, PushRequest(s.procs[p], s.procs[p].stage.msg));
  }

  lemma DropStep(s: System, p: nat)
    requires Inv(s) && Enabled(s, DropRequest(p))
    ensures Inv(Next(s, DropRequest(p)))
  {
    assert ProcInv(s.procs[p], p, s.log, |s.procs|);
    ReleasedIsQueued(s.procs[p], p, s.log, |s.procs|);
    DropKeeps(s.procs[p], p, s.log, |s.procs|);
    QuietStep(s, p, RemoveRequest(s.procs[p], s.procs[p].stage.msg));
  }

  lemma FinishStep(s: System, p: nat)
    requires Inv(s) && Enabled(s, FinishRelease(p))
    ensures Inv(Next(s, FinishRelease(p)))
  {
    assert ProcInv(s.procs[p], p, s.log, |s.procs|);
    FinishKeeps(s.procs[p], p, s.log, |s.procs|);
    QuietStep(s, p, s.procs[p].(waiting := false));
  }

  /* ---------- Rule 5 ---------- */

  lemma PendingAt(log: seq<Message>, k: int, ts: Timestamp, i: int)
    requires Pending(log, |log|, ts) && AskAt(log, i, ts) && i < k <= |log|
    ensures Pending(log, k, ts)
  {
  }

  /**
   * When Rule 5 holds for r, its request precedes every other live request: either r has dealt with the other
   * request, and then has it in its queue, or the other process sent it after a message later than r's request.
   */
  lemma Rule5IsFirst(s: System, r: nat, p: nat)
    requires Inv(s) && r < |s.procs| && p < |s.procs| && p != r
    requires s.procs[r].stage.Checking? && Rule5(s.procs[r], r) && s.procs[p].requestTimestamp.Some?
    ensures s.procs[r].requestTimestamp.value.Less(s.procs[p].requestTimestamp.value)
  {
    var pr, log, own, other := s.procs[r], s.log, s.procs[r].requestTimestamp.value, s.procs[p].requestTimestamp.value;
    assert ProcInv(pr, r, log, |s.procs|) && ProcInv(s.procs[p], p, log, |s.procs|);
    assert Owns(s.procs, other) && Owns(s.procs, own);
    assert Pending(log, |log|, other) && Pending(log, |log|, own);
    var i :| i < |log| && AskAt(log, i, other);
    var j :| j < |log| && AskAt(log, j, own);
    assert MsgOk(log[i], |s.procs|) && MsgOk(log[j], |s.procs|);
    assert ReceivedInv(pr, r, log, p);
    var k :| Recorded(pr, r, log, k, p) && log[k].msgTime == pr.received[p];
    if i <= k {
      PendingAt(log, pr.cursor, other, i);
      assert InQueue(pr, r, log, other);
    }
  }

  /** When Rule 5 holds, the resource is free and the last grant was earlier: `Occupy` cannot panic. */
  lemma Rule5FindsResourceFree(s: System, r: nat)
    requires Inv(s) && r < |s.procs| && s.procs[r].stage.Checking? && Rule5(s.procs[r], r)
    ensures s.resource.occupiedBy.None? && s.resource.lastOccupiedBy.Less(s.procs[r].requestTimestamp.value)
  {
    assert GrantInv(s.procs[r], s.resource);
    if s.resource.occupiedBy.Some? {
      var ts := s.resource.occupiedBy.value;
      assert Owns(s.procs, ts);
      assert GrantInv(s.procs[ts.process], s.resource);
      Rule5IsFirst(s, r, ts.process);
    }
  }

  /** Every clock has passed a request that Rule 5 selects. */
  lemma Rule5ClocksPassed(s: System, r: nat, p: nat)
    requires Inv(s) && r < |s.procs| && p < |s.procs| && s.procs[r].stage.Checking? && Rule5(s.procs[r], r)
    ensures s.procs[p].clock >= s.procs[r].requestTimestamp.value.time
  {
    var pr, log, own := s.procs[r], s.log, s.procs[r].requestTimestamp.value;
    assert ProcInv(pr, r, log, |s.procs|) && ProcInv(s.procs[p], p, log, |s.procs|);
    assert Owns(s.procs, own);
    assert Pending(log, |log|, own);
    var j :| j < |log| && AskAt(log, j, own);
    assert MsgOk(log[j], |s.procs|);
    if p != r {
      assert ReceivedInv(pr, r, log, p);
      var k :| Recorded(pr, r, log, k, p) && log[k].msgTime == pr.received[p];
    }
  }

  lemma SortedGrows(a: seq<Timestamp>, ts: Timestamp)
    requires Sorted(a) && (a != [] ==> a[|a| - 1].Less(ts))
    ensures Sorted(a + [ts])
  {
    var b := a + [ts];
    forall i, j | 0 <= i < j < |b|
      ensures b[i].Less(b[j])
    {
      if j == |a| {
        assert i < |a| - 1 ==> a[i].Less(a[|a| - 1]);
      }
    }
  }

  lemma GrantedResource(s: System, r: nat)
    requires Inv(s) && r < |s.procs| && s.procs[r].stage.Checking? && Rule5(s.procs[r], r)
    ensures s.resource.occupiedBy.None? && s.resource.lastOccupiedBy.Less(s.procs[r].requestTimestamp.value)
    ensures var ts := s.procs[r].requestTimestamp.value;
            ResourceInv(s.resource.(occupiedBy := Some(ts), timestamps := s.resource.timestamps + [ts]), s.log)
  {
    var ts := s.procs[r].requestTimestamp.value;
    Rule5FindsResourceFree(s, r);
    SortedGrows(s.resource.timestamps, ts);
    assert ProcInv(s.procs[r], r, s.log, |s.procs|);
    assert Owns(s.procs, ts);
    assert Pending(s.log, |s.log|, ts);
  }

  lemma GrantStep(s: System, p: nat)
    requires Inv(s) && Enabled(s, CheckRule5(p)) && Rule5(s.procs[p], p)
    ensures Inv(Next(s, CheckRule5(p)))
  {
    var s', ts := Next(s, CheckRule5(p)), s.procs[p].requestTimestamp.value;
    GrantedResource(s, p);
    assert ProcInv(s.procs[p], p, s.log, |s.procs|);
    CheckKeeps(s.procs[p], p, s.log, |s.procs|);
    forall q | 0 <= q < |s'.procs|
      ensures ProcInv(s'.procs[q], q, s'.log, |s'.procs|) && GrantInv(s'.procs[q], s'.resource)
    {
      assert ProcInv(s.procs[q], q, s.log, |s.procs|) && GrantInv(s.procs[q], s.resource);
      Rule5ClocksPassed(s, p, q);
      if q != p && s.procs[q].requestTimestamp.Some? {
        Rule5IsFirst(s, p, q);
      }
    }
    forall t
      ensures Pending(s'.log, |s'.log|, t) <==> Owns(s'.procs, t)
    {
      assert Owns(s'.procs, t) <==> Owns(s.procs, t);
    }
  }

  lemma CheckStep(s: System, p: nat)
    requires Inv(s) && Enabled(s, CheckRule5(p))
    ensures Inv(Next(s, CheckRule5(p)))
  {
    if Rule5(s.procs[p], p) {
      GrantStep(s, p);
    } else {
      assert ProcInv(s.procs[p], p, s.log, |s.procs|);
      CheckKeeps(s.procs[p], p, s.log, |s.procs|);
      QuietStep(s, p, s.procs[p].(stage := Idle));
    }
  }

  /* ---------- Steps that send ---------- */

  /** The processes after p changed to pr and sent m. */
  lemma OthersAfterSend(s: System, p: nat, pr: Proc, m: Message)
    requires Inv(s) && p < |s.procs| && m.from == p && ProcInv(pr, p, s.log + [m], |s.procs|)
    ensures var s' := Send(s, p, pr, m);
            forall q {:trigger ProcInv(s'.procs[q], q, s'.log, |s'.procs|)} ::
              0 <= q < |s'.procs| ==> ProcInv(s'.procs[q], q, s'.log, |s'.procs|)
  {
    var s' := Send(s, p, pr, m);
    forall q | 0 <= q < |s'.procs|
      ensures ProcInv(s'.procs[q], q, s'.log, |s'.procs|)
    {
      if q != p {
        assert ProcInv(s.procs[q], q, s.log, |s.procs|);
        ProcInvGrows(s.procs[q], q, s.log, |s.procs|, m);
      }
    }
  }

  lemma ResourceGrows(r: Resource, log: seq<Message>, m: Message)
    requires ResourceInv(r, log)
    requires m.msgType == MsgType.ReleaseResource ==> m.timestamp in r.timestamps
    ensures ResourceInv(r, log + [m])
  {
    var log' := log + [m];
    forall i, ts | LetGoAt(log', i, ts)
      ensures ts in r.timestamps
    {
      assert i < |log| ==> LetGoAt(log, i, ts);
    }
    forall ts | ts in r.timestamps
      ensures Asked(log', |log'|, ts)
    {
      PendingNext(log, m, ts);
    }
  }

  lemma PendingAfterAck(s: System, p: nat, m: Message, s': System)
    requires p < |s.procs| == |s'.procs| && m.msgType == Acknowledgment && s'.log == s.log + [m]
    requires forall q :: 0 <= q < |s.procs| ==> s'.procs[q].requestTimestamp == s.procs[q].requestTimestamp
    requires forall ts {:trigger Owns(s.procs, ts)} :: Pending(s.log, |s.log|, ts) <==> Owns(s.procs, ts)
    ensures forall ts {:trigger Owns(s'.procs, ts)} :: Pending(s'.log, |s'.log|, ts) <==> Owns(s'.procs, ts)
  {
    forall ts
      ensures Pending(s'.log, |s'.log|, ts) <==> Owns(s'.procs, ts)
    {
      PendingNext(s.log, m, ts);
      assert Owns(s'.procs, ts) <==> Owns(s.procs, ts);
    }
  }

  lemma AckStep(s: System, p: nat)
    requires Inv(s) && Enabled(s, SendAck(p))
    ensures Inv(Next(s, SendAck(p)))
  {
    var pr := s.procs[p];
    var m, s' := AckMessage(pr, p, pr.stage.msg), Next(s, SendAck(p));
    assert ProcInv(pr, p, s.log, |s.procs|);
    AckKeeps(pr, p, s.log, |s.procs|);
    LogInvGrows(s.log, |s.procs|, m);
    OthersAfterSend(s, p, Ack(pr), m);
    ResourceGrows(s.resource, s.log, m);
    forall q | 0 <= q < |s'.procs|
      ensures GrantInv(s'.procs[q], s'.resource)
    {
      assert GrantInv(s.procs[q], s.resource);
    }
    PendingAfterAck(s, p, m, s');
    if s.resource.occupiedBy.Some? {
      assert Owns(s.procs, s.resource.occupiedBy.value);
    }
  }

  /** A process that occupies is the one the resource records: `Release` cannot panic. */
  lemma HolderReleases(s: System, p: nat)
    requires Inv(s) && p < |s.procs| && s.procs[p].isOccupying
    ensures s.procs[p].requestTimestamp.Some? && s.resource.occupiedBy == s.procs[p].requestTimestamp
    ensures s.procs[p].requestTimestamp.value in s.procs[p].queue
    ensures Pending(s.log, |s.log|, s.procs[p].requestTimestamp.value)
    ensures s.procs[p].requestTimestamp.value.process == p
  {
    assert GrantInv(s.procs[p], s.resource) && ProcInv(s.procs[p], p, s.log, |s.procs|);
    ReleaseKeeps(s.procs[p], p, s.log, |s.procs|);
    assert Owns(s.procs, s.procs[p].requestTimestamp.value);
  }

  lemma ReleasedLive(s: System, p: nat)
    requires Inv(s) && p < |s.procs| && s.procs[p].isOccupying
    ensures s.procs[p].requestTimestamp.Some?
    ensures LiveInv(s.procs[p := Release(s.procs[p])], s.log + [ReleaseMessage(s.procs[p], p)])
  {
    HolderReleases(s, p);
    var m, procs' := ReleaseMessage(s.procs[p], p), s.procs[p := Release(s.procs[p])];
    forall ts
      ensures Pending(s.log + [m], |s.log + [m]|, ts) <==> Owns(procs', ts)
    {
      PendingNext(s.log, m, ts);
      assert Pending(s.log, |s.log|, ts) <==> Owns(s.procs, ts);
    }
  }

  lemma ReleaseStep(s: System, p: nat)
    requires Inv(s) && Enabled(s, Event.ReleaseResource(p))
    ensures Inv(Next(s, Event.ReleaseResource(p)))
  {
    var pr := s.procs[p];
    HolderReleases(s, p);
    var m, s' := ReleaseMessage(pr, p), Next(s, Event.ReleaseResource(p));
    assert ProcInv(pr, p, s.log, |s.procs|);
    ReleaseKeeps(pr, p, s.log, |s.procs|);
    LogInvGrows(s.log, |s.procs|, m);
    OthersAfterSend(s, p, Release(pr), m);
    ResourceGrows(s.resource, s.log, m);
    ReleasedLive(s, p);
    forall q | 0 <= q < |s'.procs|
      ensures GrantInv(s'.procs[q], s'.resource)
    {
      assert GrantInv(s.procs[q], s.resource) && ProcInv(s.procs[q], q, s.log, |s.procs|);
    }
  }

  lemma RequestedLive(s: System, p: nat)
    requires Inv(s) && p < |s.procs| && !s.procs[p].waiting
    ensures LiveInv(s.procs[p := Request(s.procs[p], p)], s.log + [RequestMessage(s.procs[p], p)])
  {
    var m, procs' := RequestMessage(s.procs[p], p), s.procs[p := Request(s.procs[p], p)];
    assert ProcInv(s.procs[p], p, s.log, |s.procs|);
    forall ts
      ensures Pending(s.log + [m], |s.log + [m]|, ts) <==> Owns(procs', ts)
    {
      PendingNext(s.log, m, ts);
      assert Pending(s.log, |s.log|, ts) <==> Owns(s.procs, ts);
      if ts == m.timestamp && LetGo(s.log, |s.log|, ts) {
        NotYetUsed(s, p, ts);
      }
    }
  }

  /** The time of the next own message was not used before. */
  lemma NotYetUsed(s: System, p: nat, ts: Timestamp)
    requires Inv(s) && p < |s.procs| && ts.process == p && ts.time > s.procs[p].clock
    ensures !Asked(s.log, |s.log|, ts) && !LetGo(s.log, |s.log|, ts)
  {
    assert ProcInv(s.procs[p], p, s.log, |s.procs|);
  }

  lemma RequestStep(s: System, p: nat)
    requires Inv(s) && Enabled(s, MakeRequest(p))
    ensures Inv(Next(s, MakeRequest(p)))
  {
    var pr := s.procs[p];
    var m, s' := RequestMessage(pr, p), Next(s, MakeRequest(p));
    assert ProcInv(pr, p, s.log, |s.procs|);
    RequestKeeps(pr, p, s.log, |s.procs|);
    LogInvGrows(s.log, |s.procs|, m);
    OthersAfterSend(s, p, Request(pr, p), m);
    ResourceGrows(s.resource, s.log, m);
    RequestedLive(s, p);
    forall q | 0 <= q < |s'.procs|
      ensures GrantInv(s'.procs[q], s'.resource)
    {
      assert GrantInv(s.procs[q], s.resource);
    }
    if s.resource.occupiedBy.Some? {
      assert Owns(s.procs, s.resource.occupiedBy.value);
    }
  }

  lemma StepKeeps(s: System, e: Event)
    requires Inv(s) && Enabled(s, e)
    ensures Inv(Next(s, e))
  {
    match e
    case TakeMessage(p) => TakeStep(s, p);
    case RecordTime(p) => RecordStep(s, p);
    case QueueRequest(p) => QueueStep(s, p);
    case SendAck(p) => AckStep(s, p);
    case DropRequest(p) => DropStep(s, p);
    case CheckRule5(p) => CheckStep(s, p);
    case ReleaseResource(p) => ReleaseStep(s, p);
    case FinishRelease(p) => FinishStep(s, p);
    case MakeRequest(p) => RequestStep(s, p);
  }
}
