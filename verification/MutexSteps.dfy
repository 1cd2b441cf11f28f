/**
 * Every step keeps the invariant of the mutual exclusion system: the part about one process and the stream. First
 * what a longer stream changes (nothing, for what was read), then each critical section of the listener, then the
 * three that send a message.
 */
module MutexSteps {
  import opened MutexTimestamp
  import opened MutexProcess
  import opened MutexInvariant

  /* ---------- A longer stream ---------- */

  lemma AskedGrows(log: seq<Message>, m: Message, k: int, ts: Timestamp)
    requires k <= |log|
    ensures Asked(log + [m], k, ts) <==> Asked(log, k, ts)
    ensures LetGo(log + [m], k, ts) <==> LetGo(log, k, ts)
    ensures Pending(log + [m], k, ts) <==> Pending(log, k, ts)
  {
    var log' := log + [m];
    forall i | i < k
      ensures AskAt(log', i, ts) <==> AskAt(log, i, ts)
      ensures LetGoAt(log', i, ts) <==> LetGoAt(log, i, ts)
    {
    }
    if Asked(log', k, ts) {
      var i :| i < k && AskAt(log', i, ts);
      assert AskAt(log, i, ts);
    }
    if Asked(log, k, ts) {
      var i :| i < k && AskAt(log, i, ts);
      assert AskAt(log', i, ts);
    }
    if LetGo(log', k, ts) {
      var i :| i < k && LetGoAt(log', i, ts);
      assert LetGoAt(log, i, ts);
    }
    if LetGo(log, k, ts) {
      var i :| i < k && LetGoAt(log, i, ts);
      assert LetGoAt(log', i, ts);
    }
  }

  /** The effect of message k on what is asked and let go. */
  lemma AskedNext(log: seq<Message>, k: nat, ts: Timestamp)
    requires k < |log|
    ensures Asked(log, k + 1, ts) <==> Asked(log, k, ts) || AskAt(log, k, ts)
    ensures LetGo(log, k + 1, ts) <==> LetGo(log, k, ts) || LetGoAt(log, k, ts)
  {
    if Asked(log, k + 1, ts) {
      var i :| i < k + 1 && AskAt(log, i, ts);
    }
    if LetGo(log, k + 1, ts) {
      var i :| i < k + 1 && LetGoAt(log, i, ts);
    }
  }

  /** What the new last message does. */
  lemma PendingNext(log: seq<Message>, m: Message, ts: Timestamp)
    ensures Asked(log + [m], |log| + 1, ts) <==> Asked(log, |log|, ts) || (m.msgType == RequestResource && m.timestamp == ts)
    ensures LetGo(log + [m], |log| + 1, ts) <==>
      LetGo(log, |log|, ts) || (m.msgType == MsgType.ReleaseResource && m.timestamp == ts)
  {
    AskedGrows(log, m, |log|, ts);
    AskedNext(log + [m], |log|, ts);
  }

  lemma AnsweredGrows(log: seq<Message>, m: Message, i: int, p: int)
    requires Answered(log, i, p)
    ensures Answered(log + [m], i, p)
  {
    var k :| 0 <= k < |log| && AnswersAt(log, i, p, k);
    assert AnswersAt(log + [m], i, p, k);
  }

  lemma ReceivedGrows(pr: Proc, p: int, log: seq<Message>, m: Message, q: int)
    requires 0 <= q < |pr.received| && pr.cursor <= |log| && ReceivedInv(pr, p, log, q)
    ensures ReceivedInv(pr, p, log + [m], q)
  {
    var log' := log + [m];
    forall i | Recorded(pr, p, log', i, q)
      ensures log'[i].msgTime <= pr.received[q]
    {
      assert Recorded(pr, p, log, i, q);
    }
    if pr.received[q] != 0 {
      var i :| Recorded(pr, p, log, i, q) && log[i].msgTime == pr.received[q];
      assert Recorded(pr, p, log', i, q);
    }
  }

  lemma QueueGrows(pr: Proc, p: int, log: seq<Message>, m: Message)
    requires pr.cursor <= |log| && QueueInv(pr, p, log)
    ensures QueueInv(pr, p, log + [m])
  {
    forall ts
      ensures ts in pr.queue <==> InQueue(pr, p, log + [m], ts)
    {
      AskedGrows(log, m, Queued(pr), ts);
      assert ts in pr.queue <==> InQueue(pr, p, log, ts);
    }
  }

  lemma AcksGrow(pr: Proc, p: int, log: seq<Message>, m: Message)
    requires pr.cursor <= |log| && AckInv(pr, p, log)
    ensures AckInv(pr, p, log + [m])
  {
    var log' := log + [m];
    forall i | 0 <= i < |log'| && i < Acked(pr) && log'[i].from != p && log'[i].msgType == RequestResource
      ensures Answered(log', i, p)
    {
      assert Answered(log, i, p);
      AnsweredGrows(log, m, i, p);
    }
  }

  /** Another process's message leaves this one's invariant alone. */
  lemma ProcInvGrows(pr: Proc, p: int, log: seq<Message>, n: nat, m: Message)
    requires ProcInv(pr, p, log, n) && m.from != p
    ensures ProcInv(pr, p, log + [m], n)
  {
    forall q | 0 <= q < n && q != p
      ensures ReceivedInv(pr, p, log + [m], q)
    {
      assert ReceivedInv(pr, p, log, q);
      ReceivedGrows(pr, p, log, m, q);
    }
    QueueGrows(pr, p, log, m);
    AcksGrow(pr, p, log, m);
  }

  /** A sender's next message keeps the invariant of the stream. */
  lemma LogInvGrows(log: seq<Message>, n: nat, m: Message)
    requires LogInv(log, n) && MsgOk(m, n)
    requires forall i :: 0 <= i < |log| && log[i].from == m.from ==> log[i].msgTime < m.msgTime
    requires m.msgType == MsgType.ReleaseResource ==> Pending(log, |log|, m.timestamp)
    ensures LogInv(log + [m], n)
  {
    var log' := log + [m];
    forall j, ts | LetGoAt(log', j, ts)
      ensures Asked(log', j, ts)
      ensures forall i | LetGoAt(log', i, ts) :: i == j
    {
      AskedGrows(log, m, j, ts);
      if j < |log| {
        assert LetGoAt(log, j, ts);
      }
      forall i | LetGoAt(log', i, ts)
        ensures i == j
      {
        if i < |log| {
          assert LetGoAt(log, i, ts);
        }
      }
    }
  }

  /* ---------- The listener ---------- */

  lemma SameRecords(pr: Proc, pr': Proc, p: int, log: seq<Message>, n: nat)
    requires pr'.received == pr.received && Timed(pr') == Timed(pr) && |pr.received| == n
    requires forall q {:trigger ReceivedInv(pr, p, log, q)} :: 0 <= q < n && q != p ==> ReceivedInv(pr, p, log, q)
    ensures forall q {:trigger ReceivedInv(pr', p, log, q)} :: 0 <= q < n && q != p ==> ReceivedInv(pr', p, log, q)
  {
    forall q | 0 <= q < n && q != p
      ensures ReceivedInv(pr', p, log, q)
    {
      assert ReceivedInv(pr, p, log, q);
      forall i
        ensures Recorded(pr', p, log, i, q) <==> Recorded(pr, p, log, i, q)
      {
      }
    }
  }

  lemma TakeKeepsTimes(pr: Proc, p: int, log: seq<Message>, n: nat, q: int)
    requires StageInv(pr, p, log, n) && pr.stage.Idle? && pr.cursor < |log| && 0 <= q < n && ReceivedInv(pr, p, log, q)
    ensures ReceivedInv(Take(pr, p, log[pr.cursor]), p, log, q)
  {
    var pr' := Take(pr, p, log[pr.cursor]);
    forall i
      ensures Recorded(pr', p, log, i, q) <==> Recorded(pr, p, log, i, q)
    {
    }
  }

  lemma TakeKeepsQueue(pr: Proc, p: int, log: seq<Message>, n: nat)
    requires StageInv(pr, p, log, n) && pr.stage.Idle? && pr.cursor < |log| && MsgOk(log[pr.cursor], n) && QueueInv(pr, p, log)
    ensures QueueInv(Take(pr, p, log[pr.cursor]), p, log)
  {
    var pr' := Take(pr, p, log[pr.cursor]);
    forall ts
      ensures ts in pr'.queue <==> InQueue(pr', p, log, ts)
    {
      AskedNext(log, pr.cursor, ts);
      assert ts in pr.queue <==> InQueue(pr, p, log, ts);
    }
  }

  /** A message the listener skips is neither a request nor a release of somebody else. */
  lemma TakeKeeps(pr: Proc, p: int, log: seq<Message>, n: nat)
    requires LogInv(log, n) && ProcInv(pr, p, log, n) && pr.stage.Idle? && pr.cursor < |log|
    ensures ProcInv(Take(pr, p, log[pr.cursor]), p, log, n)
  {
    var m, k := log[pr.cursor], pr.cursor;
    var pr' := Take(pr, p, m);
    assert MsgOk(m, n);
    forall q | 0 <= q < n && q != p
      ensures ReceivedInv(pr', p, log, q)
    {
      assert ReceivedInv(pr, p, log, q);
      TakeKeepsTimes(pr, p, log, n, q);
    }
    TakeKeepsQueue(pr, p, log, n);
    forall i | 0 <= i < |log| && i < Acked(pr') && log[i].from != p && log[i].msgType == RequestResource
      ensures Answered(log, i, p)
    {
    }
  }

  lemma RecordKeepsTimes(pr: Proc, p: int, log: seq<Message>, n: nat, q: int)
    requires LogInv(log, n) && StageInv(pr, p, log, n) && pr.stage.Received? && 0 <= q < n && q != p
    requires ReceivedInv(pr, p, log, q)
    ensures ReceivedInv(UpdateTime(pr, pr.stage.msg), p, log, q)
  {
    var m, k := pr.stage.msg, pr.cursor - 1;
    var pr' := UpdateTime(pr, m);
    assert MsgOk(m, n);
    if q == m.from {
      assert Recorded(pr', p, log, k, q);
      forall i | Recorded(pr', p, log, i, q)
        ensures log[i].msgTime <= pr'.received[q]
      {
        assert i < k ==> log[i].msgTime < log[k].msgTime;
      }
    } else {
      forall i
        ensures Recorded(pr', p, log, i, q) <==> Recorded(pr, p, log, i, q)
      {
      }
    }
  }

  lemma RecordKeepsQueue(pr: Proc, p: int, log: seq<Message>, n: nat)
    requires StageInv(pr, p, log, n) && pr.stage.Received? && MsgOk(pr.stage.msg, n) && 0 <= pr.stage.msg.from < |pr.received|
    requires QueueInv(pr, p, log)
    ensures QueueInv(UpdateTime(pr, pr.stage.msg), p, log)
  {
    var pr' := UpdateTime(pr, pr.stage.msg);
    forall ts
      ensures ts in pr'.queue <==> InQueue(pr', p, log, ts)
    {
      AskedNext(log, pr.cursor - 1, ts);
      assert ts in pr.queue <==> InQueue(pr, p, log, ts);
    }
  }

  lemma RecordKeeps(pr: Proc, p: int, log: seq<Message>, n: nat)
    requires LogInv(log, n) && ProcInv(pr, p, log, n) && pr.stage.Received?
    ensures 0 <= pr.stage.msg.from < |pr.received| && ProcInv(UpdateTime(pr, pr.stage.msg), p, log, n)
  {
    var m := pr.stage.msg;
    assert MsgOk(m, n);
    forall q | 0 <= q < n && q != p
      ensures ReceivedInv(UpdateTime(pr, m), p, log, q)
    {
      assert ReceivedInv(pr, p, log, q);
      RecordKeepsTimes(pr, p, log, n, q);
    }
    RecordKeepsQueue(pr, p, log, n);
  }

  /** A request that is queued was neither requested nor released in the part of the stream dealt with. */
  lemma QueuedIsNew(pr: Proc, p: int, log: seq<Message>, n: nat)
    requires LogInv(log, n) && ProcInv(pr, p, log, n) && pr.stage.Queueing?
    ensures pr.stage.msg.timestamp !in pr.queue && !LetGo(log, pr.cursor, pr.stage.msg.timestamp)
    ensures Pending(log, pr.cursor, pr.stage.msg.timestamp)
  {
    var ts, k := pr.stage.msg.timestamp, pr.cursor - 1;
    assert MsgOk(log[k], n);
    assert AskAt(log, k, ts);
    OnceAsked(log, n, ts, k);
    assert ts in pr.queue <==> InQueue(pr, p, log, ts);
  }

  /** A timestamp is requested once. */
  lemma OnceAsked(log: seq<Message>, n: nat, ts: Timestamp, k: int)
    requires LogInv(log, n) && AskAt(log, k, ts)
    ensures forall i :: AskAt(log, i, ts) ==> i == k
    ensures !Asked(log, k, ts)
  {
    forall i | AskAt(log, i, ts)
      ensures i == k
    {
      assert MsgOk(log[i], n) && MsgOk(log[k], n);
    }
  }

  lemma PushKeeps(pr: Proc, p: int, log: seq<Message>, n: nat)
    requires LogInv(log, n) && ProcInv(pr, p, log, n) && pr.stage.Queueing?
    ensures ProcInv(PushRequest(pr, pr.stage.msg), p, log, n)
  {
    var m, k := pr.stage.msg, pr.cursor - 1;
    var pr' := PushRequest(pr, m);
    assert MsgOk(log[k], n);
    SameRecords(pr, pr', p, log, n);
    QueuedIsNew(pr, p, log, n);
    forall ts
      ensures ts in pr'.queue <==> InQueue(pr', p, log, ts)
    {
      AskedNext(log, k, ts);
      assert ts in pr.queue <==> InQueue(pr, p, log, ts);
    }
  }

  /** A release never meets a missing request. */
  lemma ReleasedIsQueued(pr: Proc, p: int, log: seq<Message>, n: nat)
    requires LogInv(log, n) && ProcInv(pr, p, log, n) && pr.stage.Dequeueing?
    ensures pr.stage.msg.timestamp in pr.queue
  {
    var ts, k := pr.stage.msg.timestamp, pr.cursor - 1;
    assert MsgOk(log[k], n);
    assert LetGoAt(log, k, ts);
    assert Asked(log, k, ts);
    assert ts in pr.queue <==> InQueue(pr, p, log, ts);
  }

  lemma DropKeeps(pr: Proc, p: int, log: seq<Message>, n: nat)
    requires LogInv(log, n) && ProcInv(pr, p, log, n) && pr.stage.Dequeueing?
    ensures ProcInv(RemoveRequest(pr, pr.stage.msg), p, log, n)
  {
    var m, k := pr.stage.msg, pr.cursor - 1;
    var pr' := RemoveRequest(pr, m);
    assert MsgOk(log[k], n);
    SameRecords(pr, pr', p, log, n);
    assert LetGoAt(log, k, m.timestamp);
    forall ts
      ensures ts in pr'.queue <==> InQueue(pr', p, log, ts)
    {
      AskedNext(log, k, ts);
      assert ts in pr.queue <==> InQueue(pr, p, log, ts);
    }
  }

  lemma CheckKeeps(pr: Proc, p: int, log: seq<Message>, n: nat)
    requires ProcInv(pr, p, log, n) && pr.stage.Checking?
    ensures ProcInv(if Rule5(pr, p) then Occupy(pr) else pr.(stage := Idle), p, log, n)
  {
    var pr' := if Rule5(pr, p) then Occupy(pr) else pr.(stage := Idle);
    SameRecords(pr, pr', p, log, n);
    forall ts
      ensures ts in pr'.queue <==> InQueue(pr', p, log, ts)
    {
      assert ts in pr.queue <==> InQueue(pr, p, log, ts);
    }
  }

  lemma FinishKeeps(pr: Proc, p: int, log: seq<Message>, n: nat)
    requires ProcInv(pr, p, log, n) && pr.requestTimestamp.None?
    ensures ProcInv(pr.(waiting := false), p, log, n)
  {
    var pr' := pr.(waiting := false);
    SameRecords(pr, pr', p, log, n);
    forall ts
      ensures ts in pr'.queue <==> InQueue(pr', p, log, ts)
    {
      assert ts in pr.queue <==> InQueue(pr, p, log, ts);
    }
  }

  /* ---------- Sending ---------- */

  /** What a process that sends m keeps, except for its queue, its acknowledgments and its flags. */
  lemma SendKeepsTimes(pr: Proc, pr': Proc, p: int, log: seq<Message>, n: nat, m: Message)
    requires ProcInv(pr, p, log, n) && m.from == p && m.msgTime == pr.clock + 1 == pr'.clock
    requires pr'.received == pr.received && pr'.cursor == pr.cursor && Timed(pr') == Timed(pr)
    ensures ClockInv(pr', p, log + [m])
    ensures forall q {:trigger ReceivedInv(pr', p, log + [m], q)} ::
      0 <= q < n && q != p ==> ReceivedInv(pr', p, log + [m], q)
  {
    SameRecords(pr, pr', p, log, n);
    forall q | 0 <= q < n && q != p
      ensures ReceivedInv(pr', p, log + [m], q)
    {
      assert ReceivedInv(pr', p, log, q);
      ReceivedGrows(pr', p, log, m, q);
    }
  }

  lemma AckKeeps(pr: Proc, p: int, log: seq<Message>, n: nat)
    requires 0 <= p < n && LogInv(log, n) && ProcInv(pr, p, log, n) && pr.stage.Acking?
    ensures MsgOk(AckMessage(pr, p, pr.stage.msg), n)
    ensures ProcInv(Ack(pr), p, log + [AckMessage(pr, p, pr.stage.msg)], n)
  {
    var k, m, pr' := pr.cursor - 1, AckMessage(pr, p, pr.stage.msg), Ack(pr);
    var log' := log + [m];
    assert MsgOk(log[k], n);
    SendKeepsTimes(pr, pr', p, log, n, m);
    QueueGrows(pr, p, log, m);
    forall ts
      ensures ts in pr'.queue <==> InQueue(pr', p, log', ts)
    {
      assert ts in pr.queue <==> InQueue(pr, p, log', ts);
    }
    AcksGrow(pr, p, log, m);
    forall i | 0 <= i < |log'| && i < Acked(pr') && log'[i].from != p && log'[i].msgType == RequestResource
      ensures Answered(log', i, p)
    {
      if i == k {
        assert AnswersAt(log', k, p, |log|);
      }
    }
  }

  lemma ReleaseKeeps(pr: Proc, p: int, log: seq<Message>, n: nat)
    requires 0 <= p < n && LogInv(log, n) && ProcInv(pr, p, log, n) && pr.isOccupying
    ensures pr.requestTimestamp.Some? && pr.requestTimestamp.value in pr.queue && MsgOk(ReleaseMessage(pr, p), n)
    ensures ProcInv(Release(pr), p, log + [ReleaseMessage(pr, p)], n)
  {
    var own, m, pr' := pr.requestTimestamp.value, ReleaseMessage(pr, p), Release(pr);
    var log' := log + [m];
    SendKeepsTimes(pr, pr', p, log, n, m);
    QueueGrows(pr, p, log, m);
    assert own in pr.queue <==> InQueue(pr, p, log, own);
    forall ts
      ensures ts in pr'.queue <==> InQueue(pr', p, log', ts)
    {
      assert ts in pr.queue <==> InQueue(pr, p, log', ts);
    }
    AcksGrow(pr, p, log, m);
    forall i | 0 <= i < |log'| && i < Acked(pr') && log'[i].from != p && log'[i].msgType == RequestResource
      ensures Answered(log', i, p)
    {
    }
  }

  /** A fresh request is later than everything received, so Rule 5 cannot hold for it yet. */
  lemma FreshRequestWaits(pr: Proc, p: int, log: seq<Message>, n: nat, q: int)
    requires ProcInv(pr, p, log, n) && 0 <= q < n && q != p
    ensures pr.received[q] < pr.clock
  {
    assert ReceivedInv(pr, p, log, q);
    if pr.received[q] != 0 {
      var i :| Recorded(pr, p, log, i, q) && log[i].msgTime == pr.received[q];
    }
  }

  lemma RequestWaits(pr: Proc, p: int, log: seq<Message>, n: nat)
    requires 0 <= p < n && ProcInv(pr, p, log, n)
    ensures WakeInv(Request(pr, p), p)
  {
    if n >= 2 {
      var q := if p == 0 then 1 else 0;
      FreshRequestWaits(pr, p, log, n, q);
    }
  }

  lemma RequestKeeps(pr: Proc, p: int, log: seq<Message>, n: nat)
    requires 0 <= p < n && LogInv(log, n) && ProcInv(pr, p, log, n) && !pr.waiting
    ensures MsgOk(RequestMessage(pr, p), n) && Timestamp(pr.clock + 1, p) !in pr.queue
    ensures ProcInv(Request(pr, p), p, log + [RequestMessage(pr, p)], n)
  {
    var own, m, pr' := Timestamp(pr.clock + 1, p), RequestMessage(pr, p), Request(pr, p);
    var log' := log + [m];
    SendKeepsTimes(pr, pr', p, log, n, m);
    QueueGrows(pr, p, log, m);
    assert own in pr.queue <==> InQueue(pr, p, log, own);
    forall ts
      ensures ts in pr'.queue <==> InQueue(pr', p, log', ts)
    {
      assert ts in pr.queue <==> InQueue(pr, p, log', ts);
    }
    AcksGrow(pr, p, log, m);
    forall i | 0 <= i < |log'| && i < Acked(pr') && log'[i].from != p && log'[i].msgType == RequestResource
      ensures Answered(log', i, p)
    {
    }
    RequestWaits(pr, p, log, n);
  }
}
