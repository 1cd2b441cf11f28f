/** The invariant of the mutual exclusion system. */
module MutexInvariant {
  import opened Options
  import opened MutexTimestamp
  import opened MutexProcess
  import opened MutexSystem

  /* ---------- The stream ---------- */

  ghost predicate MsgOk(m: Message, n: nat) {
    && 0 <= m.from < n && m.msgTime > 0
    && match m.msgType
       case RequestResource => m.timestamp == Timestamp(m.msgTime, m.from) && m.to == OTHERS
       case ReleaseResource => m.timestamp.process == m.from && m.to == OTHERS
       case Acknowledgment => 0 <= m.to < n && m.to != m.from
  }

  /** Message i of the stream is the request, or the release, of ts. */
  ghost predicate AskAt(log: seq<Message>, i: int, ts: Timestamp) {
    0 <= i < |log| && log[i].msgType == RequestResource && log[i].timestamp == ts
  }

  ghost predicate LetGoAt(log: seq<Message>, i: int, ts: Timestamp) {
    0 <= i < |log| && log[i].msgType == MsgType.ReleaseResource && log[i].timestamp == ts
  }

  /** Among the first k messages there is the request of ts, or its release. */
  ghost predicate Asked(log: seq<Message>, k: int, ts: Timestamp) {
    exists i :: i < k && AskAt(log, i, ts)
  }

  ghost predicate LetGo(log: seq<Message>, k: int, ts: Timestamp) {
    exists i :: i < k && LetGoAt(log, i, ts)
  }

  /** After k messages, ts is requested and not yet released. */
  ghost predicate Pending(log: seq<Message>, k: int, ts: Timestamp) {
    Asked(log, k, ts) && !LetGo(log, k, ts)
  }

  /** Each sender's times increase along the stream. */
  ghost predicate Increasing(log: seq<Message>) {
    forall i, j :: 0 <= i < j < |log| && log[i].from == log[j].from ==> log[i].msgTime < log[j].msgTime
  }

  /** A release follows its request and happens once. */
  ghost predicate ReleasesOnce(log: seq<Message>) {
    && (forall j, ts {:trigger LetGoAt(log, j, ts)} :: LetGoAt(log, j, ts) ==> Asked(log, j, ts))
    && (forall i, j, ts {:trigger LetGoAt(log, i, ts), LetGoAt(log, j, ts)} ::
      LetGoAt(log, i, ts) && LetGoAt(log, j, ts) ==> i == j)
  }

  ghost predicate LogInv(log: seq<Message>, n: nat) {
    && (forall i :: 0 <= i < |log| ==> MsgOk(log[i], n))
    && Increasing(log)
    && ReleasesOnce(log)
  }

  /* ---------- One process and the stream ---------- */

  /** The process holds the message it took last, at a stage for messages of that type. */
  ghost predicate StageInv(pr: Proc, p: int, log: seq<Message>, n: nat) {
    && |pr.received| == n && pr.cursor <= |log|
    && match pr.stage
       case Idle => true
       case Checking => true
       case Received(m) => pr.cursor > 0 && m == log[pr.cursor - 1] && For(m, p)
       case Queueing(m) => pr.cursor > 0 && m == log[pr.cursor - 1] && For(m, p) && m.msgType == RequestResource
       case Acking(m) => pr.cursor > 0 && m == log[pr.cursor - 1] && For(m, p) && m.msgType == RequestResource
       case Dequeueing(m) =>
         pr.cursor > 0 && m == log[pr.cursor - 1] && For(m, p) && m.msgType == MsgType.ReleaseResource
  }

  /** The clock has reached what the process sent and passed what it received. */
  ghost predicate ClockInv(pr: Proc, p: int, log: seq<Message>) {
    && pr.clock > 0
    && (forall i :: 0 <= i < |log| && log[i].from == p ==> log[i].msgTime <= pr.clock)
    && (forall i :: 0 <= i < |log| && i < Timed(pr) && For(log[i], p) ==> log[i].msgTime < pr.clock)
  }

  /** Message i was recorded by p and came from q. */
  ghost predicate Recorded(pr: Proc, p: int, log: seq<Message>, i: int, q: int) {
    0 <= i < |log| && i < Timed(pr) && log[i].from == q && For(log[i], p)
  }

  /** received[q] is the time of a message of q that was recorded, and of none a later one was. */
  ghost predicate ReceivedInv(pr: Proc, p: int, log: seq<Message>, q: int)
    requires 0 <= q < |pr.received|
  {
    && (pr.received[q] == 0 || exists i :: Recorded(pr, p, log, i, q) && log[i].msgTime == pr.received[q])
    && (forall i {:trigger Recorded(pr, p, log, i, q)} :: Recorded(pr, p, log, i, q) ==> log[i].msgTime <= pr.received[q])
  }

  /** The queue is the requests of others in the part of the stream dealt with that have no release there, and the own one. */
  ghost predicate InQueue(pr: Proc, p: int, log: seq<Message>, ts: Timestamp) {
    if ts.process == p then pr.requestTimestamp == Some(ts) else Pending(log, Queued(pr), ts)
  }

  ghost predicate QueueInv(pr: Proc, p: int, log: seq<Message>) {
    forall ts {:trigger ts in pr.queue} {:trigger InQueue(pr, p, log, ts)} :: ts in pr.queue <==> InQueue(pr, p, log, ts)
  }

  /** Process p answered the request at position i. */
  ghost predicate Answered(log: seq<Message>, i: int, p: int) {
    0 <= i < |log| && exists k :: 0 <= k < |log| && AnswersAt(log, i, p, k)
  }

  ghost predicate AnswersAt(log: seq<Message>, i: int, p: int, k: int)
    requires 0 <= i < |log| && 0 <= k < |log|
  {
    && log[k].from == p && log[k].msgType == Acknowledgment && log[k].to == log[i].from
    && log[k].msgTime > log[i].msgTime
  }

  ghost predicate AckInv(pr: Proc, p: int, log: seq<Message>) {
    forall i {:trigger Answered(log, i, p)} ::
      0 <= i < |log| && i < Acked(pr) && log[i].from != p && log[i].msgType == RequestResource ==> Answered(log, i, p)
  }

  ghost predicate FlagsInv(pr: Proc, p: int) {
    && (pr.requestTimestamp.Some? ==> pr.waiting && pr.requestTimestamp.value.process == p)
    && (pr.isOccupying ==> pr.requestTimestamp.Some?)
  }

  /** No wake-up is missed: the listener rests only while Rule 5 fails. */
  ghost predicate WakeInv(pr: Proc, p: int) {
    |pr.received| >= 2 && (pr.stage.Idle? || pr.stage.Received?) ==> !Rule5(pr, p)
  }

  ghost predicate ProcInv(pr: Proc, p: int, log: seq<Message>, n: nat) {
    && StageInv(pr, p, log, n) && ClockInv(pr, p, log)
    && (forall q {:trigger ReceivedInv(pr, p, log, q)} :: 0 <= q < n && q != p ==> ReceivedInv(pr, p, log, q))
    && QueueInv(pr, p, log) && AckInv(pr, p, log) && FlagsInv(pr, p) && WakeInv(pr, p)
  }

  /* ---------- The whole system ---------- */

  ghost predicate Owns(procs: seq<Proc>, ts: Timestamp) {
    0 <= ts.process < |procs| && procs[ts.process].requestTimestamp == Some(ts)
  }

  /** The requests without a release are exactly those the processes hold. */
  ghost predicate LiveInv(procs: seq<Proc>, log: seq<Message>) {
    forall ts {:trigger Owns(procs, ts)} {:trigger Pending(log, |log|, ts)} :: Pending(log, |log|, ts) <==> Owns(procs, ts)
  }

  /** The timestamp that has the resource, or had it last. */
  function Current(r: Resource): Timestamp {
    match r.occupiedBy
    case None => r.lastOccupiedBy
    case Some(ts) => ts
  }

  /** Process p has the resource, or its request comes after everything granted so far, and so will its next one. */
  ghost predicate GrantInv(pr: Proc, r: Resource) {
    && pr.clock >= Current(r).time
    && (pr.isOccupying ==> pr.requestTimestamp.Some? && r.occupiedBy == pr.requestTimestamp)
    && (pr.requestTimestamp.Some? && !pr.isOccupying ==> Current(r).Less(pr.requestTimestamp.value))
  }

  /** Grants went out in the order of the timestamps, and released requests had one. */
  ghost predicate ResourceInv(r: Resource, log: seq<Message>) {
    && Sorted(r.timestamps)
    && (r.timestamps == [] ==> r.occupiedBy.None? && r.lastOccupiedBy == Timestamp(-1, -1))
    && (r.timestamps != [] ==> Current(r) == r.timestamps[|r.timestamps| - 1])
    && (forall i, ts {:trigger LetGoAt(log, i, ts)} :: LetGoAt(log, i, ts) ==> ts in r.timestamps)
    && (forall ts :: ts in r.timestamps ==> Asked(log, |log|, ts))
  }

  ghost predicate HolderInv(procs: seq<Proc>, r: Resource) {
    r.occupiedBy.Some? ==> Owns(procs, r.occupiedBy.value) && procs[r.occupiedBy.value.process].isOccupying
  }

  ghost predicate Inv(s: System) {
    && s.panic.None? && |s.seen| == |s.log|
    && LogInv(s.log, |s.procs|)
    && (forall p {:trigger ProcInv(s.procs[p], p, s.log, |s.procs|)} ::
      0 <= p < |s.procs| ==> ProcInv(s.procs[p], p, s.log, |s.procs|))
    && (forall p {:trigger GrantInv(s.procs[p], s.resource)} :: 0 <= p < |s.procs| ==> GrantInv(s.procs[p], s.resource))
    && LiveInv(s.procs, s.log)
    && ResourceInv(s.resource, s.log)
    && HolderInv(s.procs, s.resource)
  }

  lemma InitInv(n: nat, s: System)
    requires Init(n, s)
    ensures Inv(s)
  {
    forall p | 0 <= p < |s.procs|
      ensures ProcInv(s.procs[p], p, s.log, |s.procs|) && GrantInv(s.procs[p], s.resource)
    {
      forall q | 0 <= q < n && q != p
        ensures ReceivedInv(s.procs[p], p, s.log, q)
      {
      }
    }
  }
}
