/** Mutual exclusion: what each section must do. */
module MutexLaws {
  // What each critical section of a process does, said over the fields of process and message alone: first for every
  // process and message, then for every step of every run.

  import opened Options
  import opened MutexTimestamp
  import opened MutexProcess
  import opened MutexSystem
  import opened MutexInvariant
  import opened MutexSteps
  import opened MutexTheorems
  import opened MutexFairness

  /* ---------- Timestamps ---------- */

  /** An earlier time comes first, whatever the processes; of equal times the lower process comes first. */
  lemma TimeComesFirst(a: Timestamp, b: Timestamp, t: int)
    ensures a.Less(b) <==> a.time < b.time || (a.time <= b.time && a.process < b.process)
    ensures a.IsEqual(Some(b)) <==> a == b
    ensures !a.IsEqual(None)
    ensures a.IsBefore(t) <==> !(t <= a.time)
  {
  }

  /* ---------- The listener ---------- */

  /** A message that p put on the stream itself, or an acknowledgment to somebody else. */
  predicate NotFor(m: Message, p: int) {
    m.from == p || (m.msgType == Acknowledgment && m.to != p)
  }

  /** Taking a message leaves the listener at rest exactly if it is its own or an acknowledgment to somebody else. */
  lemma SkippedIff(pr: Proc, p: int, m: Message)
    ensures var pr' := Take(pr, p, m);
            && (pr'.stage == Idle <==> m.from == p || (m.msgType == Acknowledgment && m.to != p))
            && (pr'.stage != Idle ==> pr'.stage == Received(m))
            && pr'.cursor == pr.cursor + 1
            && pr' == pr.(cursor := pr'.cursor, stage := pr'.stage)
  {
  }

  /** The clock passes the time of the message and moves no further than it must; the time is noted for its sender. */
  lemma TimeIsRecorded(pr: Proc, m: Message)
    requires 0 <= m.from < |pr.received|
    ensures var pr' := UpdateTime(pr, m);
            && pr'.clock >= pr.clock && pr'.clock > m.msgTime && (pr'.clock == pr.clock || pr'.clock == m.msgTime + 1)
            && |pr'.received| == |pr.received| && pr'.received[m.from] == m.msgTime
            && (forall q :: 0 <= q < |pr.received| && q != m.from ==> pr'.received[q] == pr.received[q])
            && (m.msgType == RequestResource ==> pr'.stage == Queueing(m))
            && (m.msgType == MsgType.ReleaseResource ==> pr'.stage == Dequeueing(m))
            && (m.msgType == Acknowledgment ==> pr'.stage == Checking)
            && pr' == pr.(clock := pr'.clock, received := pr'.received, stage := pr'.stage)
  {
  }

  /** Rule 2: a request is queued, and its sender gets an acknowledgment with a new time. */
  lemma RequestIsAnswered(pr: Proc, p: int, m: Message)
    ensures var pr' := PushRequest(pr, m);
            && (forall t :: t in pr'.queue <==> t in pr.queue || t == m.timestamp)
            && pr'.stage == Acking(m) && pr' == pr.(queue := pr'.queue, stage := pr'.stage)
    ensures var pr', a := Ack(pr), AckMessage(pr, p, m);
            && pr'.clock == pr.clock + 1 == a.msgTime && pr'.stage == Checking
            && pr' == pr.(clock := pr'.clock, stage := pr'.stage)
            && a.msgType == Acknowledgment && a.from == p && a.to == m.from && a.timestamp == m.timestamp
  {
  }

  /** Rule 4: a release takes the request out of the queue. */
  lemma ReleaseIsCarriedOut(pr: Proc, m: Message)
    ensures var pr' := RemoveRequest(pr, m);
            && (forall t :: t in pr'.queue <==> t in pr.queue && t != m.timestamp)
            && pr'.stage == Checking && pr' == pr.(queue := pr'.queue, stage := pr'.stage)
  {
  }

  /** The request of p comes before all others in its queue, and everybody has sent p something of a later time. */
  ghost predicate MayEnter(pr: Proc, p: int) {
    && !pr.isOccupying && pr.requestTimestamp.Some?
    && var ts := pr.requestTimestamp.value;
    && ts in pr.queue
    && (forall t :: t in pr.queue && t != ts ==> ts.time < t.time || (ts.time == t.time && ts.process < t.process))
    && (forall q :: 0 <= q < |pr.received| && q != p ==> pr.received[q] > ts.time)
  }

  lemma Rule5Iff(pr: Proc, p: int)
    ensures Rule5(pr, p) <==> MayEnter(pr, p)
    ensures Occupy(pr) == pr.(isOccupying := true, stage := Idle)
  {
    if MayEnter(pr, p) {
      assert IsLeast(pr.requestTimestamp.value, pr.queue);
    }
  }

  /* ---------- Requests and releases ---------- */

  /** Rule 1: a request has the next time of its process, goes to all others and into the own queue. */
  lemma RequestIsMade(pr: Proc, p: int)
    ensures var pr', m := Request(pr, p), RequestMessage(pr, p);
            && m.msgType == RequestResource && m.from == p && m.to == -1
            && m.msgTime == pr'.clock == pr.clock + 1 && m.timestamp.time == m.msgTime && m.timestamp.process == p
            && (forall t :: t in pr'.queue <==> t in pr.queue || t == m.timestamp)
            && pr'.requestTimestamp == Some(m.timestamp) && pr'.waiting
            && pr' == pr.(clock := pr'.clock, queue := pr'.queue, requestTimestamp := pr'.requestTimestamp, waiting := true)
  {
  }

  /** Rule 3: a release has a new time, names the request, goes to all others, and takes the request out of the own queue. */
  lemma ReleaseIsMade(pr: Proc, p: int)
    requires pr.requestTimestamp.Some?
    ensures var pr', m := Release(pr), ReleaseMessage(pr, p);
            && m.msgType == MsgType.ReleaseResource && m.from == p && m.to == -1 && Some(m.timestamp) == pr.requestTimestamp
            && m.msgTime == pr'.clock == pr.clock + 1
            && (forall t :: t in pr'.queue <==> t in pr.queue && t != m.timestamp)
            && !pr'.isOccupying && pr'.requestTimestamp == None
            && pr' == pr.(clock := pr'.clock, queue := pr'.queue, requestTimestamp := None, isOccupying := false)
  {
  }

  lemma MadeAnew(n: nat, start: int)
    ensures var pr := Make(n, start);
            && pr.clock == start && |pr.received| == n && (forall q :: 0 <= q < n ==> pr.received[q] == 0)
            && pr.queue == {} && pr.cursor == 0 && pr.stage == Idle
            && !pr.isOccupying && pr.requestTimestamp == None && !pr.waiting
  {
  }

  /* ---------- Steps of a run ---------- */

  /** The time of a process after the event: past what it hears, and one further for whatever it sends. */
  function NewClock(pr: Proc, p: nat, e: Event): int {
    if e == RecordTime(p) && pr.stage.Received? then
      (if pr.clock > pr.stage.msg.msgTime then pr.clock else pr.stage.msg.msgTime + 1)
    else if e == SendAck(p) || e == Event.ReleaseResource(p) || e == MakeRequest(p) then pr.clock + 1
    else pr.clock
  }

  /** What the event puts on the stream. */
  function NewMessages(pr: Proc, e: Event): seq<Message> {
    match e
    case SendAck(p) =>
      if pr.stage.Acking? then [Message(Acknowledgment, pr.clock + 1, p, pr.stage.msg.from, pr.stage.msg.timestamp)] else []
    case ReleaseResource(p) =>
      if pr.requestTimestamp.Some? then [Message(MsgType.ReleaseResource, pr.clock + 1, p, -1, pr.requestTimestamp.value)]
      else []
    case MakeRequest(p) => [Message(RequestResource, pr.clock + 1, p, -1, Timestamp(pr.clock + 1, p))]
    case _ => []
  }

  /** The listener after the event. */
  ghost predicate ListenerMoved(pr: Proc, p: nat, log: seq<Message>, e: Event, pr': Proc) {
    && pr'.cursor == pr.cursor + (if e == TakeMessage(p) then 1 else 0)
    && (if e == TakeMessage(p) then
          pr.cursor < |log| && pr'.stage == (if NotFor(log[pr.cursor], p) then Idle else Received(log[pr.cursor]))
        else if e == RecordTime(p) then
          pr.stage.Received? && pr'.stage == (match pr.stage.msg.msgType
                                              case RequestResource => Queueing(pr.stage.msg)
                                              case ReleaseResource => Dequeueing(pr.stage.msg)
                                              case Acknowledgment => Checking)
        else if e == QueueRequest(p) then pr.stage.Queueing? && pr'.stage == Acking(pr.stage.msg)
        else if e == SendAck(p) || e == DropRequest(p) then pr'.stage == Checking
        else if e == CheckRule5(p) then pr'.stage == Idle
        else pr'.stage == pr.stage)
  }

  /** Request, occupation and the block on the next request after the event. */
  ghost predicate FlagsMoved(pr: Proc, p: nat, e: Event, pr': Proc) {
    && pr'.isOccupying == ((pr.isOccupying && e != Event.ReleaseResource(p)) || (e == CheckRule5(p) && MayEnter(pr, p)))
    && pr'.requestTimestamp == (if e == MakeRequest(p) then Some(Timestamp(pr.clock + 1, p))
                                else if e == Event.ReleaseResource(p) then None else pr.requestTimestamp)
    && pr'.waiting == (e == MakeRequest(p) || (pr.waiting && e != FinishRelease(p)))
  }

  /** The resource after the event: Rule 5 takes it for the request of the process, a release gives it back. */
  ghost predicate ResourceMoved(r: Resource, pr: Proc, e: Event, r': Resource) {
    if e.CheckRule5? && MayEnter(pr, e.p) then
      && r'.occupiedBy == pr.requestTimestamp && r'.lastOccupiedBy == r.lastOccupiedBy
      && r'.timestamps == r.timestamps + [pr.requestTimestamp.value]
    else if e.ReleaseResource? then
      && r'.occupiedBy == None && Some(r'.lastOccupiedBy) == pr.requestTimestamp && r'.timestamps == r.timestamps
    else r' == r
  }

  lemma ResourceMoves(s: System, e: Event)
    requires Enabled(s, e) && Next(s, e).panic.None?
    ensures ResourceMoved(s.resource, s.procs[e.p], e, Next(s, e).resource)
  {
    Rule5Iff(s.procs[e.p], e.p);
  }

  lemma ListenerMoves(s: System, e: Event, p: nat)
    requires Enabled(s, e) && p < |s.procs| == |Next(s, e).procs| && Next(s, e).panic.None?
    ensures ListenerMoved(s.procs[p], p, s.log, e, Next(s, e).procs[p])
  {
  }

  lemma FlagsMove(s: System, e: Event, p: nat)
    requires Enabled(s, e) && p < |s.procs| == |Next(s, e).procs| && Next(s, e).panic.None?
    ensures FlagsMoved(s.procs[p], p, e, Next(s, e).procs[p])
  {
    Rule5Iff(s.procs[p], p);
  }

  lemma StreamMoves(s: System, e: Event, p: nat)
    requires Enabled(s, e) && p < |s.procs| == |Next(s, e).procs| && Next(s, e).panic.None?
    ensures Next(s, e).procs[p].clock == NewClock(s.procs[p], p, e)
    ensures Next(s, e).log == s.log + NewMessages(s.procs[e.p], e)
  {
  }

  /** In every run every step follows these tables, for every process. */
  lemma EventMoves(n: nat, states: seq<System>, events: seq<Event>, i: nat, p: nat)
    requires Run(n, states, events) && i < |events| && p < n
    ensures |states[i].procs| == |states[i + 1].procs| == n && events[i].p < n
    ensures var s, e, s' := states[i], events[i], states[i + 1];
            && s'.procs[p].clock == NewClock(s.procs[p], p, e) && s'.log == s.log + NewMessages(s.procs[e.p], e)
            && ListenerMoved(s.procs[p], p, s.log, e, s'.procs[p]) && FlagsMoved(s.procs[p], p, e, s'.procs[p])
            && ResourceMoved(s.resource, s.procs[e.p], e, s'.resource)
  {
    MutualExclusion(n, states, events, i, events[i]);
    MutualExclusion(n, states, events, i + 1, events[i]);
    assert StepAt(states, events, i);
    ListenerMoves(states[i], events[i], p);
    FlagsMove(states[i], events[i], p);
    StreamMoves(states[i], events[i], p);
    ResourceMoves(states[i], events[i]);
  }

  /* ---------- What a process has heard ---------- */

  /** Process p has dealt with message k, which q sent to everybody or as an acknowledgment to p. */
  ghost predicate Heard(s: System, p: nat, q: int, k: int) {
    && p < |s.procs| && 0 <= k < |s.log| && k < s.procs[p].cursor && q != p && s.log[k].from == q
    && (s.log[k].msgType == Acknowledgment ==> s.log[k].to == p)
    && (k == s.procs[p].cursor - 1 ==> !s.procs[p].stage.Received?)
  }

  /**
   * In every run the time that p has recorded for q is 0 or the time of a message that q sent to everybody or to p and
   * that p has dealt with; and no such message is of a later time.
   */
  lemma ReceivedIsHeard(n: nat, states: seq<System>, events: seq<Event>, i: nat, p: nat, q: nat)
    requires Run(n, states, events) && i < |states| && p < n && q < n && p != q
    ensures |states[i].procs| == n && |states[i].procs[p].received| == n
    ensures var s, t := states[i], states[i].procs[p].received[q];
            && (t == 0 || exists k {:trigger Heard(s, p, q, k)} :: Heard(s, p, q, k) && s.log[k].msgTime == t)
            && (forall k {:trigger Heard(s, p, q, k)} :: Heard(s, p, q, k) ==> s.log[k].msgTime <= t)
  {
    InvHolds(n, states, events, i);
    var s := states[i];
    var pr := s.procs[p];
    assert ProcInv(pr, p, s.log, n);
    assert ReceivedInv(pr, p, s.log, q);
    assert forall k :: Heard(s, p, q, k) <==> Recorded(pr, p, s.log, k, q);
  }

  /** What a process that occupies has recorded is later than its request. */
  ghost predicate AllLater(pr: Proc, p: nat) {
    pr.isOccupying ==>
      && pr.requestTimestamp.Some?
      && forall q :: 0 <= q < |pr.received| && q != p ==> pr.received[q] > pr.requestTimestamp.value.time
  }

  lemma {:induction false} OccupierKeepsLater(n: nat, states: seq<System>, events: seq<Event>, i: nat, p: nat)
    requires Run(n, states, events) && i < |states| && p < n
    ensures |states[i].procs| == n && AllLater(states[i].procs[p], p)
  {
    if i > 0 {
      OccupierKeepsLater(n, states, events, i - 1, p);
      InvHolds(n, states, events, i - 1);
      assert ProcInv(states[i - 1].procs[p], p, states[i - 1].log, n);
      assert StepAt(states, events, i - 1);
      EventMoves(n, states, events, i - 1, p);
      ReceivedTimeRises(n, states, events, i - 1, p);
    }
  }

  /**
   * Who occupies has heard from every other process since its request: a request, a release or an answer of its own,
   * of a later time than the request.
   */
  lemma OccupierHasHeardAll(n: nat, states: seq<System>, events: seq<Event>, i: nat, p: nat, q: nat)
    requires Run(n, states, events) && i < |states| && p < n && q < n && p != q
    requires |states[i].procs| == n && states[i].procs[p].isOccupying
    ensures states[i].procs[p].requestTimestamp.Some?
    ensures exists k {:trigger Heard(states[i], p, q, k)} ::
      Heard(states[i], p, q, k) && states[i].log[k].msgTime > states[i].procs[p].requestTimestamp.value.time
  {
    OccupierKeepsLater(n, states, events, i, p);
    ReceivedIsHeard(n, states, events, i, p, q);
    InvHolds(n, states, events, i);
    RequestIsPositive(states[i], p);
  }

  lemma RequestIsPositive(s: System, p: nat)
    requires Inv(s) && p < |s.procs| && s.procs[p].requestTimestamp.Some?
    ensures s.procs[p].requestTimestamp.value.time > 0
  {
    var ts := s.procs[p].requestTimestamp.value;
    assert ProcInv(s.procs[p], p, s.log, |s.procs|);
    assert Owns(s.procs, ts);
    assert Pending(s.log, |s.log|, ts);
    var k :| k < |s.log| && AskAt(s.log, k, ts);
    assert MsgOk(s.log[k], |s.procs|);
  }

  /* ---------- Acknowledgments ---------- */

  /** Message k is the acknowledgment of p for the request ts. */
  ghost predicate AckAt(log: seq<Message>, k: int, p: int, ts: Timestamp) {
    0 <= k < |log| && log[k].msgType == Acknowledgment && log[k].from == p && log[k].timestamp == ts
  }

  /** Every acknowledgment goes to the process of the request it names, which stands before it and was dealt with. */
  ghost predicate Answers(s: System, k: int, p: int, j: int) {
    && 0 <= k < |s.log| && 0 <= p < |s.procs| && AskAt(s.log, j, s.log[k].timestamp) && j < k
    && s.log[k].to == s.log[j].from != p && j < Acked(s.procs[p])
  }

  /** Process p answered the request of another that stands at position j. */
  ghost predicate HasAnswered(log: seq<Message>, p: int, j: int)
    requires 0 <= j < |log|
  {
    exists k :: AckAt(log, k, p, log[j].timestamp)
  }

  ghost predicate Due(s: System, p: int, j: int) {
    0 <= p < |s.procs| && 0 <= j < |s.log| && j < Acked(s.procs[p]) && s.log[j].from != p && s.log[j].msgType == RequestResource
  }

  ghost predicate AcksInv(s: System) {
    && (forall k, p, ts {:trigger AckAt(s.log, k, p, ts)} :: AckAt(s.log, k, p, ts) ==> exists j :: Answers(s, k, p, j))
    && (forall k, l, p, ts {:trigger AckAt(s.log, k, p, ts), AckAt(s.log, l, p, ts)} ::
      AckAt(s.log, k, p, ts) && AckAt(s.log, l, p, ts) ==> k == l)
    && (forall p, j {:trigger Due(s, p, j)} :: Due(s, p, j) ==> HasAnswered(s.log, p, j))
  }

  /** The stream at most grows by a message that is no acknowledgment, and nothing new is due. */
  lemma NoAckSent(s: System, s': System)
    requires AcksInv(s) && s.log <= s'.log && |s.procs| == |s'.procs|
    requires forall k :: |s.log| <= k < |s'.log| ==> s'.log[k].msgType != Acknowledgment
    requires forall p :: 0 <= p < |s.procs| ==> Acked(s.procs[p]) <= Acked(s'.procs[p]) <= |s.log|
    requires forall p, j {:trigger Due(s', p, j)} :: Due(s', p, j) ==> Due(s, p, j)
    ensures AcksInv(s')
  {
    forall k, p, ts | AckAt(s'.log, k, p, ts)
      ensures AckAt(s.log, k, p, ts) && exists j :: Answers(s', k, p, j)
    {
      assert AckAt(s.log, k, p, ts);
      var j :| Answers(s, k, p, j);
      assert Answers(s', k, p, j);
    }
    forall p, j | Due(s', p, j)
      ensures HasAnswered(s'.log, p, j)
    {
      assert Due(s, p, j);
      var k :| AckAt(s.log, k, p, s.log[j].timestamp);
      assert AckAt(s'.log, k, p, s'.log[j].timestamp);
    }
  }

  /** Only an answer deals with a request of another process. */
  lemma OnlyAnswersDeal(pr: Proc, p: nat, log: seq<Message>, n: nat, e: Event, pr': Proc, j: nat)
    requires StageInv(pr, p, log, n) && ListenerMoved(pr, p, log, e, pr') && e != SendAck(p)
    requires j < |log| && j < Acked(pr') && log[j].from != p && log[j].msgType == RequestResource
    requires e == DropRequest(p) ==> pr.stage.Dequeueing?
    requires e == CheckRule5(p) ==> pr.stage.Checking?
    requires e == TakeMessage(p) ==> pr.stage.Idle?
    ensures j < Acked(pr)
  {
  }

  lemma NothingNewDue(s: System, e: Event, p: int, j: int)
    requires Inv(s) && Enabled(s, e) && !e.SendAck? && Next(s, e).panic.None? && Due(Next(s, e), p, j)
    requires |Next(s, e).procs| == |s.procs| && Acked(Next(s, e).procs[p]) <= |s.log| && s.log <= Next(s, e).log
    ensures Due(s, p, j)
  {
    assert ProcInv(s.procs[p], p, s.log, |s.procs|);
    ListenerMoves(s, e, p);
    OnlyAnswersDeal(s.procs[p], p, s.log, |s.procs|, e, Next(s, e).procs[p], j);
  }

  lemma AnsweredIsDealtWith(s: System, k: int, p: int, ts: Timestamp, x: int)
    requires LogInv(s.log, |s.procs|) && AcksInv(s) && AckAt(s.log, k, p, ts) && AskAt(s.log, x, ts)
    ensures Answers(s, k, p, x)
  {
    var j :| Answers(s, k, p, j);
    OnceAsked(s.log, |s.procs|, ts, x);
  }

  /** The new acknowledgment is the first for its request. */
  lemma AckIsFirst(s: System, p: nat)
    requires Inv(s) && AcksInv(s) && Enabled(s, SendAck(p))
    ensures var m, x := s.procs[p].stage.msg, s.procs[p].cursor - 1;
            && AskAt(s.log, x, m.timestamp) && m == s.log[x] && m.from != p
            && forall k :: !AckAt(s.log, k, p, m.timestamp)
  {
    var m, x := s.procs[p].stage.msg, s.procs[p].cursor - 1;
    assert ProcInv(s.procs[p], p, s.log, |s.procs|);
    assert AskAt(s.log, x, m.timestamp);
    forall k
      ensures !AckAt(s.log, k, p, m.timestamp)
    {
      if AckAt(s.log, k, p, m.timestamp) {
        AnsweredIsDealtWith(s, k, p, m.timestamp, x);
      }
    }
  }

  /** The stream grows by an acknowledgment of p for the request at position x, with which p is now done. */
  ghost predicate Acknowledges(s: System, p: nat, x: nat, s': System) {
    && p < |s.procs| == |s'.procs| && x < |s.log| && |s'.log| == |s.log| + 1 && s.log <= s'.log
    && s.log[x].msgType == RequestResource && s.log[x].from != p
    && AckAt(s'.log, |s.log|, p, s.log[x].timestamp) && s'.log[|s.log|].to == s.log[x].from
    && Acked(s.procs[p]) == x && Acked(s'.procs[p]) == x + 1
    && (forall q :: 0 <= q < |s.procs| && q != p ==> s'.procs[q] == s.procs[q])
    && (forall k :: !AckAt(s.log, k, p, s.log[x].timestamp))
  }

  lemma AcknowledgmentsAnswer(s: System, p: nat, x: nat, s': System, k: int, q: int, ts: Timestamp)
    requires AcksInv(s) && Acknowledges(s, p, x, s') && AckAt(s'.log, k, q, ts)
    ensures exists j :: Answers(s', k, q, j)
  {
    if k < |s.log| {
      assert AckAt(s.log, k, q, ts);
      var j :| Answers(s, k, q, j);
      assert Answers(s', k, q, j);
    } else {
      assert Answers(s', k, q, x);
    }
  }

  lemma NothingElseDue(s: System, p: nat, x: nat, s': System, q: int, j: int)
    requires AcksInv(s) && Acknowledges(s, p, x, s') && Due(s', q, j)
    requires forall q :: 0 <= q < |s.procs| ==> Acked(s'.procs[q]) <= |s.log|
    ensures HasAnswered(s'.log, q, j)
  {
    if q == p && j == x {
      assert AckAt(s'.log, |s.log|, p, s'.log[j].timestamp);
    } else {
      assert Due(s, q, j);
      var k :| AckAt(s.log, k, q, s.log[j].timestamp);
      assert AckAt(s'.log, k, q, s'.log[j].timestamp);
    }
  }

  lemma AckKept(s: System, p: nat, x: nat, s': System)
    requires AcksInv(s) && Acknowledges(s, p, x, s')
    requires forall q :: 0 <= q < |s.procs| ==> Acked(s'.procs[q]) <= |s.log|
    ensures AcksInv(s')
  {
    forall k, q, ts | AckAt(s'.log, k, q, ts)
      ensures exists j :: Answers(s', k, q, j)
    {
      AcknowledgmentsAnswer(s, p, x, s', k, q, ts);
    }
    forall k, q, ts | AckAt(s'.log, k, q, ts)
      ensures AckAt(s.log, k, q, ts) || (k == |s.log| && q == p && ts == s.log[x].timestamp)
    {
    }
    forall q, j | Due(s', q, j)
      ensures HasAnswered(s'.log, q, j)
    {
      NothingElseDue(s, p, x, s', q, j);
    }
  }

  lemma AckSent(s: System, p: nat)
    requires Inv(s) && AcksInv(s) && Enabled(s, SendAck(p))
    requires forall q :: 0 <= q < |s.procs| ==> Acked(Next(s, SendAck(p)).procs[q]) <= |s.log|
    ensures AcksInv(Next(s, SendAck(p)))
  {
    AckIsFirst(s, p);
    AckKept(s, p, s.procs[p].cursor - 1, Next(s, SendAck(p)));
  }

  /** What a process has dealt with only grows, and lies within the stream. */
  lemma AckedGrows(s: System, e: Event)
    requires Inv(s) && Enabled(s, e)
    ensures |Next(s, e).procs| == |s.procs| && s.log <= Next(s, e).log
    ensures forall p :: 0 <= p < |s.procs| ==> Acked(s.procs[p]) <= Acked(Next(s, e).procs[p]) <= |s.log|
  {
    StreamGrows(s, e);
    forall p | 0 <= p < |s.procs|
      ensures Acked(s.procs[p]) <= Acked(Next(s, e).procs[p]) <= |s.log|
    {
      StepGrows(s, e, p);
      assert ProcInv(s.procs[p], p, s.log, |s.procs|);
    }
  }

  lemma NoAckAdded(s: System, e: Event)
    requires Enabled(s, e) && !e.SendAck? && s.log <= Next(s, e).log
    ensures forall k :: |s.log| <= k < |Next(s, e).log| ==> Next(s, e).log[k].msgType != Acknowledgment
  {
  }

  lemma AcksKept(s: System, e: Event)
    requires Inv(s) && AcksInv(s) && Enabled(s, e) && Next(s, e).panic.None?
    ensures AcksInv(Next(s, e))
  {
    AckedGrows(s, e);
    if e.SendAck? {
      AckSent(s, e.p);
    } else {
      var s' := Next(s, e);
      NoAckAdded(s, e);
      forall p, j | Due(s', p, j)
        ensures Due(s, p, j)
      {
        NothingNewDue(s, e, p, j);
      }
      NoAckSent(s, s');
    }
  }

  lemma {:induction false} AcksHold(n: nat, states: seq<System>, events: seq<Event>, i: nat)
    requires Run(n, states, events) && i < |states|
    ensures AcksInv(states[i])
  {
    if i > 0 {
      AcksHold(n, states, events, i - 1);
      InvHolds(n, states, events, i - 1);
      InvHolds(n, states, events, i);
      assert StepAt(states, events, i - 1);
      AcksKept(states[i - 1], events[i - 1]);
    }
  }

  /**
   * In every run p has acknowledged a request of another process exactly once if it has dealt with it, and not at all
   * otherwise; and the acknowledgment stands after the request and goes to its process.
   */
  lemma OneAckPerRequest(n: nat, states: seq<System>, events: seq<Event>, i: nat, p: nat, j: nat)
    requires Run(n, states, events) && i < |states| && p < n && j < |states[i].log|
    requires states[i].log[j].msgType == RequestResource && states[i].log[j].from != p
    ensures |states[i].procs| == n
    ensures var log, ts := states[i].log, states[i].log[j].timestamp;
            && (j < Acked(states[i].procs[p]) <==> exists k :: AckAt(log, k, p, ts))
            && (forall k, l :: AckAt(log, k, p, ts) && AckAt(log, l, p, ts) ==> k == l)
            && (forall k :: AckAt(log, k, p, ts) ==> j < k && log[k].to == log[j].from)
  {
    InvHolds(n, states, events, i);
    AcksHold(n, states, events, i);
    var s := states[i];
    var ts := s.log[j].timestamp;
    forall k | AckAt(s.log, k, p, ts)
      ensures Answers(s, k, p, j)
    {
      AnsweredIsDealtWith(s, k, p, ts, j);
    }
    if j < Acked(s.procs[p]) {
      assert Due(s, p, j);
    }
  }
}
