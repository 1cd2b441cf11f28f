/** Mutual exclusion: the objects. */
module MutexNode {
  // A process of the mutual exclusion algorithm and the objects it uses, as the program has them: mutable fields,
  // one method per critical section. Each method is proved to do to the abstract process `State()` what the function
  // of the same purpose in `MutexProcess` says, which is the step that `MutexSystem` takes. `MutexTheorems` proves
  // that the preconditions that stand for panics hold whenever a run comes to the call.

  import opened Options
  import opened MutexTimestamp
  import opened MutexProcess
  import opened MutexQueues
  import MutexSystem

  /** The logical clock. */
  class Clock {
    var time: int

    /** The program starts every clock at a random positive time. */
    constructor (start: int)
      ensures time == start
    {
      time := start;
    }

    /** Moves past a received time, and never back. */
    method Update(t: int)
      modifies this
      ensures time > t && time >= old(time) && (time == old(time) || time == t + 1)
    {
      time := Max(time, t + 1);
    }

    method Tick() returns (t: int)
      modifies this
      ensures t == time == old(time) + 1
    {
      time := time + 1;
      t := time;
    }

    function Now(): int
      reads this
    {
      time
    }
  }

  /** The stream of messages that all processes share. */
  class Property {
    var log: seq<Message>

    constructor ()
      ensures log == []
    {
      log := [];
    }

    method Update(m: Message)
      modifies this
      ensures log == old(log) + [m]
    {
      log := log + [m];
    }
  }

  /** The resource. The panics of the program are the preconditions of `Occupy` and `Release`. */
  class Resource {
    var lastOccupiedBy: Timestamp
    var occupiedBy: Option<Timestamp>
    var timestamps: seq<Timestamp>

    ghost function View(): MutexSystem.Resource
      reads this
    {
      MutexSystem.Resource(lastOccupiedBy, occupiedBy, timestamps)
    }

    /** The grants are in order, and the last of them has the resource or had it last. */
    ghost predicate Valid()
      reads this
    {
      && Sorted(timestamps)
      && (timestamps == [] ==> occupiedBy.None? && lastOccupiedBy == Timestamp(-1, -1))
      && (timestamps != [] ==>
        timestamps[|timestamps| - 1] == if occupiedBy.Some? then occupiedBy.value else lastOccupiedBy)
    }

    constructor ()
      ensures Valid() && occupiedBy == None && timestamps == [] && lastOccupiedBy == Timestamp(-1, -1)
    {
      lastOccupiedBy := Timestamp(-1, -1);
      occupiedBy := None;
      timestamps := [];
    }

    method Occupy(ts: Timestamp)
      requires Valid() && occupiedBy.None? && lastOccupiedBy.Less(ts)
      modifies this
      ensures Valid() && occupiedBy == Some(ts) && lastOccupiedBy == old(lastOccupiedBy)
      ensures timestamps == old(timestamps) + [ts]
    {
      occupiedBy := Some(ts);
      ghost var before := timestamps;
      timestamps := timestamps + [ts];
      forall i, j | 0 <= i < j < |timestamps|
        ensures timestamps[i].Less(timestamps[j])
      {
        if j == |before| && i < |before| - 1 {
          assert before[i].Less(before[|before| - 1]);
        }
      }
    }

    method Release(ts: Timestamp)
      requires Valid() && occupiedBy.Some? && occupiedBy.value.IsEqual(Some(ts))
      modifies this
      ensures Valid() && occupiedBy == None && lastOccupiedBy == ts && timestamps == old(timestamps)
    {
      lastOccupiedBy, occupiedBy := ts, None;
    }
  }

  /** There is one least timestamp, so comparing with it tests being it. */
  lemma EqualsLeast(ts: Timestamp, least: Timestamp, queue: set<Timestamp>)
    requires IsLeast(least, queue)
    ensures ts.IsEqual(Some(least)) <==> IsLeast(ts, queue)
  {
  }

  /** The stage after the time of a message was recorded. */
  ghost function AfterTime(m: Message): Stage {
    match m.msgType
    case RequestResource => Queueing(m)
    case ReleaseResource => Dequeueing(m)
    case Acknowledgment => Checking
  }

  ghost function Handled(pr: Proc, m: Message): Proc {
    match m.msgType
    case RequestResource => Ack(PushRequest(pr, m))
    case ReleaseResource => RemoveRequest(pr, m)
    case Acknowledgment => pr
  }

  /** A request that enters the queue does not show in the answer to it. */
  lemma AnswerIsUnmoved(pr: Proc, p: int, m: Message)
    ensures AckMessage(PushRequest(pr, m), p, m) == AckMessage(pr, p, m)
  {
  }

  /** What a release does to the queue, to the clock and to the flags. */
  lemma ReleaseByParts(pr: Proc, p: int)
    requires pr.requestTimestamp.Some?
    ensures Release(pr) == pr.(queue := pr.queue - {pr.requestTimestamp.value}).(clock := pr.clock + 1)
                             .(isOccupying := false, requestTimestamp := None)
    ensures ReleaseMessage(pr, p)
         == Message(MsgType.ReleaseResource, pr.clock + 1, p, OTHERS, pr.requestTimestamp.value)
  {
  }

  /** What the process puts on the stream when it handles a message. */
  ghost function Answers(pr: Proc, p: int, m: Message): seq<Message> {
    if m.msgType == RequestResource then [AckMessage(pr, p, m)] else []
  }

  /** What `checkRule5` does to the process, and to the resource. */
  ghost function Checked(pr: Proc, p: int): Proc {
    if Rule5(pr, p) then Occupy(pr) else pr.(stage := Idle)
  }

  ghost function Granted(r: MutexSystem.Resource, pr: Proc, p: int): MutexSystem.Resource {
    if Rule5(pr, p)
    then r.(occupiedBy := pr.requestTimestamp, timestamps := r.timestamps + [pr.requestTimestamp.value])
    else r
  }

  class Process {
    const me: nat
    const clock: Clock
    const resource: Resource
    const receivedTime: ReceivedTime
    const requestQueue: RequestQueue
    const prop: Property
    var position: nat
    var isOccupying: bool
    var requestTimestamp: Option<Timestamp>
    var waiting: bool
    ghost var stage: Stage

    ghost predicate Valid()
      reads receivedTime, receivedTime.trq, receivedTime.trq.items
      reads requestQueue, requestQueue.rpq, requestQueue.rpq.items
    {
      receivedTime.Valid() && requestQueue.Valid() && receivedTime.me == me
    }

    ghost function State(): Proc
      reads this, clock, receivedTime, requestQueue
    {
      Proc(clock.time, receivedTime.Times, requestQueue.Contents(), position, stage, isOccupying, requestTimestamp,
           waiting)
    }

    constructor (all: nat, me: nat, start: int, resource: Resource, prop: Property)
      requires me < all
      ensures Valid() && State() == Make(all, start)
      ensures this.me == me && this.resource == resource && this.prop == prop
      ensures fresh(clock) && fresh(receivedTime) && fresh(receivedTime.trq) && fresh(receivedTime.trq.Members())
      ensures fresh(requestQueue) && fresh(requestQueue.rpq) && requestQueue.rpq.Members() == {}
    {
      this.me := me;
      this.resource := resource;
      this.prop := prop;
      clock := new Clock(start);
      receivedTime := new ReceivedTime(all, me);
      requestQueue := new RequestQueue();
      position := 0;
      isOccupying, requestTimestamp, waiting := false, None, false;
      stage := Idle;
    }

    /** The next message of the stream, unless it is to be skipped. */
    method Next() returns (msg: Option<Message>)
      requires Valid() && stage.Idle? && position < |prop.log|
      modifies this`position, this`stage
      ensures Valid() && State() == Take(old(State()), me, prop.log[old(position)])
      ensures msg == if For(prop.log[old(position)], me) then Some(prop.log[old(position)]) else None
    {
      var m := prop.log[position];
      position := position + 1;
      if m.from == me || (m.msgType == Acknowledgment && m.to != me) {
        return None;
      }
      stage := Received(m);
      msg := Some(m);
    }

    method RecordTime(msg: Message)
      requires Valid() && stage == Received(msg) && 0 <= msg.from < |receivedTime.trs| && msg.from != me
      modifies this`stage, clock, receivedTime`Times, receivedTime.trq, receivedTime.trq.Members()
      ensures Valid() && State() == UpdateTime(old(State()), msg)
      ensures receivedTime.trq.Members() == old(receivedTime.trq.Members())
    {
      clock.Update(msg.msgTime);
      receivedTime.Update(msg.from, msg.msgTime);
      stage := AfterTime(msg);
    }

    /** Adds a timestamp to the request queue. */
    method Insert(ts: Timestamp)
      requires Valid() && ts !in requestQueue.Contents()
      modifies requestQueue, requestQueue.rpq, requestQueue.rpq.Members()
      ensures Valid() && State() == old(State()).(queue := old(requestQueue.Contents()) + {ts})
      ensures fresh(requestQueue.rpq.Members() - old(requestQueue.rpq.Members()))
    {
      requestQueue.Push(ts);
    }

    /** Removes a timestamp from the request queue. */
    method Delete(ts: Timestamp)
      requires Valid() && ts in requestQueue.Contents()
      modifies requestQueue, requestQueue.rpq, requestQueue.rpq.Members()
      ensures Valid() && State() == old(State()).(queue := old(requestQueue.Contents()) - {ts})
      ensures fresh(requestQueue.rpq.Members() - old(requestQueue.rpq.Members()))
    {
      requestQueue.Remove(ts);
    }

    /** Ticks and puts a message with the new time on the stream. */
    method Send(msgType: MsgType, to: int, ts: Timestamp)
      requires Valid()
      modifies clock, prop
      ensures Valid() && State() == old(State()).(clock := old(clock.time) + 1)
      ensures prop.log == old(prop.log) + [Message(msgType, clock.time, me, to, ts)]
    {
      var t := clock.Tick();
      prop.Update(Message(msgType, t, me, to, ts));
    }

    method Queue(msg: Message)
      requires Valid() && stage == Queueing(msg) && msg.timestamp !in requestQueue.Contents()
      modifies this`stage, requestQueue, requestQueue.rpq, requestQueue.rpq.Members()
      ensures Valid() && State() == PushRequest(old(State()), msg)
      ensures fresh(requestQueue.rpq.Members() - old(requestQueue.rpq.Members()))
    {
      Insert(msg.timestamp);
      stage := Acking(msg);
    }

    method Acknowledge(msg: Message)
      requires Valid() && stage == Acking(msg)
      modifies this`stage, clock, prop
      ensures Valid() && State() == Ack(old(State()))
      ensures prop.log == old(prop.log) + [AckMessage(old(State()), me, msg)]
    {
      Send(Acknowledgment, msg.from, msg.timestamp);
      stage := Checking;
    }

    method HandleRequestMessage(msg: Message)
      requires Valid() && stage == Queueing(msg) && msg.timestamp !in requestQueue.Contents()
      modifies this`stage, clock, prop, requestQueue, requestQueue.rpq, requestQueue.rpq.Members()
      ensures Valid() && State() == Ack(PushRequest(old(State()), msg))
      ensures prop.log == old(prop.log) + [AckMessage(old(State()), me, msg)]
      ensures fresh(requestQueue.rpq.Members() - old(requestQueue.rpq.Members()))
    {
      ghost var before := State();
      Queue(msg);
      AnswerIsUnmoved(before, me, msg);
      Acknowledge(msg);
    }

    method HandleReleaseMessage(msg: Message)
      requires Valid() && stage == Dequeueing(msg) && msg.timestamp in requestQueue.Contents()
      modifies this`stage, requestQueue, requestQueue.rpq, requestQueue.rpq.Members()
      ensures Valid() && State() == RemoveRequest(old(State()), msg)
      ensures fresh(requestQueue.rpq.Members() - old(requestQueue.rpq.Members()))
    {
      Delete(msg.timestamp);
      stage := Checking;
    }

    method IsSatisfiedRule5() returns (b: bool)
      requires Valid() && |receivedTime.trs| >= 2
      ensures b <==> Rule5(State(), me)
    {
      if isOccupying || requestTimestamp.None? {
        return false;
      }
      var ts := requestTimestamp.value;
      var least := requestQueue.Min();
      if least.Some? {
        EqualsLeast(ts, least.value, requestQueue.Contents());
      }
      if !ts.IsEqual(least) {
        return false;
      }
      var earliest := receivedTime.Min();
      b := ts.IsBefore(earliest);
    }

    /** `MutexEvents.Rule5FindsResourceFree`: Rule 5 never meets an occupied resource or a later grant. */
    method CheckRule5()
      requires Valid() && stage.Checking? && |receivedTime.trs| >= 2 && resource.Valid()
      requires Rule5(State(), me) ==>
        resource.occupiedBy.None? && resource.lastOccupiedBy.Less(requestTimestamp.value)
      modifies this`stage, this`isOccupying, resource
      ensures Valid() && resource.Valid()
      ensures State() == Checked(old(State()), me)
      ensures resource.View() == Granted(old(resource.View()), old(State()), me)
    {
      var satisfied := IsSatisfiedRule5();
      if satisfied {
        OccupyResource();
      } else {
        stage := Idle;
      }
    }

    method OccupyResource()
      requires Valid() && requestTimestamp.Some? && resource.Valid()
      requires resource.occupiedBy.None? && resource.lastOccupiedBy.Less(requestTimestamp.value)
      modifies this`stage, this`isOccupying, resource
      ensures Valid() && resource.Valid() && State() == Occupy(old(State()))
      ensures resource.View() == old(resource.View()).(
        occupiedBy := requestTimestamp, timestamps := old(resource.timestamps) + [requestTimestamp.value])
    {
      isOccupying := true;
      resource.Occupy(requestTimestamp.value);
      stage := Idle;
    }

    /** The switch over the type of a message whose time has been recorded. */
    method Handle(msg: Message)
      requires Valid() && stage == AfterTime(msg)
      requires msg.msgType == RequestResource ==> msg.timestamp !in requestQueue.Contents()
      requires msg.msgType == MsgType.ReleaseResource ==> msg.timestamp in requestQueue.Contents()
      modifies this`stage, clock, prop, requestQueue, requestQueue.rpq, requestQueue.rpq.Members()
      ensures Valid() && State() == Handled(old(State()), msg)
      ensures prop.log == old(prop.log) + Answers(old(State()), me, msg)
      ensures fresh(requestQueue.rpq.Members() - old(requestQueue.rpq.Members()))
    {
      match msg.msgType {
        case RequestResource =>
          HandleRequestMessage(msg);
        case ReleaseResource =>
          HandleReleaseMessage(msg);
        case Acknowledgment =>
      }
    }

    /** The rest of the loop's body, after the time of the message was recorded. */
    method HandleAndCheck(msg: Message)
      requires Valid() && stage == AfterTime(msg) && |receivedTime.trs| >= 2 && resource.Valid()
      requires msg.msgType == RequestResource ==> msg.timestamp !in requestQueue.Contents()
      requires msg.msgType == MsgType.ReleaseResource ==> msg.timestamp in requestQueue.Contents()
      requires Rule5(Handled(State(), msg), me) ==>
        resource.occupiedBy.None? && resource.lastOccupiedBy.Less(requestTimestamp.value)
      modifies this`stage, this`isOccupying, clock, resource, prop
      modifies requestQueue, requestQueue.rpq, requestQueue.rpq.Members()
      ensures Valid() && resource.Valid() && State() == Checked(Handled(old(State()), msg), me)
      ensures prop.log == old(prop.log) + Answers(old(State()), me, msg)
      ensures resource.View() == Granted(old(resource.View()), Handled(old(State()), msg), me)
    {
      ghost var handled, granted := Handled(State(), msg), resource.View();
      Handle(msg);
      assert State() == handled && resource.View() == granted;
      CheckRule5();
    }

    /**
     * The body of the listener's loop for one message that the process may not skip, when nothing comes between
     * its critical sections.
     */
    method Deal(msg: Message)
      requires Valid() && stage == Received(msg) && |receivedTime.trs| >= 2 && resource.Valid()
      requires 0 <= msg.from < |receivedTime.trs| && msg.from != me
      requires msg.msgType == RequestResource ==> msg.timestamp !in requestQueue.Contents()
      requires msg.msgType == MsgType.ReleaseResource ==> msg.timestamp in requestQueue.Contents()
      requires Rule5(Handled(UpdateTime(State(), msg), msg), me) ==>
        resource.occupiedBy.None? && resource.lastOccupiedBy.Less(requestTimestamp.value)
      modifies this`stage, this`isOccupying, clock, receivedTime`Times, receivedTime.trq, receivedTime.trq.Members()
      modifies requestQueue, requestQueue.rpq, requestQueue.rpq.Members(), resource, prop
      ensures Valid() && resource.Valid() && State() == Checked(Handled(UpdateTime(old(State()), msg), msg), me)
      ensures prop.log == old(prop.log) + Answers(UpdateTime(old(State()), msg), me, msg)
      ensures resource.View() == Granted(old(resource.View()), Handled(UpdateTime(old(State()), msg), msg), me)
    {
      RecordTime(msg);
      HandleAndCheck(msg);
    }

    /** Takes the own request out of the queue, tells the others, and forgets it. */
    method Withdraw()
      requires Valid() && requestTimestamp.Some? && requestTimestamp.value in requestQueue.Contents()
      modifies this`isOccupying, this`requestTimestamp, clock, prop
      modifies requestQueue, requestQueue.rpq, requestQueue.rpq.Members()
      ensures Valid() && State() == Release(old(State()))
      ensures prop.log == old(prop.log) + [ReleaseMessage(old(State()), me)]
    {
      var ts := requestTimestamp.value;
      ReleaseByParts(State(), me);
      Delete(ts);
      Send(MsgType.ReleaseResource, OTHERS, ts);
      Forget();
    }

    /** Notes that the own request is over. */
    method Forget()
      requires Valid()
      modifies this`isOccupying, this`requestTimestamp
      ensures Valid() && State() == old(State()).(isOccupying := false, requestTimestamp := None)
    {
      isOccupying := false;
      requestTimestamp := None;
    }

    /** Tells the others of a request and puts it into the queue. */
    method Announce(ts: Timestamp)
      requires Valid() && ts !in requestQueue.Contents()
      modifies clock, prop, requestQueue, requestQueue.rpq, requestQueue.rpq.Members()
      ensures Valid()
      ensures State() == old(State()).(clock := old(clock.time) + 1, queue := old(requestQueue.Contents()) + {ts})
      ensures prop.log == old(prop.log) + [Message(RequestResource, clock.time, me, OTHERS, ts)]
    {
      Send(RequestResource, OTHERS, ts);
      Insert(ts);
    }

    method ReleaseResource()
      requires Valid() && requestTimestamp.Some? && requestTimestamp.value in requestQueue.Contents()
      requires resource.Valid() && resource.occupiedBy == requestTimestamp
      modifies this`isOccupying, this`requestTimestamp, clock, resource, prop
      modifies requestQueue, requestQueue.rpq, requestQueue.rpq.Members()
      ensures Valid() && State() == Release(old(State()))
      ensures prop.log == old(prop.log) + [ReleaseMessage(old(State()), me)]
      ensures resource.Valid()
      ensures resource.View() == old(resource.View()).(lastOccupiedBy := old(requestTimestamp).value, occupiedBy := None)
    {
      resource.Release(requestTimestamp.value);
      Withdraw();
    }

    /** The end of `releaseResource`, after the lock is given back: the next request may go ahead. */
    method FinishRelease()
      requires Valid() && requestTimestamp.None?
      modifies this`waiting
      ensures Valid() && State() == old(State()).(waiting := false)
    {
      waiting := false;
    }

    /** The program waits first until no earlier request of this process is under way. */
    method Request()
      requires Valid() && !waiting && Timestamp(clock.time + 1, me) !in requestQueue.Contents()
      modifies this`waiting, this`requestTimestamp, clock, prop
      modifies requestQueue, requestQueue.rpq, requestQueue.rpq.Members()
      ensures Valid() && State() == MutexProcess.Request(old(State()), me)
      ensures prop.log == old(prop.log) + [RequestMessage(old(State()), me)]
    {
      var ts := Timestamp(clock.Now() + 1, me);
      Remember(ts);
      Announce(ts);
    }

    /** Notes the own request, which blocks the next one. Under the lock the order of the assignments does not show. */
    method Remember(ts: Timestamp)
      requires Valid()
      modifies this`waiting, this`requestTimestamp
      ensures Valid() && State() == old(State()).(waiting := true, requestTimestamp := Some(ts))
    {
      waiting := true;
      requestTimestamp := Some(ts);
    }
  }
}
