/**
 * The processes, the stream of messages they share and the resource. One event is one critical section of one
 * process. Nothing is assumed about which event comes next.
 */
module MutexSystem {
  import opened Options
  import opened MutexTimestamp
  import opened MutexProcess

  datatype Resource = Resource(
    lastOccupiedBy: Timestamp,
    occupiedBy: Option<Timestamp>,
    timestamps: seq<Timestamp>)

  /** The panics of the program: three of the resource, and removing a request that is not queued. */
  datatype Panic = OccupiedTwice | OccupiedOutOfOrder | ReleasedByOther | RemovedMissing

  /**
   * `seen[i]` is a history variable: the number of messages of the stream whose time the sender of message i
   * had recorded when it sent message i. No step depends on it.
   */
  datatype System = System(
    procs: seq<Proc>,
    log: seq<Message>,
    seen: seq<int>,
    resource: Resource,
    panic: Option<Panic>)

  datatype Event =
    | TakeMessage(p: nat)
    | RecordTime(p: nat)
    | QueueRequest(p: nat)
    | SendAck(p: nat)
    | DropRequest(p: nat)
    | CheckRule5(p: nat)
    | ReleaseResource(p: nat)
    | FinishRelease(p: nat)
    | MakeRequest(p: nat)

  /** The clocks start at any positive value. */
  ghost predicate Init(n: nat, s: System) {
    && |s.procs| == n
    && (forall p :: 0 <= p < n ==> s.procs[p].clock > 0 && s.procs[p] == Make(n, s.procs[p].clock))
    && s.log == [] && s.seen == [] && s.panic == None
    && s.resource == Resource(Timestamp(-1, -1), None, [])
  }

  ghost predicate Enabled(s: System, e: Event) {
    && e.p < |s.procs| && s.panic.None?
    && var pr := s.procs[e.p];
    match e
    case TakeMessage(_) => pr.stage.Idle? && pr.cursor < |s.log|
    case RecordTime(_) => pr.stage.Received? && 0 <= pr.stage.msg.from < |pr.received|
    case QueueRequest(_) => pr.stage.Queueing?
    case SendAck(_) => pr.stage.Acking?
    case DropRequest(_) => pr.stage.Dequeueing?
    case CheckRule5(_) => pr.stage.Checking?
    case ReleaseResource(_) => pr.isOccupying && pr.requestTimestamp.Some?
    case FinishRelease(_) => pr.waiting && pr.requestTimestamp.None?
    case MakeRequest(_) => !pr.waiting
  }

  function SetProc(s: System, p: nat, pr: Proc): System
    requires p < |s.procs|
  {
    s.(procs := s.procs[p := pr])
  }

  /** Process p changes to pr and appends m to the stream. */
  function Send(s: System, p: nat, pr: Proc, m: Message): System
    requires p < |s.procs|
  {
    s.(procs := s.procs[p := pr], log := s.log + [m], seen := s.seen + [Timed(s.procs[p])])
  }

  /** The step of `checkRule5`, with the two tests of `Occupy`. */
  ghost function DoCheck(s: System, p: nat): System
    requires p < |s.procs|
  {
    var pr, r := s.procs[p], s.resource;
    if !Rule5(pr, p) then SetProc(s, p, pr.(stage := Idle))
    else
      var ts := pr.requestTimestamp.value;
      if r.occupiedBy.Some? then s.(panic := Some(OccupiedTwice))
      else if !r.lastOccupiedBy.Less(ts) then s.(panic := Some(OccupiedOutOfOrder))
      else SetProc(s, p, Occupy(pr)).(
        resource := r.(occupiedBy := Some(ts), timestamps := r.timestamps + [ts]))
  }

  /** The step of `releaseResource`, with the test of `Release`. */
  function DoRelease(s: System, p: nat): System
    requires p < |s.procs| && s.procs[p].requestTimestamp.Some?
  {
    var pr, r := s.procs[p], s.resource;
    var ts := pr.requestTimestamp.value;
    if !(r.occupiedBy.Some? && r.occupiedBy.value.IsEqual(Some(ts))) then s.(panic := Some(ReleasedByOther))
    else if ts !in pr.queue then s.(panic := Some(RemovedMissing))
    else Send(s, p, Release(pr), ReleaseMessage(pr, p)).(
      resource := r.(lastOccupiedBy := ts, occupiedBy := None))
  }

  ghost function Next(s: System, e: Event): System
    requires Enabled(s, e)
  {
    var p, pr := e.p, s.procs[e.p];
    match e
    case TakeMessage(_) => SetProc(s, p, Take(pr, p, s.log[pr.cursor]))
    case RecordTime(_) => SetProc(s, p, UpdateTime(pr, pr.stage.msg))
    case QueueRequest(_) => SetProc(s, p, PushRequest(pr, pr.stage.msg))
    case SendAck(_) => Send(s, p, Ack(pr), AckMessage(pr, p, pr.stage.msg))
    case DropRequest(_) =>
      if pr.stage.msg.timestamp !in pr.queue then s.(panic := Some(RemovedMissing))
      else SetProc(s, p, RemoveRequest(pr, pr.stage.msg))
    case CheckRule5(_) => DoCheck(s, p)
    case ReleaseResource(_) => DoRelease(s, p)
    case FinishRelease(_) => SetProc(s, p, pr.(waiting := false))
    case MakeRequest(_) => Send(s, p, Request(pr, p), RequestMessage(pr, p))
  }

  ghost predicate StepAt(states: seq<System>, events: seq<Event>, i: nat)
    requires i < |events| == |states| - 1
  {
    Enabled(states[i], events[i]) && states[i + 1] == Next(states[i], events[i])
  }

  /** The states a system of n processes passes through under the given events. */
  ghost predicate Run(n: nat, states: seq<System>, events: seq<Event>) {
    && |events| == |states| - 1
    && Init(n, states[0])
    && forall i {:trigger StepAt(states, events, i)} :: 0 <= i < |events| ==> StepAt(states, events, i)
  }
}
