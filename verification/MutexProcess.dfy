/**
 * One process of the mutual exclusion algorithm as a value, and what each of its critical sections does to it.
 * The functions here are the specification of the methods of class `MutexNode.Process` and the steps of
 * `MutexSystem`.
 */
module MutexProcess {
  import opened Options
  import opened MutexTimestamp

  /**
   * Where the listener goroutine stands between two critical sections: waiting for a message, or holding one
   * whose time is to be recorded, whose request is to be queued or acknowledged, whose release is to be
   * carried out, or after which Rule 5 is to be checked.
   */
  datatype Stage =
    | Idle
    | Received(msg: Message)
    | Queueing(msg: Message)
    | Acking(msg: Message)
    | Dequeueing(msg: Message)
    | Checking

  /**
   * The state of a process: the request heap as the set of its timestamps, the received times by sender (its own
   * place is unused), its position in the stream, and whether its next `Request` would block on the wait group.
   */
  datatype Proc = Proc(
    clock: int,
    received: seq<int>,
    queue: set<Timestamp>,
    cursor: nat,
    stage: Stage,
    isOccupying: bool,
    requestTimestamp: Option<Timestamp>,
    waiting: bool)

  function Make(n: nat, clock: int): Proc {
    Proc(clock, seq(n, i => 0), {}, 0, Idle, false, None, false)
  }

  /** The listener of p handles this message; it skips its own and acknowledgments to others. */
  predicate For(m: Message, p: int) {
    m.from != p && (m.msgType == Acknowledgment ==> m.to == p)
  }

  function Max(a: int, b: int): int {
    if a < b then b else a
  }

  /** Reading the next message of the stream. */
  function Take(pr: Proc, p: int, m: Message): Proc {
    pr.(cursor := pr.cursor + 1, stage := if For(m, p) then Received(m) else Idle)
  }

  function UpdateTime(pr: Proc, m: Message): Proc
    requires 0 <= m.from < |pr.received|
  {
    pr.(clock := Max(pr.clock, m.msgTime + 1),
        received := pr.received[m.from := m.msgTime],
        stage := match m.msgType
                 case RequestResource => Queueing(m)
                 case ReleaseResource => Dequeueing(m)
                 case Acknowledgment => Checking)
  }

  function PushRequest(pr: Proc, m: Message): Proc {
    pr.(queue := pr.queue + {m.timestamp}, stage := Acking(m))
  }

  function AckMessage(pr: Proc, p: int, m: Message): Message {
    Message(Acknowledgment, pr.clock + 1, p, m.from, m.timestamp)
  }

  function Ack(pr: Proc): Proc {
    pr.(clock := pr.clock + 1, stage := Checking)
  }

  function RemoveRequest(pr: Proc, m: Message): Proc {
    pr.(queue := pr.queue - {m.timestamp}, stage := Checking)
  }

  /** Rule 5: the own request comes first in the queue, and everybody has sent something later. */
  ghost predicate Rule5(pr: Proc, p: int) {
    && !pr.isOccupying && pr.requestTimestamp.Some?
    && IsLeast(pr.requestTimestamp.value, pr.queue)
    && forall q :: 0 <= q < |pr.received| && q != p ==> pr.requestTimestamp.value.IsBefore(pr.received[q])
  }

  function Occupy(pr: Proc): Proc {
    pr.(isOccupying := true, stage := Idle)
  }

  function ReleaseMessage(pr: Proc, p: int): Message
    requires pr.requestTimestamp.Some?
  {
    Message(ReleaseResource, pr.clock + 1, p, OTHERS, pr.requestTimestamp.value)
  }

  function Release(pr: Proc): Proc
    requires pr.requestTimestamp.Some?
  {
    pr.(queue := pr.queue - {pr.requestTimestamp.value}, clock := pr.clock + 1, isOccupying := false,
        requestTimestamp := None)
  }

  function RequestMessage(pr: Proc, p: int): Message {
    Message(RequestResource, pr.clock + 1, p, OTHERS, Timestamp(pr.clock + 1, p))
  }

  function Request(pr: Proc, p: int): Proc {
    var ts := Timestamp(pr.clock + 1, p);
    pr.(waiting := true, clock := pr.clock + 1, queue := pr.queue + {ts}, requestTimestamp := Some(ts))
  }

  /** The messages whose time this process has recorded form a prefix of this length. */
  function Timed(pr: Proc): int {
    if pr.stage.Received? then pr.cursor - 1 else pr.cursor
  }

  /** The messages whose request or release it has carried out. */
  function Queued(pr: Proc): int {
    if pr.stage.Received? || pr.stage.Queueing? || pr.stage.Dequeueing? then pr.cursor - 1 else pr.cursor
  }

  /** The messages it has dealt with and acknowledged. */
  function Acked(pr: Proc): int {
    if pr.stage.Idle? || pr.stage.Checking? then pr.cursor else pr.cursor - 1
  }
}
