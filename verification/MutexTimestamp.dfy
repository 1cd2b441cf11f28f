/** Timestamps and messages. */
module MutexTimestamp {
  // Timestamps with the total order of all requests, and the messages of the mutual exclusion algorithm.

  import opened Options

  datatype Timestamp = Timestamp(time: int, process: int) {

    /** Time first; equal times are ordered by process. */
    predicate Less(other: Timestamp) {
      if time == other.time then process < other.process else time < other.time
    }

    /** No timestamp stands for the program's nil, which equals nothing. */
    predicate IsEqual(other: Option<Timestamp>) {
      match other
      case None => false
      case Some(ts) => time == ts.time && process == ts.process
    }

    predicate IsBefore(t: int) {
      time < t
    }
  }

  datatype MsgType = RequestResource | ReleaseResource | Acknowledgment

  /** The receiver of a message for everybody but the sender. */
  const OTHERS := -1

  datatype Message = Message(msgType: MsgType, msgTime: int, from: int, to: int, timestamp: Timestamp)

  /** The least timestamp of a queue. */
  ghost predicate IsLeast(ts: Timestamp, queue: set<Timestamp>) {
    ts in queue && forall t :: t in queue ==> t == ts || ts.Less(t)
  }

  ghost predicate Sorted(s: seq<Timestamp>) {
    forall i, j :: 0 <= i < j < |s| ==> s[i].Less(s[j])
  }

  /** Less is a strict total order. */
  lemma LessIsTotalOrder(a: Timestamp, b: Timestamp, c: Timestamp)
    ensures !a.Less(a)
    ensures a.Less(b) && b.Less(c) ==> a.Less(c)
    ensures a.Less(b) || b.Less(a) || a.IsEqual(Some(b))
    ensures !(a.Less(b) && b.Less(a)) && !(a.Less(b) && a.IsEqual(Some(b)))
  {
  }

  /** Every non-empty queue has a least timestamp, and only one. */
  lemma {:induction false} LeastExists(queue: set<Timestamp>) returns (ts: Timestamp)
    requires queue != {}
    ensures IsLeast(ts, queue)
    ensures forall t :: IsLeast(t, queue) ==> t == ts
  {
    var t :| t in queue;
    if queue == {t} {
      ts := t;
    } else {
      var least := LeastExists(queue - {t});
      ts := if t.Less(least) then t else least;
      assert forall u :: u in queue ==> u == t || u in queue - {t};
    }
  }
}
