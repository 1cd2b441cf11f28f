/** Request queue and received times. */
module MutexQueues {
  // The two data structures of a process, both over an indexed heap.

  import opened Options
  import opened MutexTimestamp
  import opened IndexedHeap

  /**
   * The request queue: a heap of requests and a map to find the request of a timestamp. The program's map is
   * keyed by the pointer to the timestamp; here it is keyed by the timestamp.
   */
  class RequestQueue {
    const rpq: Heap<Timestamp>
    var requestOf: map<Timestamp, Item<Timestamp>>

    /** The map finds requests of the heap. */
    ghost predicate Sound()
      reads this, rpq, rpq.items
    {
      && rpq.Valid()
      && (forall a: Timestamp, b: Timestamp :: rpq.less(a, b) <==> a.Less(b))
      && (forall ts :: ts in requestOf ==> requestOf[ts] in rpq.items && requestOf[ts].key == ts)
    }

    /** The heap and the map hold the same requests: no timestamp is queued twice. */
    ghost predicate Valid()
      reads this, rpq, rpq.items
    {
      Sound() && forall it :: it in rpq.items ==> it.key in requestOf && requestOf[it.key] == it
    }

    ghost function Contents(): set<Timestamp>
      reads this
    {
      requestOf.Keys
    }

    constructor ()
      ensures Valid() && Contents() == {} && fresh(rpq) && rpq.items == []
    {
      rpq := new Heap<Timestamp>((a: Timestamp, b: Timestamp) => a.Less(b));
      requestOf := map[];
    }

    /** The root of the heap: no request in it comes before. */
    method Min() returns (ts: Option<Timestamp>)
      requires Sound()
      ensures ts.None? <==> rpq.items == []
      ensures ts.Some? ==> exists k :: 0 <= k < |rpq.items| && rpq.items[k].key == ts.value
      ensures ts.Some? ==> forall k :: 0 <= k < |rpq.items| ==> !rpq.items[k].key.Less(ts.value)
      ensures Valid() ==> (ts.None? <==> Contents() == {}) && (ts.Some? ==> IsLeast(ts.value, Contents()))
    {
      if |rpq.items| == 0 {
        ts := None;
      } else {
        ts := Some(rpq.items[0].key);
        assert rpq.items[0] in rpq.items;
        forall k | 0 <= k < |rpq.items|
          ensures !rpq.items[k].key.Less(ts.value)
        {
          RootIsLeast(rpq.less, rpq.Keys(), k);
        }
      }
    }

    /**
     * Adds one request to the heap and lets the map find it. Pushing a timestamp that is queued already leaves two
     * requests of it in the heap, of which the map finds the new one.
     */
    method Push(ts: Timestamp)
      requires Sound()
      modifies this, rpq, rpq.Members()
      ensures Sound() && requestOf.Keys == old(requestOf.Keys) + {ts} && fresh(requestOf[ts])
      ensures rpq.Members() == old(rpq.Members()) + {requestOf[ts]}
      ensures forall t :: t in old(requestOf) && t != ts ==> requestOf[t] == old(requestOf[t])
      ensures Valid() <==> old(Valid()) && ts !in old(requestOf)
    {
      var r := new Item<Timestamp>(ts);
      ghost var before, map0, valid := rpq.Members(), requestOf, Valid();
      requestOf := requestOf[ts := r];
      rpq.Push(r);
      forall t | t in requestOf
        ensures requestOf[t] in rpq.items && requestOf[t].key == t
      {
        assert requestOf[t] in before + {r};
        assert requestOf[t] in rpq.Members();
      }
      PushedTwice(before, map0, valid, r);
    }

    /** After a push every request in the heap is the one the map finds, unless the timestamp was queued already. */
    lemma PushedTwice(before: set<Item<Timestamp>>, map0: map<Timestamp, Item<Timestamp>>, valid: bool, r: Item<Timestamp>)
      requires Sound() && rpq.Members() == before + {r} && r !in before && requestOf == map0[r.key := r]
      requires forall t :: t in map0 ==> map0[t] in before && map0[t].key == t
      requires valid <==> forall it :: it in before ==> it.key in map0 && map0[it.key] == it
      ensures Valid() <==> valid && r.key !in map0
    {
      if r.key in map0 {
        assert map0[r.key] in rpq.Members() && requestOf[map0[r.key].key] != map0[r.key];
      }
      if Valid() {
        forall it | it in before
          ensures it.key in map0 && map0[it.key] == it
        {
          assert it in rpq.Members();
        }
      }
      if valid && r.key !in map0 {
        forall it | it in rpq.items
          ensures it.key in requestOf && requestOf[it.key] == it
        {
          assert it in before + {r};
        }
      }
    }

    /** Takes the request that the map finds out of the heap; with none to find the program would dereference nil. */
    method Remove(ts: Timestamp)
      requires Sound() && ts in requestOf
      modifies this, rpq, rpq.Members()
      ensures Sound() && requestOf == old(requestOf) - {ts} && rpq.Members() == old(rpq.Members()) - {old(requestOf[ts])}
      ensures old(Valid()) ==> Valid()
    {
      var r := requestOf[ts];
      ghost var before := rpq.Members();
      var removed := rpq.Remove(r.index);
      requestOf := requestOf - {ts};
      forall t | t in requestOf
        ensures requestOf[t] in rpq.items && requestOf[t].key == t
      {
        assert requestOf[t] in before - {r};
        assert requestOf[t] in rpq.Members();
      }
      if old(Valid()) {
        forall it | it in rpq.items
          ensures it.key in requestOf && requestOf[it.key] == it
        {
          assert it in before - {r};
        }
      }
    }
  }

  /** The latest time received from each other process: a record per process, and a heap of the records. */
  class ReceivedTime {
    const me: nat
    const trq: Heap<int>
    var trs: seq<Item?<int>>
    /** The time recorded for each process; the place of the process itself is unused. */
    ghost var Times: seq<int>

    /** The heap holds exactly the records of the processes below bound, one for each but me. */
    ghost predicate HoldsBelow(bound: nat)
      reads this, trq, trq.items
    {
      && trq.Valid()
      && (forall a: int, b: int :: trq.less(a, b) <==> a < b)
      && me < |trs| && bound <= |trs|
      && (forall id :: 0 <= id < bound && id != me ==> trs[id] != null && trs[id] in trq.items)
      && (forall i, j :: 0 <= i < j < bound && i != me && j != me ==> trs[i] != trs[j])
      && (forall k :: 0 <= k < |trq.items| ==> IsRecord(trq.items[k], bound))
    }

    /** The item is the record of a process below bound other than me. */
    ghost predicate IsRecord(it: Item<int>, bound: nat)
      reads this
    {
      exists id :: 0 <= id < bound && id < |trs| && id != me && trs[id] == it
    }

    ghost predicate Valid()
      reads this, trq, trq.items
    {
      && HoldsBelow(|trs|)
      && |Times| == |trs| && Times[me] == 0
      && forall id :: 0 <= id < |trs| && id != me ==> Times[id] == trs[id].key
    }

    constructor (all: nat, me: nat)
      requires me < all
      ensures Valid() && this.me == me && Times == seq(all, i => 0)
      ensures fresh(trq) && fresh(trq.Members())
    {
      this.me := me;
      trq := new Heap<int>((a: int, b: int) => a < b);
      trs := seq(all, i => null);
      Times := seq(all, i => 0);
      new;
      AddRecords();
    }

    /** The loop of the constructor. */
    method AddRecords()
      requires me < |trs| && HoldsBelow(0) && trq.items == []
      modifies this`trs, trq
      ensures HoldsBelow(|trs|) && |trs| == old(|trs|) && fresh(trq.Members())
      ensures forall id :: 0 <= id < |trs| && id != me ==> trs[id].key == 0
    {
      var all := |trs|;
      for i := 0 to all
        invariant HoldsBelow(i) && fresh(trq.Members()) && |trs| == all
        invariant forall id :: 0 <= id < i && id != me ==> trs[id].key == 0
      {
        if i == me {
          SkipRecord();
          continue;
        }
        AddRecord(i);
      }
    }

    /** There is no record of the process itself. */
    lemma SkipRecord()
      requires HoldsBelow(me)
      ensures HoldsBelow(me + 1)
    {
      forall k | 0 <= k < |trq.items|
        ensures IsRecord(trq.items[k], me + 1)
      {
        assert IsRecord(trq.items[k], me);
      }
    }

    method AddRecord(i: nat)
      requires i < |trs| && i != me && HoldsBelow(i)
      modifies this`trs, trq, trq.Members()`index
      ensures |trs| == old(|trs|) && HoldsBelow(i + 1) && trs[i].key == 0
      ensures forall id :: 0 <= id < i ==> trs[id] == old(trs[id])
      ensures fresh(trq.Members() - old(trq.Members()))
    {
      var r := new Item<int>(0);
      ghost var members := trq.Members();
      trs := trs[i := r];
      trq.Push(r);
      forall id | 0 <= id < i + 1 && id != me
        ensures trs[id] in trq.items
      {
        assert trs[id] in members + {r};
        assert trs[id] in trq.Members();
      }
      forall k | 0 <= k < |trq.items|
        ensures IsRecord(trq.items[k], i + 1)
      {
        assert trq.items[k] in members + {r};
        if trq.items[k] == r {
          assert trs[i] == r;
        } else {
          var id :| 0 <= id < i && id != me && old(trs)[id] == trq.items[k];
          assert trs[id] == trq.items[k];
        }
      }
    }

    /** Re-keys the record in place, upwards or downwards; the program's record of `me` is nil. */
    method Update(id: nat, time: int)
      requires Valid() && id < |trs| && id != me
      modifies this`Times, trq, trq.Members()
      ensures Valid() && Times == old(Times)[id := time]
      ensures trq.Members() == old(trq.Members())
    {
      var tr: Item<int> := trs[id];
      ghost var keys, members := trq.Keys(), trq.Members();
      tr.key := time;
      Times := Times[id := time];
      ReplaceKey(trq.less, keys, tr.index, time);
      assert trq.Keys() == keys[tr.index := time];
      trq.Fix(tr.index);
      forall k | 0 <= k < |trq.items|
        ensures IsRecord(trq.items[k], |trs|)
      {
        assert trq.items[k] in members;
      }
      forall i | 0 <= i < |trs| && i != me
        ensures trs[i] in trq.items
      {
        assert trs[i] in members;
        assert trs[i] in trq.Members();
      }
    }

    /** The least time received from another process; with no other process the program would index an empty slice. */
    method Min() returns (time: int)
      requires Valid() && |trs| >= 2
      ensures forall id :: 0 <= id < |trs| && id != me ==> time <= Times[id]
      ensures exists id :: 0 <= id < |trs| && id != me && time == Times[id]
    {
      ghost var other := if me == 0 then 1 else 0;
      assert trs[other] in trq.items;
      time := trq.items[0].key;
      forall id | 0 <= id < |trs| && id != me
        ensures time <= Times[id]
      {
        var k :| 0 <= k < |trq.items| && trq.items[k] == trs[id];
        RootIsLeast(trq.less, trq.Keys(), k);
      }
      assert IsRecord(trq.items[0], |trs|);
      ghost var id :| 0 <= id < |trs| && id != me && trs[id] == trq.items[0];
    }
  }
}
