/** A binary heap with back-pointers. */
module IndexedHeap {
  // The sift-up and sift-down of Go's container/heap over the Less, Swap, Push and Pop of the two priority queues of
  // the mutual exclusion code, which differ only in the type and the order of their keys. Every item knows its
  // position.

  /* ---------- Heaps as sequences of keys ---------- */

  /** The parent's position. Go's division truncates, so that of the root is the root. */
  function Parent(j: nat): nat {
    if j == 0 then 0 else (j - 1) / 2
  }

  /** The order is a strict weak order. */
  ghost predicate IsOrder<T(!new)>(less: (T, T) -> bool) {
    && (forall x, y :: less(x, y) ==> !less(y, x))
    && (forall x, y, z :: !less(y, x) && !less(z, y) ==> !less(z, x))
  }

  /** Position k does not come before its parent. */
  ghost predicate InPlace<T>(less: (T, T) -> bool, keys: seq<T>, k: nat)
    requires k < |keys|
  {
    !less(keys[k], keys[Parent(k)])
  }

  /** The children of position i do not come before its parent. */
  ghost predicate Bridged<T>(less: (T, T) -> bool, keys: seq<T>, i: nat)
    requires i < |keys|
  {
    i > 0 ==> forall k :: 0 < k < |keys| && Parent(k) == i ==> !less(keys[k], keys[Parent(i)])
  }

  ghost predicate IsHeap<T>(less: (T, T) -> bool, keys: seq<T>) {
    forall k {:trigger InPlace(less, keys, k)} :: 0 < k < |keys| ==> InPlace(less, keys, k)
  }

  /** A heap but for position j, which may come before its parent. */
  ghost predicate HeapBelow<T>(less: (T, T) -> bool, keys: seq<T>, j: nat)
    requires j < |keys|
  {
    && (forall k {:trigger InPlace(less, keys, k)} :: 0 < k < |keys| && k != j ==> InPlace(less, keys, k))
    && Bridged(less, keys, j)
  }

  /** A heap but for the children of position i, and but for i itself where the descent has not left `start`. */
  ghost predicate HeapAbove<T>(less: (T, T) -> bool, keys: seq<T>, i: nat, start: nat)
    requires i < |keys|
  {
    && (forall k {:trigger InPlace(less, keys, k)} ::
      0 < k < |keys| && Parent(k) != i && (k == start ==> i != start) ==> InPlace(less, keys, k))
    && Bridged(less, keys, i)
  }

  /** A heap but for one key that may stand anywhere. */
  ghost predicate HeapExcept<T>(less: (T, T) -> bool, keys: seq<T>, i: nat)
    requires i < |keys|
  {
    HeapAbove(less, keys, i, i)
  }

  function Swapped<T>(s: seq<T>, i: nat, j: nat): seq<T>
    requires i < |s| && j < |s|
  {
    s[i := s[j]][j := s[i]]
  }

  /** The least key is at the root. */
  lemma {:induction false} RootIsLeast<T(!new)>(less: (T, T) -> bool, keys: seq<T>, k: nat)
    requires IsOrder(less) && IsHeap(less, keys) && k < |keys|
    ensures !less(keys[k], keys[0])
    decreases k
  {
    if k > 0 {
      assert InPlace(less, keys, k);
      RootIsLeast(less, keys, Parent(k));
    }
  }

  /** One step up. */
  lemma SwapUp<T(!new)>(less: (T, T) -> bool, keys: seq<T>, j: nat)
    requires IsOrder(less) && 0 < j < |keys| && HeapBelow(less, keys, j) && less(keys[j], keys[Parent(j)])
    ensures HeapBelow(less, Swapped(keys, Parent(j), j), Parent(j))
  {
    var i := Parent(j);
    var keys' := Swapped(keys, i, j);
    assert i > 0 ==> InPlace(less, keys, i);
    forall k | 0 < k < |keys| && k != i
      ensures InPlace(less, keys', k)
    {
      assert k != j ==> InPlace(less, keys, k);
    }
    forall k | 0 < k < |keys| && Parent(k) == i && i > 0
      ensures !less(keys'[k], keys'[Parent(i)])
    {
      assert k != j ==> InPlace(less, keys, k);
    }
  }

  /** Position j is the child of i with the least key. */
  ghost predicate LeastChild<T>(less: (T, T) -> bool, keys: seq<T>, i: nat, j: nat)
    requires j < |keys|
  {
    && 0 < j && Parent(j) == i
    && forall k :: 0 < k < |keys| && Parent(k) == i ==> !less(keys[k], keys[j])
  }

  /** One step down. */
  lemma SwapDown<T(!new)>(less: (T, T) -> bool, keys: seq<T>, i: nat, j: nat, start: nat)
    requires IsOrder(less) && i < |keys| && j < |keys| && start <= i && HeapAbove(less, keys, i, start)
    requires LeastChild(less, keys, i, j) && less(keys[j], keys[i])
    ensures HeapAbove(less, Swapped(keys, i, j), j, start)
  {
    var keys' := Swapped(keys, i, j);
    forall k | 0 < k < |keys| && Parent(k) != j
      ensures InPlace(less, keys', k)
    {
      if Parent(k) != i && k != i {
        assert InPlace(less, keys, k);
      }
    }
    forall k | 0 < k < |keys| && Parent(k) == j
      ensures !less(keys'[k], keys'[Parent(j)])
    {
      assert InPlace(less, keys, k);
    }
  }

  /** The descent ends in a heap, unless it has not left its start. */
  lemma DownEnds<T(!new)>(less: (T, T) -> bool, keys: seq<T>, i: nat, start: nat)
    requires i < |keys| && start <= i && HeapAbove(less, keys, i, start)
    requires forall k :: 0 < k < |keys| && Parent(k) == i ==> !less(keys[k], keys[i])
    ensures i > start ==> IsHeap(less, keys)
    ensures i == start ==> HeapBelow(less, keys, start)
  {
    forall k | 0 < k < |keys| && (i == start ==> k != start)
      ensures InPlace(less, keys, k)
    {
    }
  }

  /** The ascent ends in a heap. */
  lemma UpEnds<T(!new)>(less: (T, T) -> bool, keys: seq<T>, j: nat)
    requires IsOrder(less) && j < |keys| && HeapBelow(less, keys, j)
    requires j == Parent(j) || !less(keys[j], keys[Parent(j)])
    ensures IsHeap(less, keys)
  {
    forall k | 0 < k < |keys|
      ensures InPlace(less, keys, k)
    {
    }
  }

  /** The child that the descent compares with its parent is the least. */
  lemma ChildIsLeast<T(!new)>(less: (T, T) -> bool, keys: seq<T>, i: nat, j: nat)
    requires IsOrder(less) && 2 * i + 1 < |keys| && j < |keys|
    requires j == if 2 * i + 2 < |keys| && less(keys[2 * i + 2], keys[2 * i + 1]) then 2 * i + 2 else 2 * i + 1
    ensures LeastChild(less, keys, i, j)
  {
    forall k | 0 < k < |keys| && Parent(k) == i
      ensures !less(keys[k], keys[j])
    {
      assert k == 2 * i + 1 || k == 2 * i + 2;
    }
  }

  /** A position that does not come after its least child comes after none. */
  lemma ChildrenAfter<T(!new)>(less: (T, T) -> bool, keys: seq<T>, i: nat, j: nat)
    requires IsOrder(less) && i < |keys| && j < |keys| && LeastChild(less, keys, i, j) && !less(keys[j], keys[i])
    ensures forall k :: 0 < k < |keys| && Parent(k) == i ==> !less(keys[k], keys[i])
  {
  }

  /** A heap with one key replaced is a heap except there. */
  lemma ReplaceKey<T(!new)>(less: (T, T) -> bool, keys: seq<T>, i: nat, key: T)
    requires IsOrder(less) && IsHeap(less, keys) && i < |keys|
    ensures HeapExcept(less, keys[i := key], i)
  {
    var keys' := keys[i := key];
    forall k | 0 < k < |keys| && Parent(k) != i && k != i
      ensures InPlace(less, keys', k)
    {
      assert InPlace(less, keys, k);
    }
    forall k | 0 < k < |keys| && Parent(k) == i && i > 0
      ensures !less(keys'[k], keys'[Parent(i)])
    {
      assert InPlace(less, keys, k) && InPlace(less, keys, i);
    }
  }

  /** Leaving out the last key leaves a heap. */
  lemma DropLast<T>(less: (T, T) -> bool, keys: seq<T>)
    requires |keys| > 0 && IsHeap(less, keys)
    ensures IsHeap(less, keys[..|keys| - 1])
  {
    var keys' := keys[..|keys| - 1];
    forall k | 0 < k < |keys'|
      ensures InPlace(less, keys', k)
    {
      assert InPlace(less, keys, k);
    }
  }

  /** A key added at the end is the only one that may come before its parent. */
  lemma AddLast<T>(less: (T, T) -> bool, keys: seq<T>, key: T)
    requires IsHeap(less, keys)
    ensures HeapBelow(less, keys + [key], |keys|)
  {
    var keys' := keys + [key];
    forall k | 0 < k < |keys'| && k != |keys|
      ensures InPlace(less, keys', k)
    {
      assert InPlace(less, keys, k);
    }
  }

  /* ---------- The heap of items ---------- */

  class Item<T> {
    var key: T
    var index: int

    constructor (key: T)
      ensures this.key == key
    {
      this.key := key;
      index := 0;
    }
  }

  class Heap<T(!new)> {
    const less: (T, T) -> bool
    var items: seq<Item<T>>

    /** Every stored index is the true position; so no item is stored twice. */
    ghost predicate Indexed()
      reads this, items
    {
      forall i :: 0 <= i < |items| ==> items[i].index == i
    }

    ghost function Keys(): (keys: seq<T>)
      reads this, items
      ensures |keys| == |items| && forall i :: 0 <= i < |items| ==> keys[i] == items[i].key
    {
      seq(|items|, i requires 0 <= i < |items| reads this, items => items[i].key)
    }

    ghost function Members(): (members: set<Item<T>>)
      reads this
    {
      set it | it in items
    }

    ghost predicate Valid()
      reads this, items
    {
      IsOrder(less) && Indexed() && IsHeap(less, Keys())
    }

    constructor (less: (T, T) -> bool)
      requires IsOrder(less)
      ensures Valid() && this.less == less && items == []
    {
      this.less := less;
      items := [];
    }

    method Swap(i: nat, j: nat)
      requires Indexed() && i < |items| && j < |items|
      modifies this`items, Members()`index
      ensures Indexed() && items == Swapped(old(items), i, j) && Members() == old(Members())
      ensures Keys() == Swapped(old(Keys()), i, j)
    {
      ghost var before := items;
      items := items[i := items[j]][j := items[i]];
      items[i].index := i;
      items[j].index := j;
      forall it
        ensures it in items <==> it in before
      {
        if it in before {
          var k :| 0 <= k < |before| && before[k] == it;
          assert items[if k == i then j else if k == j then i else k] == it;
        }
      }
      assert Keys() == Swapped(old(Keys()), i, j);
    }

    /** Sifts up inside the first n items. */
    method Up(at: nat, ghost n: nat)
      requires IsOrder(less) && Indexed() && at < n <= |items| && HeapBelow(less, Keys()[..n], at)
      modifies this`items, Members()`index
      ensures Members() == old(Members()) && |items| == old(|items|) && items[n..] == old(items[n..])
      ensures Indexed() && IsHeap(less, Keys()[..n])
    {
      var j: nat := at;
      while true
        invariant Indexed() && j < n <= |items| == old(|items|) && HeapBelow(less, Keys()[..n], j)
        invariant Members() == old(Members()) && items[n..] == old(items[n..])
        decreases j
      {
        var i := Parent(j);
        if i == j || !less(items[j].key, items[i].key) {
          break;
        }
        SwapUp(less, Keys()[..n], j);
        SwapBefore(n, i, j);
        j := i;
      }
      UpEnds(less, Keys()[..n], j);
    }

    /** The child of position i with the lesser key. */
    method LesserChild(i: nat, n: nat) returns (j: nat)
      requires IsOrder(less) && 2 * i + 1 < n <= |items|
      ensures j < n && LeastChild(less, Keys()[..n], i, j)
    {
      var j1 := 2 * i + 1;
      j := j1;
      if j1 + 1 < n && less(items[j1 + 1].key, items[j1].key) {
        j := j1 + 1;
      }
      ChildIsLeast(less, Keys()[..n], i, j);
    }

    /** Sifts down inside the first n items; returns whether the item moved. */
    method Down(start: nat, n: nat) returns (moved: bool)
      requires IsOrder(less) && Indexed() && start < n <= |items| && HeapExcept(less, Keys()[..n], start)
      modifies this`items, Members()`index
      ensures Members() == old(Members()) && |items| == old(|items|) && items[n..] == old(items[n..])
      ensures Indexed() && if moved then IsHeap(less, Keys()[..n]) else HeapBelow(less, Keys()[..n], start)
    {
      var i: nat := start;
      while true
        invariant Indexed() && start <= i < n <= |items| == old(|items|) && HeapAbove(less, Keys()[..n], i, start)
        invariant Members() == old(Members()) && items[n..] == old(items[n..])
        decreases n - i
      {
        var j1 := 2 * i + 1;
        if j1 >= n {
          break;
        }
        ghost var keys := Keys()[..n];
        var j := LesserChild(i, n);
        if !less(items[j].key, items[i].key) {
          ChildrenAfter(less, keys, i, j);
          break;
        }
        SwapDown(less, keys, i, j, start);
        SwapBefore(n, i, j);
        i := j;
      }
      DownEnds(less, Keys()[..n], i, start);
      moved := i > start;
    }

    /** A swap among the first n items. */
    method SwapBefore(ghost n: nat, i: nat, j: nat)
      requires Indexed() && i < n <= |items| && j < n
      modifies this`items, Members()`index
      ensures Indexed() && |items| == old(|items|) && Members() == old(Members()) && items[n..] == old(items[n..])
      ensures Keys()[..n] == Swapped(old(Keys()[..n]), i, j)
    {
      assert Swapped(Keys(), i, j)[..n] == Swapped(Keys()[..n], i, j);
      Swap(i, j);
    }

    /** Re-establishes the heap after the key at position i was changed in place. */
    method Fix(i: nat)
      requires IsOrder(less) && Indexed() && i < |items| && HeapExcept(less, Keys(), i)
      modifies this`items, Members()`index
      ensures Valid() && Members() == old(Members()) && |items| == old(|items|)
    {
      assert Keys()[..|items|] == Keys();
      var moved := Down(i, |items|);
      if !moved {
        Up(i, |items|);
      }
      assert Keys()[..|items|] == Keys();
    }

    method Push(x: Item<T>)
      requires Valid() && x !in items
      modifies this`items, Members()`index, x`index
      ensures Valid() && Members() == old(Members()) + {x} && |items| == old(|items|) + 1
    {
      x.index := |items|;
      AddLast(less, Keys(), x.key);
      ghost var keys := Keys() + [x.key];
      items := items + [x];
      assert Keys()[..|items|] == Keys() == keys;
      Up(|items| - 1, |items|);
      assert Keys()[..|items|] == Keys();
    }

    /** Takes out the last item. */
    method Pop() returns (x: Item<T>)
      requires Indexed() && |items| > 0
      modifies this`items, Members()`index
      ensures Indexed() && x == old(items)[|old(items)| - 1] && items == old(items)[..|old(items)| - 1] && x.index == -1
      ensures Keys() == old(Keys())[..|items|]
      ensures x !in items && Members() == old(Members()) - {x}
    {
      x := items[|items| - 1];
      assert forall i :: 0 <= i < |items| - 1 ==> items[i] != x;
      x.index := -1;
      items := items[..|items| - 1];
    }

    /** Takes out the item at position i, wherever that is. */
    method Remove(i: nat) returns (x: Item<T>)
      requires Valid() && i < |items|
      modifies this`items, Members()`index
      ensures Valid() && x == old(items)[i] && x.index == -1
      ensures x !in items && Members() == old(Members()) - {x} && |items| == old(|items|) - 1
    {
      var n := |items| - 1;
      DropLast(less, Keys());
      if n != i {
        ReplaceKey(less, Keys()[..n], i, Keys()[n]);
        assert Swapped(Keys(), i, n)[..n] == Keys()[..n][i := Keys()[n]];
        Swap(i, n);
        var moved := Down(i, n);
        if !moved {
          Up(i, n);
        }
        assert items[n] == items[n..][0];
      }
      x := Pop();
    }
  }
}
