/** Majorities of a finite cluster of servers 0, ..., n - 1. */
module Quorum {

  ghost function Ids(n: nat): (ids: set<nat>)
    ensures forall i: nat :: i in ids <==> i < n
    ensures |ids| == n
  {
    if n == 0 then {} else Ids(n - 1) + {n - 1}
  }

  /** More than half of n servers. */
  ghost predicate Majority(q: set<nat>, n: nat) {
    q <= Ids(n) && 2 * |q| > n
  }

  lemma SubsetSize(a: set<nat>, b: set<nat>)
    requires a <= b
    ensures |a| <= |b|
  {
    assert b == a + (b - a);
    assert |b| == |a| + |b - a|;
  }

  /** Two majorities have a common member. */
  lemma MajoritiesMeet(a: set<nat>, b: set<nat>, n: nat) returns (v: nat)
    requires Majority(a, n) && Majority(b, n)
    ensures v in a && v in b && v < n
  {
    SubsetSize(a + b, Ids(n));
    assert |a + b| == |a| + |b| - |a * b|;
    assert a * b != {};
    v :| v in a * b;
  }
}
