/** `numpy.argmax` over one non-empty row of scores. */
module Argmax {

  /** `i` is the position of a largest element of `v`, and no earlier
      position holds an element that large. */
  predicate IsFirstMax(v: seq<real>, i: int)
  {
    && 0 <= i < |v|
    && (forall j :: 0 <= j < |v| ==> v[j] <= v[i])
    && (forall j :: 0 <= j < i ==> v[j] < v[i])
  }

  /** The first position holding the maximum, found by recursion on the
      prefix without the last element. */
  function ArgMax(v: seq<real>): (i: nat)
    requires |v| > 0
    ensures IsFirstMax(v, i)
    decreases |v|
  {
    if |v| == 1 then 0
    else
      var init := v[..|v| - 1];
      var k := ArgMax(init);
      if v[|v| - 1] > v[k] then |v| - 1 else k
  }

  /** A sequence has at most one first maximum. */
  lemma FirstMaxIsUnique(v: seq<real>, k: int)
    requires IsFirstMax(v, k)
    ensures forall i :: IsFirstMax(v, i) ==> i == k
  {
    forall i | IsFirstMax(v, i)
      ensures i == k
    {
      // Each is at least as large as the other, so neither lies strictly
      // before the other.
      assert v[i] <= v[k] && v[k] <= v[i];
    }
  }

  /** The left-to-right scan numpy performs: keep the first strictly larger
      element seen so far. */
  method ArgMaxScan(v: seq<real>) returns (best: nat)
    requires |v| > 0
    ensures IsFirstMax(v, best)
    ensures best == ArgMax(v)
  {
    best := 0;
    var n := 1;
    while n < |v|
      invariant 1 <= n <= |v|
      invariant best < n
      invariant forall j :: 0 <= j < n ==> v[j] <= v[best]
      invariant forall j :: 0 <= j < best ==> v[j] < v[best]
    {
      if v[n] > v[best] {
        best := n;
      }
      n := n + 1;
    }
    FirstMaxIsUnique(v, ArgMax(v));
  }
}
