/**
 Sequence helpers shared by the stage and worker models: the linear search
 that Go writes as a `for range` loop, and slice-based deletion.
 */
module Seqs {

  /** Linear search from the front, as `for _, x := range xs { if x == y { return true } }`. */
  function Contains<T(==)>(xs: seq<T>, y: T): (b: bool)
    ensures b <==> y in xs
  {
    if |xs| == 0 then false
    else if xs[0] == y then true
    else Contains(xs[1..], y)
  }

  /** `append(xs[:i], xs[i+1:]...)`. */
  function RemoveAt<T>(xs: seq<T>, i: nat): (r: seq<T>)
    requires i < |xs|
    ensures |r| == |xs| - 1
    ensures forall k :: 0 <= k < i ==> r[k] == xs[k]
    ensures forall k :: i <= k < |r| ==> r[k] == xs[k + 1]
  {
    xs[..i] + xs[i + 1..]
  }

  /** The first index holding `y`, if any. */
  function IndexOf<T(==)>(xs: seq<T>, y: T): (r: nat)
    ensures r <= |xs|
    ensures r < |xs| ==> xs[r] == y
    ensures forall k :: 0 <= k < r ==> xs[k] != y
  {
    if |xs| == 0 then 0
    else if xs[0] == y then 0
    else 1 + IndexOf(xs[1..], y)
  }

  /** `order` lists every key of `m` exactly once: one possible order of a Go `for range` over the map. */
  predicate IsOrderOf<K, V>(order: seq<K>, m: map<K, V>)
  {
    && (forall i :: 0 <= i < |order| ==> order[i] in m)
    && (forall k :: k in m ==> k in order)
    && (forall i, j :: 0 <= i < j < |order| ==> order[i] != order[j])
  }
}
