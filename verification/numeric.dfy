/**
  Scalar helpers shared by both simulators: Python's two-argument `min` and
  `max`, numpy's `clip`, and a finite sum over a slice of a series. Python
  floats are modelled as exact reals.
 */
module Numeric {

  /** Python's `min(a, b)`: the first argument unless the second is strictly smaller. */
  function Min(a: real, b: real): (r: real)
    ensures r <= a && r <= b
    ensures r == a || r == b
  {
    if b < a then b else a
  }

  /** Python's `max(a, b)`: the first argument unless the second is strictly larger. */
  function Max(a: real, b: real): (r: real)
    ensures r >= a && r >= b
    ensures r == a || r == b
  {
    if b > a then b else a
  }

  /** Distance between two reals. */
  function Dist(a: real, b: real): real
  {
    if a >= b then a - b else b - a
  }

  /**
    numpy's `clip(v, lo, hi)`, defined there as `minimum(maximum(v, lo), hi)`.
    For a non-empty interval the result is the point of `[lo, hi]` nearest to `v`.
   */
  function Clip(v: real, lo: real, hi: real): (r: real)
    ensures lo <= hi ==> lo <= r <= hi
    ensures lo <= v <= hi ==> r == v
  {
    Min(Max(v, lo), hi)
  }

  /** For a non-empty interval, clipping picks the point of `[lo, hi]` nearest to `v`. */
  lemma ClipIsNearest(v: real, lo: real, hi: real, y: real)
    requires lo <= y <= hi
    ensures Dist(Clip(v, lo, hi), v) <= Dist(y, v)
  {
  }

  /** Every entry of `s` is non-negative. */
  predicate NonNegative(s: seq<real>)
  {
    forall i :: 0 <= i < |s| ==> s[i] >= 0.0
  }

  /** The sum `s[lo] + ... + s[hi - 1]`. */
  function Sum(s: seq<real>, lo: nat, hi: nat): real
    requires lo <= hi <= |s|
    decreases hi - lo
  {
    if lo == hi then 0.0 else Sum(s, lo, hi - 1) + s[hi - 1]
  }
}
