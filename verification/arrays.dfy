/**
  The few numpy array operations the scripts use to build their inputs:
  `zeros`, list repetition, and assignment of a scalar to a slice.
 */
module NumpyArrays {

  /** `[v] * n`: the value `v` repeated `n` times. */
  function Repeat<X>(v: X, n: nat): (r: seq<X>)
    ensures |r| == n
    ensures forall i :: 0 <= i < n ==> r[i] == v
  {
    seq(n, _ => v)
  }

  /** `np.zeros(n)`. */
  function Zeros(n: nat): (r: seq<real>)
    ensures |r| == n
    ensures forall i :: 0 <= i < n ==> r[i] == 0.0
  {
    Repeat(0.0, n)
  }

  /** A non-negative Python slice bound, clamped to the length of the array. */
  function SliceBound(b: nat, n: nat): nat
  {
    if b < n then b else n
  }

  /**
    `a[lo:hi] = v` for non-negative bounds: every index `i` with
    `lo <= i < hi` is overwritten, the rest is untouched. When `lo >= hi` the
    slice is empty and nothing changes.
   */
  function AssignSlice(a: seq<real>, lo: nat, hi: nat, v: real): (r: seq<real>)
    ensures |r| == |a|
    ensures forall i :: 0 <= i < |a| ==> r[i] == (if lo <= i < hi then v else a[i])
  {
    var l := SliceBound(lo, |a|);
    var h := SliceBound(hi, |a|);
    if l < h then a[..l] + Repeat(v, h - l) + a[h..] else a
  }
}
