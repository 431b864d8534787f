/**
 * `clamp(n, min, max)` of main.js, written as `Math.max(min, Math.min(max, n))`.
 * The file defines it twice (inside the zoom controller and at module level)
 * with the same body; both are this one function over the reals.
 */
module Clamping {

  function Min(a: real, b: real): real { if a <= b then a else b }

  function Max(a: real, b: real): real { if a >= b then a else b }

  /** The result never falls below `lo`; with an ordered interval it lies in it,
      is `n` itself when `n` already lies in it, and is the nearer end otherwise;
      with `hi < lo` the lower bound wins. */
  function Clamp(n: real, lo: real, hi: real): (r: real)
    ensures r >= lo
    ensures lo <= hi ==> lo <= r <= hi
    ensures lo <= n <= hi ==> r == n
    ensures lo <= hi && n < lo ==> r == lo
    ensures lo <= hi && hi < n ==> r == hi
    ensures hi < lo ==> r == lo
  {
    Max(lo, Min(hi, n))
  }
}
