/** The host's scalar helpers used by the Clamp module (`fmin`, `fmax`, `clamp`),
    defined over the reals by their mathematical meaning. Floating-point rounding
    and NaN handling are not modelled. */
module RackMath {

  /** Distance between two voltages. */
  function Dist(a: real, b: real): real
  {
    if a < b then b - a else a - b
  }

  /** The smaller of two values: below both, and one of them. */
  function FMin(a: real, b: real): (r: real)
    ensures r <= a && r <= b
    ensures r == a || r == b
  {
    if a <= b then a else b
  }

  /** The larger of two values: above both, and one of them. */
  function FMax(a: real, b: real): (r: real)
    ensures a <= r && b <= r
    ensures r == a || r == b
  {
    if a <= b then b else a
  }

  /** Restricts `x` to the closed interval [lo, hi]: the result lies in the
      interval, is `x` itself when `x` already does, and is the point of the
      interval nearest to `x`. */
  function Clamp(x: real, lo: real, hi: real): (r: real)
    ensures lo <= hi ==> lo <= r <= hi
    ensures lo <= x <= hi ==> r == x
    ensures lo <= hi ==> forall y :: lo <= y <= hi ==> Dist(r, x) <= Dist(y, x)
  {
    FMax(FMin(x, hi), lo)
  }
}
