/**
 * Values that the two widgets read from the browser: optional numbers parsed
 * from computed styles, the horizontal part of a bounding rectangle, and the
 * `Math.max` / `Math.min` / `Math.abs` clamps the pixel arithmetic is built from.
 * Pixel values are exact reals.
 */
module Measure {

  datatype Option<+T> = None | Some(value: T)

  /** The horizontal part of a `getBoundingClientRect()` result. */
  datatype Rect = Rect(left: real, right: real, width: real)

  /** A rectangle as the browser reports one: non-negative width, right edge at left + width. */
  predicate IsBox(r: Rect) {
    r.width >= 0.0 && r.right == r.left + r.width
  }

  function Max(a: real, b: real): (m: real)
    ensures m >= a && m >= b
    ensures m == a || m == b
  {
    if a >= b then a else b
  }

  function Min(a: real, b: real): (m: real)
    ensures m <= a && m <= b
    ensures m == a || m == b
  {
    if a <= b then a else b
  }

  function Abs(a: real): (r: real)
    ensures r >= 0.0
    ensures r == a || r == -a
  {
    if a >= 0.0 then a else -a
  }

  /**
   * `parseFloat(v) || d`: `None` stands for a style value that is missing or does
   * not parse (NaN); NaN and a parsed 0 are both falsy, so both give `d`.
   */
  function NumberOr(v: Option<real>, d: real): (r: real)
    ensures v.None? ==> r == d
    ensures v == Some(0.0) ==> r == d
    ensures v.Some? && v.value != 0.0 ==> r == v.value
    ensures d != 0.0 ==> r != 0.0
  {
    match v
    case Some(x) => if x != 0.0 then x else d
    case None => d
  }

  /** Multiplying by a non-negative factor keeps order. */
  lemma MulMonotone(a: real, b: real, k: real)
    requires a <= b && k >= 0.0
    ensures a * k <= b * k
  {
  }

  /** Dividing by a non-zero divisor and multiplying back gives the dividend. */
  lemma QuotientTimes(a: real, k: real)
    requires k != 0.0
    ensures a / k * k == a
  {
  }

  /** Dividing by a positive divisor keeps order. */
  lemma DivMonotone(a: real, b: real, k: real)
    requires a <= b && k > 0.0
    ensures a / k <= b / k
  {
  }

  /** The share a / k (with 0 <= a <= k) of a non-negative length lies between 0 and that length. */
  lemma ShareWithin(a: real, k: real, len: real)
    requires 0.0 <= a <= k && k > 0.0 && len >= 0.0
    ensures 0.0 <= a / k * len <= len
  {
  }

  /** A quotient of 0 <= a <= k by k lies in [0, 1]. */
  lemma UnitQuotient(a: real, k: real)
    requires 0.0 <= a <= k && k > 0.0
    ensures 0.0 <= a / k <= 1.0
  {
  }
}
