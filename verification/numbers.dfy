/** Integer arithmetic the dashboard performs on numbers: `Math.round` of a
    quotient, as used for averages and percentages. */
module Numbers {

  /** `Math.round(p / q)` for a positive divisor: the nearest integer, halves
      rounded up (towards positive infinity, as `Math.round` does). */
  function RoundDiv(p: int, q: int): (r: int)
    requires q > 0
    ensures 2 * p - q < 2 * r * q <= 2 * p + q
  {
    (2 * p + q) / (2 * q)
  }

  lemma MulMonotone(a: int, b: int, q: int)
    requires a <= b && q > 0
    ensures a * q <= b * q
  {}

  /** A rounded quotient stays within any integer bounds of the exact one. */
  lemma RoundDivBounds(p: int, q: int, lo: int, hi: int)
    requires q > 0 && lo * q <= p <= hi * q
    ensures lo <= RoundDiv(p, q) <= hi
  {
    var r := RoundDiv(p, q);
    if r < lo {
      MulMonotone(r + 1, lo, 2 * q);
      assert false;
    }
    if r > hi {
      MulMonotone(hi + 1, r, 2 * q);
      assert false;
    }
  }

  /** An exact quotient is left unchanged. */
  lemma RoundDivExact(k: int, q: int)
    requires q > 0
    ensures RoundDiv(k * q, q) == k
  {
    RoundDivBounds(k * q, q, k, k);
  }
}
