/** Small facts of real arithmetic that the rounding and quantisation proofs
    take one at a time. */
module Arith {

  /** Mathf.Abs */
  function Abs(x: real): real {
    if x < 0.0 then -x else x
  }

  /** Multiplying by a non-negative factor keeps an order. */
  lemma MulMonotone(a: real, b: real, c: real)
    requires a <= b && 0.0 <= c
    ensures a * c <= b * c
  {
    assert b * c - a * c == (b - a) * c;
  }

  /** A positive factor can be cancelled from an order. */
  lemma MulCancel(a: real, b: real, c: real)
    requires 0.0 < c && a * c <= b * c
    ensures a <= b
  {
    assert (b - a) * c == b * c - a * c;
  }

  /** A multiple of eight is twice its half. */
  lemma EvenHalves(m: int)
    requires m % 8 == 0
    ensures m == 2 * (m / 2)
  {
    var q := m / 8;
    assert m == 8 * q;
    assert m / 2 == 4 * q;
  }

  /** If m is twice h, then h steps of p are half of m steps of p. */
  lemma HalfProduct(m: real, h: real, p: real)
    requires m == 2.0 * h
    ensures h * p == (p * m) / 2.0
  {
    assert p * m == 2.0 * (h * p);
  }

  /** Division undoes a multiplication by a non-zero factor. */
  lemma DivExact(x: real, p: real, q: real)
    requires p != 0.0 && q * p == x
    ensures x / p == q
  {
  }

  /** A value within half of zero, scaled by a non-negative factor, stays within
      half of the factor. */
  lemma HalfBound(d: real, s: real)
    requires -0.5 <= d <= 0.5 && 0.0 <= s
    ensures -0.5 * s <= d * s <= 0.5 * s
  {
    MulMonotone(-0.5, d, s);
    MulMonotone(d, 0.5, s);
  }

  /** Multiplying back after a division by a non-zero factor. */
  lemma DivMul(x: real, p: real)
    requires p != 0.0
    ensures (x / p) * p == x
  {
  }

  /** Equal factors give equal products. */
  lemma MulEq(a: real, b: real, c: real)
    requires a == b
    ensures a * c == b * c
  {
  }

  /** Replacing q by a value n within half of it moves a multiple q * s by at
      most half of |s|. */
  lemma RoundingError(q: real, n: real, s: real)
    requires q - 0.5 <= n <= q + 0.5
    ensures Abs(n * s - q * s) <= Abs(s) / 2.0
  {
    var d := n - q;
    MulEq(n, q + d, s);
    if s >= 0.0 {
      HalfBound(d, s);
    } else {
      HalfBound(d, -s);
    }
  }

  /** Bounds on a value carry over to its quotient by a positive factor. */
  lemma QuotientBetween(x: real, p: real, lo: real, hi: real)
    requires 0.0 < p && lo * p <= x <= hi * p
    ensures lo <= x / p <= hi
  {
    DivMul(x, p);
    MulCancel(x / p, hi, p);
    MulCancel(lo, x / p, p);
  }
}
