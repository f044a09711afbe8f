/** Currency amounts. `RoundToCents` models Python's `round(x, 2)`; its
    contract states only "whole cents, within half a cent of `x`, keeping the
    sign of `x`", and its body rounds exact halves up, where Python rounds the
    binary value of `x` half to even. */
module Money {

  /** `r` is a whole number of cents. */
  predicate IsWholeCents(r: real) {
    (r * 100.0).Floor as real == r * 100.0
  }

  function RoundToCents(x: real): (r: real)
    ensures IsWholeCents(r)
    ensures x - 0.005 <= r <= x + 0.005
    ensures x >= 0.0 ==> r >= 0.0
    ensures x <= 0.0 ==> r <= 0.0
  {
    (x * 100.0 + 0.5).Floor as real / 100.0
  }

  function Max(a: real, b: real): real {
    if a >= b then a else b
  }

  function Min(a: real, b: real): real {
    if a <= b then a else b
  }

  /** Multiplying by a non-negative amount keeps an inequality. */
  lemma MulMonotone(a: real, x: real, y: real)
    requires a >= 0.0 && x <= y
    ensures a * x <= a * y
  {
    assert a * y - a * x == a * (y - x);
  }

  /** Dividing by a positive amount keeps an inequality. */
  lemma DivMonotone(x: real, y: real, e: real)
    requires e > 0.0 && x <= y
    ensures x / e <= y / e
  {
    var d := y / e - x / e;
    assert d * e == y - x;
  }

  /** The product of non-negative amounts grows with each of them. */
  lemma ProductMonotone(a: real, b: real, c: real, d: real)
    requires 0.0 <= a <= b && 0.0 <= c <= d
    ensures a * c <= b * d
  {
    MulMonotone(c, a, b);
    MulMonotone(b, c, d);
  }

  /** An amount that is a bracketed factor scaled by non-negative amounts
      stays within the scaled bracket. */
  lemma ScaledBetween(x: real, r: real, s: real, lo: real, m: real, hi: real)
    requires x == r * m * s
    requires r >= 0.0 && s >= 0.0 && lo <= m <= hi
    ensures r * lo * s <= x <= r * hi * s
  {
    MulMonotone(r, lo, m);
    MulMonotone(r, m, hi);
    MulMonotone(s, r * lo, r * m);
    MulMonotone(s, r * m, r * hi);
  }
}
