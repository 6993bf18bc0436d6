/** Facts about truncating multiplication and division on naturals that
    the penalty proofs rely on. */
module Arith {

  lemma MulMonotone(a: nat, b: nat, c: nat)
    requires b <= c
    ensures a * b <= a * c
  {
  }

  /** Cancelling a positive factor from a strict inequality of products. */
  lemma MulCancelLess(d: nat, x: nat, y: nat)
    requires d > 0 && d * x < d * y
    ensures x < y
  {
  }

  lemma DivMonotone(a: nat, b: nat, d: nat)
    requires a <= b && d > 0
    ensures a / d <= b / d
  {
    assert d * (a / d) <= a;
    assert b < d * (b / d) + d;
    assert d * (b / d) + d == d * (b / d + 1);
    MulCancelLess(d, a / d, b / d + 1);
  }

  lemma DivBounds(x: nat, d: nat)
    requires d > 0
    ensures d * (x / d) <= x < d * (x / d) + d
  {
  }

  lemma Distribute(d: nat, x: nat, y: nat)
    ensures d * (x + y) == d * x + d * y
  {
  }

  /** Truncating each share separately never gives more than truncating the sum. */
  lemma DivSuperadditive(a: nat, b: nat, d: nat)
    requires d > 0
    ensures a / d + b / d <= (a + b) / d
  {
    var qa, qb, q := a / d, b / d, (a + b) / d;
    DivBounds(a, d);
    DivBounds(b, d);
    DivBounds(a + b, d);
    Distribute(d, qa, qb);
    Distribute(d, q, 1);
    MulCancelLess(d, qa + qb, q + 1);
  }

  lemma MulDivCancel(a: nat, d: nat)
    requires d > 0
    ensures a * d / d == a
  {
    var q := a * d / d;
    assert d * q <= d * a < d * q + d;
    assert d * q + d == d * (q + 1);
    MulCancelLess(d, q, a + 1);
    MulCancelLess(d, a, q + 1);
  }

  /** Scaling by a fraction no larger than one never increases a value. */
  lemma ScaleAtMost(a: nat, x: nat, span: nat)
    requires 0 < span && x <= span
    ensures a * x / span <= a
  {
    MulMonotone(a, x, span);
    DivMonotone(a * x, a * span, span);
    MulDivCancel(a, span);
  }
}
