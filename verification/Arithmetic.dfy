/** Facts about products and floor quotients used by the fixed-point ledgers. */
module Arithmetic {
  import opened Host

  lemma MulLe(a: int, b: int, c: int)
    requires a <= b && 0 <= c
    ensures a * c <= b * c
  {
  }

  lemma MulNonNegative(a: int, b: int)
    requires 0 <= a && 0 <= b
    ensures 0 <= a * b
  {
  }

  lemma Distribute(a: int, b: int, c: int)
    ensures (a + b) * c == a * c + b * c
    ensures c * (a + b) == c * a + c * b
  {
  }

  lemma MulLeBoth(a: int, b: int, c: int, d: int)
    requires 0 <= a <= b && 0 <= c <= d
    ensures 0 <= a * c <= b * d
  {
    MulNonNegative(a, c);
    MulLe(a, b, c);
    assert b * c == c * b && b * d == d * b;
    MulLe(c, d, b);
  }

  /** The quotient is the only integer whose multiple leaves a remainder in range. */
  lemma QuotientIs(a: int, d: int, q: int)
    requires 0 < d && q * d <= a < (q + 1) * d
    ensures a / d == q
  {
    var p := a / d;
    assert p * d <= a < (p + 1) * d by {
      assert a == d * p + a % d;
      assert (p + 1) * d == p * d + d;
    }
    if p < q {
      MulLe(p + 1, q, d);
    } else if q < p {
      MulLe(q + 1, p, d);
    }
  }

  lemma Quotient(a: int, d: int)
    requires 0 < d
    ensures (a / d) * d <= a < (a / d) * d + d
  {
    assert a == d * (a / d) + a % d;
  }

  lemma DivLe(a: int, b: int, d: int)
    requires a <= b && 0 < d
    ensures a / d <= b / d
  {
    Quotient(a, d);
    Quotient(b, d);
    if b / d < a / d {
      MulLe(b / d + 1, a / d, d);
    }
  }

  lemma DivNonNegative(a: int, d: int)
    requires 0 <= a && 0 < d
    ensures 0 <= a / d
  {
  }

  /** Splitting a dividend loses at most one. */
  lemma DivSplit(a: int, b: int, d: int)
    requires 0 < d
    ensures a / d + b / d <= (a + b) / d <= a / d + b / d + 1
  {
    Quotient(a, d);
    Quotient(b, d);
    var q := a / d + b / d;
    assert q * d == (a / d) * d + (b / d) * d;
    assert (q + 1) * d == q * d + d && (q + 2) * d == q * d + 2 * d;
    if a + b < (q + 1) * d {
      QuotientIs(a + b, d, q);
    } else {
      QuotientIs(a + b, d, q + 1);
    }
  }

  lemma DivAddMultiple(a: int, k: int, d: int)
    requires 0 < d
    ensures (a + k * d) / d == a / d + k
  {
    Quotient(a, d);
    var q := a / d + k;
    assert q * d == (a / d) * d + k * d;
    assert (q + 1) * d == q * d + d;
    QuotientIs(a + k * d, d, q);
  }

  /** A share of at most the whole is at most the amount. */
  lemma ShareAtMost(amount: int, part: int, whole: int)
    requires 0 <= amount && 0 <= part <= whole && 0 < whole
    ensures 0 <= amount * part / whole <= amount
    ensures part == whole ==> amount * part / whole == amount
  {
    MulNonNegative(amount, part);
    DivNonNegative(amount * part, whole);
    assert amount * part == part * amount && amount * whole == whole * amount;
    MulLe(part, whole, amount);
    DivLe(amount * part, amount * whole, whole);
    DivAddMultiple(0, amount, whole);
  }

  /** Shares grow with the amount and with the part. */
  lemma ShareMonotone(a: int, b: int, p: int, q: int, whole: int)
    requires 0 <= a <= b && 0 <= p <= q && 0 < whole
    ensures a * p / whole <= b * q / whole
  {
    MulLeBoth(a, b, p, q);
    DivLe(a * p, b * q, whole);
  }

  /** `q` is the quotient of `a` by a positive `d`, cut toward zero. */
  predicate IsCut(q: int, a: int, d: int) {
    && (a >= 0 ==> 0 <= q && q * d <= a < (q + 1) * d)
    && (a <= 0 ==> q <= 0 && (q - 1) * d < a <= q * d)
  }

  lemma CutUnique(q: int, a: int, d: int)
    requires 0 < d && IsCut(q, a, d)
    ensures TruncDiv(a, d) == q
  {
    if a >= 0 {
      QuotientIs(a, d, q);
    } else {
      assert -q * d == -(q * d) && (-q + 1) * d == -((q - 1) * d);
      QuotientIs(-a, d, -q);
    }
  }
}
