/**
 Small facts of real arithmetic that the solver does not find reliably on its
 own. They carry no meaning of the tuple algebra and serve its proofs.
 */
module RealFacts {

  lemma ProductZero(p: real, q: real)
    requires p * q == 0.0
    ensures p == 0.0 || q == 0.0
  {
    if q != 0.0 {
      assert p == (p * q) / q;
    }
  }

  /** Two nonnegative reals with equal squares are equal. */
  lemma NonnegRootUnique(m: real, n: real)
    requires m >= 0.0 && n >= 0.0 && m * m == n * n
    ensures m == n
  {
    assert (m - n) * (m + n) == m * m - n * n;
    ProductZero(m - n, m + n);
  }

  lemma SquarePositive(a: real)
    requires a != 0.0
    ensures a * a > 0.0
  {
    assert (a * a) / a == a;
  }

  lemma SquareNonnegative(a: real)
    ensures a * a >= 0.0
  {
    if a != 0.0 {
      SquarePositive(a);
    }
  }

  lemma SquareZero(a: real)
    requires a * a == 0.0
    ensures a == 0.0
  {
    ProductZero(a, a);
  }

  lemma DivMulCancel(a: real, s: real)
    requires s != 0.0
    ensures (a / s) * s == a
    ensures (a * s) / s == a
  {
  }

  lemma ReciprocalSquare(m: real)
    requires m != 0.0
    ensures (1.0 / m) * (1.0 / m) * (m * m) == 1.0
  {
    var q := 1.0 / m;
    assert q * m == 1.0;
    assert q * q * (m * m) == (q * m) * (q * m);
  }

  /** A factor whose product with a positive real is positive is itself positive. */
  lemma PositiveFactor(x: real, m: real)
    requires m > 0.0 && x * m > 0.0
    ensures x > 0.0
  {
  }

  /** Squaring is strictly monotone on the nonnegative reals. */
  lemma SquareLtImpliesLt(a: real, b: real)
    requires a >= 0.0 && b >= 0.0 && a * a < b * b
    ensures a < b
  {
    assert (b - a) * (b + a) == b * b - a * a;
    PositiveFactor(b - a, b + a);
  }

  /** Bounds on `q = c / m` from bounds on a positive `m`. */
  lemma QuotientBetween(q: real, m: real, c: real, lo: real, hi: real, qlo: real, qhi: real)
    requires 0.0 < lo < m < hi
    requires q * m == c
    requires 0.0 < qlo && qlo * hi <= c && c <= qhi * lo
    ensures qlo < q < qhi
  {
    assert (q - qlo) * m == c - qlo * m;
    assert qlo * m < qlo * hi;
    PositiveFactor(q - qlo, m);
    assert (qhi - q) * m == qhi * m - c;
    assert qhi * lo < qhi * m;
    PositiveFactor(qhi - q, m);
  }
}
