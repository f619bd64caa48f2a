/**
 The concrete scenarios the repository's first-chapter tests check, restated
 over the model. The model's arithmetic is exact, so most expected tuples are
 reached structurally, and EqualReflexive then gives the tests' approximate
 Equal. The one expectation written as rounded decimals is met through Equal.
 */
module TupleScenarios {
  import opened Tuples
  import opened RealFacts

  lemma TaggedTuples()
    ensures IsPoint(Tuple(4.3, -4.2, 3.1, 1.0)) && !IsVector(Tuple(4.3, -4.2, 3.1, 1.0))
    ensures IsVector(Tuple(4.3, -4.2, 3.1, 0.0)) && !IsPoint(Tuple(4.3, -4.2, 3.1, 0.0))
    ensures NewPoint(4.0, -4.0, 3.0) == Tuple(4.0, -4.0, 3.0, 1.0)
    ensures NewVector(4.0, -4.0, 3.0) == Tuple(4.0, -4.0, 3.0, 0.0)
  {
  }

  lemma AddingTuples()
    ensures Add(Tuple(3.0, -2.0, 5.0, 1.0), Tuple(-2.0, 3.0, 1.0, 0.0)) == Tuple(1.0, 1.0, 6.0, 1.0)
  {
  }

  lemma SubtractingTuples()
    ensures Sub(NewPoint(3.0, 2.0, 1.0), NewPoint(5.0, 6.0, 7.0)) == NewVector(-2.0, -4.0, -6.0)
    ensures Sub(NewPoint(3.0, 2.0, 1.0), NewVector(5.0, 6.0, 7.0)) == NewPoint(-2.0, -4.0, -6.0)
    ensures Sub(NewVector(3.0, 2.0, 1.0), NewVector(5.0, 6.0, 7.0)) == NewVector(-2.0, -4.0, -6.0)
    ensures Sub(NewVector(0.0, 0.0, 0.0), NewVector(1.0, -2.0, 3.0)) == NewVector(-1.0, 2.0, -3.0)
  {
  }

  lemma NegatingAndScaling()
    ensures Neg(Tuple(1.0, -2.0, 3.0, -4.0)) == Tuple(-1.0, 2.0, -3.0, 4.0)
    ensures Scale(Tuple(1.0, -2.0, 3.0, -4.0), 3.5) == Tuple(3.5, -7.0, 10.5, -14.0)
    ensures Scale(Tuple(1.0, -2.0, 3.0, -4.0), 0.5) == Tuple(0.5, -1.0, 1.5, -2.0)
  {
  }

  lemma DividingByTwo()
    ensures DivideInt(Tuple(1.0, -2.0, 3.0, -4.0), 2) == Tuple(0.5, -1.0, 1.5, -2.0)
  {
  }

  lemma DividingByZeroPanics()
    ensures DivIntOp(Tuple(1.0, -2.0, 3.0, -4.0), 0).Panic?
    ensures DivOp(Tuple(1.0, -2.0, 3.0, -4.0), 0.0).Panic?
  {
  }

  lemma Magnitudes()
    ensures IsMagnitude(NewVector(1.0, 0.0, 0.0), 1.0)
    ensures IsMagnitude(NewVector(0.0, 1.0, 0.0), 1.0)
    ensures IsMagnitude(NewVector(0.0, 0.0, 1.0), 1.0)
    ensures SumOfSquares(NewVector(1.0, 2.0, 3.0)) == 14.0
    ensures SumOfSquares(NewVector(-1.0, -2.0, -3.0)) == 14.0
  {
  }

  lemma NormalizingAxisVector()
    ensures IsMagnitude(NewVector(4.0, 0.0, 0.0), 4.0)
    ensures Normalize(NewVector(4.0, 0.0, 0.0), 4.0) == NewVector(1.0, 0.0, 0.0)
  {
  }

  /** Normalizing vector(1, 2, 3) by its magnitude, whatever root of 14 that is. */
  lemma NormalizingVector(m: real)
    requires IsMagnitude(NewVector(1.0, 2.0, 3.0), m)
    ensures m * m == 14.0 && m != 0.0
    ensures Normalize(NewVector(1.0, 2.0, 3.0), m) == NewVector(1.0 / m, 2.0 / m, 3.0 / m)
  {
  }

  /** The nonnegative square root of 14 to five decimal places. */
  lemma RootOfFourteen(m: real)
    requires m >= 0.0 && m * m == 14.0
    ensures 3.74165 < m < 3.74166
  {
    SquareLtImpliesLt(3.74165, m);
    SquareLtImpliesLt(m, 3.74166);
  }

  /** The components of normalized vector(1, 2, 3), each bounded to within 0.00001 of its decimal. */
  predicate NearRoundedUnit(t: Tuple) {
    0.26725 < t.x < 0.26727 && 0.53451 < t.y < 0.53453 && 0.80177 < t.z < 0.80179 && t.w == 0.0
  }

  /** A vector within those bounds equals the rounded decimals under tuple equality. */
  lemma NearRoundedUnitVector(t: Tuple)
    requires NearRoundedUnit(t)
    ensures Equal(t, NewVector(0.26726, 0.53452, 0.80178))
  {
  }

  /** Normalized vector(1, 2, 3) lies within those bounds, whatever root of 14 its magnitude is. */
  lemma NormalizedComponents(m: real)
    requires IsMagnitude(NewVector(1.0, 2.0, 3.0), m)
    ensures m != 0.0 && NearRoundedUnit(Normalize(NewVector(1.0, 2.0, 3.0), m))
  {
    RootOfFourteen(m);
    var r := Normalize(NewVector(1.0, 2.0, 3.0), m);
    assert r.x * m == 1.0 && r.y * m == 2.0 && r.z * m == 3.0 by {
      assert Scale(r, m) == NewVector(1.0, 2.0, 3.0);
    }
    QuotientBetween(r.x, m, 1.0, 3.74165, 3.74166, 0.26725, 0.26727);
    QuotientBetween(r.y, m, 2.0, 3.74165, 3.74166, 0.53451, 0.53453);
    QuotientBetween(r.z, m, 3.0, 3.74165, 3.74166, 0.80177, 0.80179);
  }

  /** Normalized vector(1, 2, 3) equals the rounded decimals within the tuple tolerance. */
  lemma NormalizingVectorApproximately(m: real)
    requires IsMagnitude(NewVector(1.0, 2.0, 3.0), m)
    ensures m != 0.0 && Equal(Normalize(NewVector(1.0, 2.0, 3.0), m), NewVector(0.26726, 0.53452, 0.80178))
  {
    NormalizedComponents(m);
    NearRoundedUnitVector(Normalize(NewVector(1.0, 2.0, 3.0), m));
  }

  lemma DotProductOfVectors()
    ensures Dot(NewVector(1.0, 2.0, 3.0), NewVector(2.0, 3.0, 4.0)) == 20.0
  {
  }

  lemma CrossProductOfVectors()
    ensures Cross(NewVector(1.0, 2.0, 3.0), NewVector(2.0, 3.0, 4.0)) == NewVector(-1.0, 2.0, -1.0)
  {
  }

  lemma CrossProductReversed()
    ensures Cross(NewVector(2.0, 3.0, 4.0), NewVector(1.0, 2.0, 3.0)) == NewVector(1.0, -2.0, 1.0)
  {
  }
}
