/**
 Properties of the tuple algebra that relate several operations: the
 equivalence-like laws of approximate equality, the inverse pairs among the
 componentwise operators, and the laws of the dot and cross products and of
 the magnitude.
 */
module TupleProperties {
  import opened Tuples
  import opened RealFacts

  // ---------------------------------------------------------------------------
  // Classification

  /** The vector tag is exact: a `w` near but not at zero equals a vector yet is no vector. */
  lemma VectorTagIsExact(t: Tuple)
    requires t.w != 0.0 && Abs(t.w) < Epsilon
    ensures Equal(t, NewVector(t.x, t.y, t.z))
    ensures !IsVector(t)
  {
  }

  /** The point tag is exact: a `w` near but not at one equals a point yet is no point. */
  lemma PointTagIsExact(t: Tuple)
    requires t.w != 1.0 && Abs(t.w - 1.0) < Epsilon
    ensures Equal(t, NewPoint(t.x, t.y, t.z))
    ensures !IsPoint(t)
  {
  }

  // ---------------------------------------------------------------------------
  // Approximate equality

  lemma FloatEqualReflexive(a: real)
    ensures FloatEqual(a, a)
  {
  }

  lemma FloatEqualSymmetric(a: real, b: real)
    ensures FloatEqual(a, b) <==> FloatEqual(b, a)
  {
  }

  /** The comparison is strict: reals exactly Epsilon apart are not equal. */
  lemma FloatEqualBoundary(a: real)
    ensures !FloatEqual(a, a + Epsilon)
    ensures !FloatEqual(a + Epsilon, a)
  {
  }

  /** Approximate equality is not transitive, so no tuple equality law may assume it. */
  lemma FloatEqualNotTransitive()
    ensures FloatEqual(0.0, 0.000006) && FloatEqual(0.000006, 0.000012)
    ensures !FloatEqual(0.0, 0.000012)
  {
  }

  lemma EqualReflexive(t: Tuple)
    ensures Equal(t, t)
  {
  }

  lemma EqualSymmetric(a: Tuple, b: Tuple)
    ensures Equal(a, b) <==> Equal(b, a)
  {
  }

  /** Two tuples are equal exactly when their difference equals the zero tuple. */
  lemma EqualIffDifferenceIsZero(a: Tuple, b: Tuple)
    ensures Equal(a, b) <==> Equal(Sub(a, b), Zero())
  {
  }

  // ---------------------------------------------------------------------------
  // Componentwise arithmetic

  lemma NegInvolution(t: Tuple)
    ensures Neg(Neg(t)) == t
  {
  }

  lemma SubIsAddNeg(a: Tuple, b: Tuple)
    ensures Sub(a, b) == Add(a, Neg(b))
  {
  }

  lemma AddSubInverse(a: Tuple, b: Tuple)
    ensures Sub(Add(a, b), b) == a
    ensures Add(Sub(a, b), b) == a
  {
  }

  lemma AddCommutative(a: Tuple, b: Tuple)
    ensures Add(a, b) == Add(b, a)
  {
  }

  lemma AddAssociative(a: Tuple, b: Tuple, c: Tuple)
    ensures Add(Add(a, b), c) == Add(a, Add(b, c))
  {
  }

  lemma SubSelfIsZero(t: Tuple)
    ensures Sub(t, t) == Zero()
    ensures Add(t, Neg(t)) == Zero()
  {
  }

  /** Dividing by a nonzero scalar undoes multiplying by it. */
  lemma DivideUndoesScale(t: Tuple, s: real)
    requires s != 0.0
    ensures Divide(Scale(t, s), s) == t
  {
    DivMulCancel(t.x, s);
    DivMulCancel(t.y, s);
    DivMulCancel(t.z, s);
    DivMulCancel(t.w, s);
  }

  /** Multiplying by a nonzero scalar undoes dividing by it. */
  lemma ScaleUndoesDivide(t: Tuple, s: real)
    requires s != 0.0
    ensures Scale(Divide(t, s), s) == t
  {
    DivMulCancel(t.x, s);
    DivMulCancel(t.y, s);
    DivMulCancel(t.z, s);
    DivMulCancel(t.w, s);
  }

  lemma DivideIsScaleByReciprocal(t: Tuple, s: real)
    requires s != 0.0
    ensures Divide(t, s) == Scale(t, 1.0 / s)
  {
  }

  lemma NegIsScaleByMinusOne(t: Tuple)
    ensures Neg(t) == Scale(t, -1.0)
    ensures Neg(t) == ScaleInt(t, -1)
  {
  }

  // ---------------------------------------------------------------------------
  // Dot product and magnitude

  lemma DotSymmetric(a: Tuple, b: Tuple)
    ensures Dot(a, b) == Dot(b, a)
  {
  }

  /** The dot product of a tuple with itself is the sum of squares under the magnitude's root. */
  lemma DotSelfIsSumOfSquares(t: Tuple)
    ensures Dot(t, t) == SumOfSquares(t)
  {
  }

  /** Only the zero tuple has a zero sum of squares, hence a zero magnitude. */
  lemma SumOfSquaresZeroIffZero(t: Tuple)
    ensures SumOfSquares(t) == 0.0 <==> t == Zero()
  {
    if SumOfSquares(t) == 0.0 {
      SquareNonnegative(t.x);
      SquareNonnegative(t.y);
      SquareNonnegative(t.z);
      SquareNonnegative(t.w);
      SquareZero(t.x);
      SquareZero(t.y);
      SquareZero(t.z);
      SquareZero(t.w);
    }
  }

  lemma MagnitudeUnique(t: Tuple, m: real, n: real)
    requires IsMagnitude(t, m) && IsMagnitude(t, n)
    ensures m == n
  {
    NonnegRootUnique(m, n);
  }

  lemma MagnitudeOfScale(t: Tuple, m: real, s: real)
    requires IsMagnitude(t, m)
    ensures IsMagnitude(Scale(t, s), Abs(s) * m)
  {
  }

  lemma SumOfSquaresOfScale(t: Tuple, s: real)
    ensures SumOfSquares(Scale(t, s)) == s * s * SumOfSquares(t)
  {
  }

  /** A normalized tuple has magnitude one. */
  lemma NormalizeIsUnit(t: Tuple, m: real)
    requires IsMagnitude(t, m) && m != 0.0
    ensures IsMagnitude(Normalize(t, m), 1.0)
  {
    DivideIsScaleByReciprocal(t, m);
    SumOfSquaresOfScale(t, 1.0 / m);
    ReciprocalSquare(m);
  }

  // ---------------------------------------------------------------------------
  // Cross product

  /** The cross product reads only x, y and z of either operand. */
  lemma CrossIgnoresW(a: Tuple, b: Tuple, aw: real, bw: real)
    ensures Cross(a, b) == Cross(a.(w := aw), b.(w := bw))
  {
  }

  lemma CrossAntiCommutative(a: Tuple, b: Tuple)
    ensures Cross(a, b) == Neg(Cross(b, a))
  {
  }

  lemma CrossSelfIsZero(a: Tuple)
    ensures Cross(a, a) == Zero()
  {
  }

  /** The cross product is perpendicular to both operands. */
  lemma CrossOrthogonal(a: Tuple, b: Tuple)
    ensures Dot(a, Cross(a, b)) == 0.0
    ensures Dot(b, Cross(a, b)) == 0.0
  {
  }

  /** Lagrange's identity: |a x b|^2 = |a|^2 |b|^2 - (a . b)^2 for vectors. */
  lemma CrossMagnitude(a: Tuple, b: Tuple)
    requires IsVector(a) && IsVector(b)
    ensures SumOfSquares(Cross(a, b)) == SumOfSquares(a) * SumOfSquares(b) - Dot(a, b) * Dot(a, b)
  {
  }
}
