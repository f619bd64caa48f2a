# Homogeneous-coordinate tuples of a ray tracer, in Dafny

This project models the `Tuple` type at the base of a ray tracer. A tuple is a
four-component value (x, y, z, w). The `w` component tags its kind: `w = 1`
is a point and `w = 0` is a vector. The type offers:

- constructors that set the tag;
- exact tag tests;
- componentwise add, subtract and negate;
- multiply and divide by a floating or an integral scalar, where a zero
  divisor aborts;
- approximate equality with a fixed tolerance of 1e-5;
- the dot and cross products;
- the magnitude and normalization.

The model is functional. `Tuple` is an immutable datatype over `real`. Every
operation is a pure function, and the laws relating operations are lemmas.

- `tuple.dfy`, module `Tuples`: the data model and every operation of
  `src/tuple.rs`.
- `tuple_properties.dfy`, module `TupleProperties`: the laws connecting the
  operations. These are inverse pairs, symmetries, the tag algebra and the
  magnitude laws.
- `tuple_scenarios.dfy`, module `TupleScenarios`: the concrete scenarios of
  `tests/chapter_1.rs`, restated over the model.
- `real_facts.dfy`, module `RealFacts`: small facts of real arithmetic used
  by the proofs.

Modelling choices:

- `f32` components are exact `real`s.
- The `i32` scalar is a newtype over `int` with the 32-bit range. Its
  conversion `as f32` is modelled as the exact conversion `as real`.
- Both `/` operators panic on a zero divisor. Each is modelled twice:
  - `Divide`/`DivideInt` are the arithmetic, with `requires` on a nonzero
    divisor.
  - `DivOp`/`DivIntOp` are total. They return `Panic` with the source's
    message exactly when the divisor is zero.
- Dafny has no real square root. The magnitude is therefore the relation
  `IsMagnitude(t, m)`: `m` is nonnegative and `m * m` is the sum of the four
  squared components. `Normalize` takes that magnitude as a parameter.

## Model

| member | source | states |
|---|---|---|
| Tuples.NewVector | src/tuple.rs:131-138 | the result keeps x, y, z, is a vector and is not a point |
| Tuples.NewPoint | src/tuple.rs:140-147 | the result keeps x, y, z, is a point and is not a vector |
| Tuples.IsVector | src/tuple.rs:14-16 | a tuple is a vector exactly when its `w` is exactly 0; it has no contract of its own, its meaning is fixed by the rows below |
| Tuples.IsPoint | src/tuple.rs:18-20 | a tuple is a point exactly when its `w` is exactly 1; it has no contract of its own, its meaning is fixed by the rows below |
| TupleProperties.VectorTagIsExact | src/tuple.rs:14-16 | every tuple whose `w` is nonzero but within epsilon of 0 equals the vector with its x, y, z, yet is not a vector |
| TupleProperties.PointTagIsExact | src/tuple.rs:18-20 | every tuple whose `w` is not 1 but within epsilon of 1 equals the point with its x, y, z, yet is not a point |
| Tuples.FloatEqual | src/tuple.rs:149-151 | two reals are equal exactly when `a` lies strictly inside the open interval of radius epsilon around `b` |
| TupleProperties.FloatEqualReflexive | src/tuple.rs:149-151 | every real is approximately equal to itself |
| TupleProperties.FloatEqualSymmetric | src/tuple.rs:149-151 | approximate equality does not depend on argument order |
| TupleProperties.FloatEqualBoundary | src/tuple.rs:149-151 | reals exactly epsilon apart are not equal, because the comparison is strict |
| TupleProperties.FloatEqualNotTransitive | src/tuple.rs:149-151 | a concrete triple where a ≈ b and b ≈ c but not a ≈ c |
| Tuples.Equal | src/tuple.rs:23-30 | tuple equality holds exactly when every component of the difference `a - b`, indexed 0..3 as x, y, z, w, lies strictly between -epsilon and epsilon |
| TupleProperties.EqualReflexive | src/tuple.rs:23-30 | every tuple equals itself |
| TupleProperties.EqualSymmetric | src/tuple.rs:23-30 | tuple equality does not depend on argument order |
| TupleProperties.EqualIffDifferenceIsZero | src/tuple.rs:23-54 | two tuples are equal exactly when their difference equals the zero tuple |
| Tuples.Add | src/tuple.rs:32-42 | each component of the sum is the sum of the operands' components; point + vector and vector + point are points; vector + vector is a vector |
| Tuples.Sub | src/tuple.rs:44-54 | each component of the difference is the difference of the components; point − point is a vector; point − vector is a point; vector − vector is a vector |
| Tuples.Neg | src/tuple.rs:56-66 | each component of the result is the additive inverse of the input's; the result is a vector exactly when the input is |
| TupleProperties.NegInvolution | src/tuple.rs:56-66 | negating twice gives back the original tuple |
| TupleProperties.SubIsAddNeg | src/tuple.rs:44-66 | subtracting is adding the negation |
| TupleProperties.AddSubInverse | src/tuple.rs:32-54 | adding then subtracting the same tuple is the identity, in both orders |
| TupleProperties.AddCommutative | src/tuple.rs:32-42 | the order of the operands of `+` does not matter |
| TupleProperties.AddAssociative | src/tuple.rs:32-42 | the grouping of a chain of `+` does not matter |
| TupleProperties.SubSelfIsZero | src/tuple.rs:44-66 | a tuple minus itself, and a tuple plus its negation, are the zero tuple |
| Tuples.Scale | src/tuple.rs:68-78 | each component of the result is the input component times the scalar; vectors stay vectors |
| Tuples.ScaleInt | src/tuple.rs:79-89 | multiplying by an `i32` equals multiplying by that integer converted to a float |
| TupleProperties.NegIsScaleByMinusOne | src/tuple.rs:56-89 | negation equals multiplying by the float -1 and by the integer -1 |
| Tuples.Divide | src/tuple.rs:96-103 | for a nonzero divisor, each result component times the divisor gives back the input component; the vector tag is kept in both directions |
| Tuples.DivideInt | src/tuple.rs:111-118 | dividing by a nonzero `i32` equals dividing by that integer converted to a float |
| Tuples.DivOp | src/tuple.rs:91-105 | the float `/` aborts with "Cannot divide by 0!" exactly when the divisor is 0.0; otherwise multiplying its result by the divisor gives back the input |
| Tuples.DivIntOp | src/tuple.rs:106-120 | the integral `/` aborts with the same message exactly when the divisor is 0; otherwise it agrees with the float `/` on the converted divisor |
| TupleProperties.DivideUndoesScale | src/tuple.rs:68-105 | dividing by a nonzero scalar undoes multiplying by it |
| TupleProperties.ScaleUndoesDivide | src/tuple.rs:68-105 | multiplying by a nonzero scalar undoes dividing by it |
| TupleProperties.DivideIsScaleByReciprocal | src/tuple.rs:68-105 | dividing by a nonzero scalar is multiplying by its reciprocal |
| Tuples.SumOfSquares | src/tuple.rs:153-156 | the sum of squares under the magnitude's root is never negative |
| Tuples.Dot | src/tuple.rs:153-170 | the dot product of a tuple with itself is the sum of squares under the magnitude's root, w included, as the comment at line 155 notes |
| TupleProperties.DotSymmetric | src/tuple.rs:168-170 | the dot product does not depend on argument order |
| TupleProperties.DotSelfIsSumOfSquares | src/tuple.rs:153-170 | a tuple's dot product with itself is the sum of squares under the magnitude's root, w included |
| Tuples.IsMagnitude | src/tuple.rs:153-156 | `m` is the magnitude of `t` when `m` is nonnegative and `m * m` is the sum of squares; it has no contract of its own, MagnitudeUnique shows it picks at most one `m` |
| TupleProperties.SumOfSquaresZeroIffZero | src/tuple.rs:153-156 | the sum of squares is zero exactly for the zero tuple, so only the zero tuple has magnitude 0 |
| TupleProperties.MagnitudeUnique | src/tuple.rs:153-156 | a tuple has at most one magnitude |
| TupleProperties.MagnitudeOfScale | src/tuple.rs:153-156 | multiplying by `s` (the `*` of src/tuple.rs:68-78) scales the magnitude by the absolute value of `s` |
| TupleProperties.SumOfSquaresOfScale | src/tuple.rs:153-156 | multiplying by `s` (the `*` of src/tuple.rs:68-78) scales the sum of squares under the magnitude's root by `s * s` |
| Tuples.Normalize | src/tuple.rs:158-166 | normalizing by a nonzero magnitude can be undone by multiplying by that magnitude; the vector tag is kept in both directions |
| TupleProperties.NormalizeIsUnit | src/tuple.rs:153-166 | a normalized tuple has magnitude 1 |
| Tuples.Cross | src/tuple.rs:172-178 | the cross product is always a vector |
| TupleProperties.CrossIgnoresW | src/tuple.rs:172-178 | the cross product does not depend on either operand's `w` |
| TupleProperties.CrossAntiCommutative | src/tuple.rs:172-178 | swapping the operands negates the cross product |
| TupleProperties.CrossSelfIsZero | src/tuple.rs:172-178 | a tuple crossed with itself is the zero tuple |
| TupleProperties.CrossOrthogonal | src/tuple.rs:168-178 | the cross product has dot product 0 with each operand |
| TupleProperties.CrossMagnitude | src/tuple.rs:153-178 | for vectors, the cross product's sum of squares is the product of the operands' sums of squares minus the squared dot product (Lagrange's identity) |
| TupleScenarios.TaggedTuples | tests/chapter_1.rs:10-72 | the test tuples with w = 1 and w = 0 classify as point and vector, and the constructors build the expected tuples |
| TupleScenarios.AddingTuples | tests/chapter_1.rs:76-100 | the test sum of a point and a vector |
| TupleScenarios.SubtractingTuples | tests/chapter_1.rs:102-132 | the four test subtractions of points and vectors |
| TupleScenarios.NegatingAndScaling | tests/chapter_1.rs:134-194 | the test negation and the two test multiplications |
| TupleScenarios.DividingByTwo | tests/chapter_1.rs:196-214 | the test division by the integer 2 |
| TupleScenarios.DividingByZeroPanics | src/tuple.rs:91-120 | dividing by the integer 0 or the float 0.0 aborts, as both guards at lines 94-95 and 109-110 demand |
| TupleScenarios.Magnitudes | tests/chapter_1.rs:218-251 | the unit axis vectors have magnitude 1; (1,2,3) and (-1,-2,-3) have sum of squares 14 |
| TupleScenarios.NormalizingAxisVector | tests/chapter_1.rs:255-260 | vector(4,0,0) has magnitude 4 and normalizes to vector(1,0,0) |
| TupleScenarios.NormalizingVector | tests/chapter_1.rs:262-273 | for any magnitude `m` of vector(1,2,3), `m * m` is 14, `m` is nonzero and the normalized vector is (1/m, 2/m, 3/m) |
| TupleScenarios.NormalizingVectorApproximately | tests/chapter_1.rs:274 | for any magnitude of vector(1,2,3), the normalized vector equals vector(0.26726, 0.53452, 0.80178) under the tolerance of tuple equality |
| TupleScenarios.DotProductOfVectors | tests/chapter_1.rs:286-292 | the test dot product is 20 |
| TupleScenarios.CrossProductOfVectors | tests/chapter_1.rs:294-299 | the test cross product is vector(-1,2,-1) |
| TupleScenarios.CrossProductReversed | tests/chapter_1.rs:294-301 | with the operands reversed, the test cross product is vector(1,-2,1) |

## Left out

- IEEE-754 single precision: rounding, overflow, infinities, NaN and signed
  zero. Components are exact reals, so every law here holds exactly. In f32
  these laws hold only approximately, and cancellation or overflow can break
  them by more than the epsilon: with x components 1 and 1e8, for example,
  `(a + b) - b` has x component 0. The laws affected this way include
  AddAssociative, AddSubInverse, DivideUndoesScale, ScaleUndoesDivide and
  NormalizeIsUnit.
- Tuples.ScaleInt: the conversion `i32 as f32` may round integers beyond
  2^24 in magnitude that do not fit in 24 significant bits. The model
  converts exactly.
- Tuples.DivideInt: the same exact conversion as for `ScaleInt`.
- Tuples.Normalize: requires a nonzero magnitude. The source has no guard,
  and a zero tuple yields NaN components, which a real-valued model cannot
  express.
- The square root in `magnitude`: Dafny has no real square root. The
  magnitude is the relation `IsMagnitude` between a tuple and a nonnegative
  root of its sum of squares.
- Transitivity of tuple equality: approximate equality is not transitive.
  `FloatEqualNotTransitive` shows a counterexample.
- The derived `Debug`, `Clone` and `Copy` implementations and the
  commented-out `new_tuple` (src/tuple.rs:5, 122-129): they carry no logic.
- The exact float literal reads in tests/chapter_1.rs:19-22 and 36-39: they
  test float representation, not the tuple logic.
