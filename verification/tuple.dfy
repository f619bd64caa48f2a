/**
 This module models the homogeneous-coordinate tuple of a ray tracer: a value
 (x, y, z, w) whose `w` component tags it as a point (w = 1) or a vector
 (w = 0). Components are exact reals standing in for single-precision floats,
 so none of the operations here round, overflow or produce NaN.
 */
module Tuples {

  /** The tolerance of approximate component equality. */
  const Epsilon: real := 0.00001

  /** The message the scalar divide operators abort with. */
  const DivideByZeroMessage: string := "Cannot divide by 0!"

  /** A 32-bit signed integer, the scalar type of the integral `*` and `/` overloads. */
  newtype i32 = n: int | -0x8000_0000 <= n < 0x8000_0000

  datatype Tuple = Tuple(x: real, y: real, z: real, w: real)

  /** The outcome of an operation that may abort instead of returning. */
  datatype Outcome = Value(value: Tuple) | Panic(message: string)

  /** Component `i` of `t`, counting x, y, z, w from 0. */
  function Component(t: Tuple, i: int): real
    requires 0 <= i < 4
  {
    if i == 0 then t.x else if i == 1 then t.y else if i == 2 then t.z else t.w
  }

  /** The origin, every component zero. */
  function Zero(): Tuple {
    Tuple(0.0, 0.0, 0.0, 0.0)
  }

  // ---------------------------------------------------------------------------
  // Classification and construction

  /** A vector is tagged by a `w` of exactly zero. */
  predicate IsVector(t: Tuple) {
    t.w == 0.0
  }

  /** A point is tagged by a `w` of exactly one. */
  predicate IsPoint(t: Tuple) {
    t.w == 1.0
  }

  function NewVector(x: real, y: real, z: real): (r: Tuple)
    ensures IsVector(r) && !IsPoint(r)
    ensures r.x == x && r.y == y && r.z == z
  {
    Tuple(x, y, z, 0.0)
  }

  function NewPoint(x: real, y: real, z: real): (r: Tuple)
    ensures IsPoint(r) && !IsVector(r)
    ensures r.x == x && r.y == y && r.z == z
  {
    Tuple(x, y, z, 1.0)
  }

  // ---------------------------------------------------------------------------
  // Approximate equality

  function Abs(a: real): real {
    if a < 0.0 then -a else a
  }

  /** Two reals are approximately equal when they differ by strictly less than Epsilon. */
  function FloatEqual(a: real, b: real): (r: bool)
    ensures r <==> b - Epsilon < a < b + Epsilon
  {
    Abs(a - b) < Epsilon
  }

  /** Tuple equality: approximate equality of every component. */
  function Equal(a: Tuple, b: Tuple): (r: bool)
    ensures r <==> forall i :: 0 <= i < 4 ==> -Epsilon < Component(Sub(a, b), i) < Epsilon
  {
    var d := Sub(a, b);
    assert Component(d, 0) == d.x && Component(d, 1) == d.y && Component(d, 2) == d.z && Component(d, 3) == d.w;
    FloatEqual(a.x, b.x) && FloatEqual(a.y, b.y) && FloatEqual(a.z, b.z) && FloatEqual(a.w, b.w)
  }

  // ---------------------------------------------------------------------------
  // Componentwise arithmetic

  function Add(a: Tuple, b: Tuple): (r: Tuple)
    ensures forall i :: 0 <= i < 4 ==> Component(r, i) == Component(a, i) + Component(b, i)
    ensures IsPoint(a) && IsVector(b) ==> IsPoint(r)
    ensures IsVector(a) && IsPoint(b) ==> IsPoint(r)
    ensures IsVector(a) && IsVector(b) ==> IsVector(r)
  {
    Tuple(a.x + b.x, a.y + b.y, a.z + b.z, a.w + b.w)
  }

  function Sub(a: Tuple, b: Tuple): (r: Tuple)
    ensures forall i :: 0 <= i < 4 ==> Component(r, i) == Component(a, i) - Component(b, i)
    ensures IsPoint(a) && IsPoint(b) ==> IsVector(r)
    ensures IsPoint(a) && IsVector(b) ==> IsPoint(r)
    ensures IsVector(a) && IsVector(b) ==> IsVector(r)
  {
    Tuple(a.x - b.x, a.y - b.y, a.z - b.z, a.w - b.w)
  }

  function Neg(t: Tuple): (r: Tuple)
    ensures forall i :: 0 <= i < 4 ==> Component(r, i) + Component(t, i) == 0.0
    ensures IsVector(t) <==> IsVector(r)
  {
    Tuple(-t.x, -t.y, -t.z, -t.w)
  }

  /** Multiplication by a floating scalar. */
  function Scale(t: Tuple, s: real): (r: Tuple)
    ensures forall i :: 0 <= i < 4 ==> Component(r, i) == Component(t, i) * s
    ensures IsVector(t) ==> IsVector(r)
  {
    Tuple(t.x * s, t.y * s, t.z * s, t.w * s)
  }

  /** Multiplication by an integral scalar, converted to a float first. */
  function ScaleInt(t: Tuple, n: i32): (r: Tuple)
    ensures r == Scale(t, n as real)
  {
    var s := n as real;
    Tuple(t.x * s, t.y * s, t.z * s, t.w * s)
  }

  /** Division by a nonzero floating scalar; a zero divisor aborts (see DivOp). */
  function Divide(t: Tuple, s: real): (r: Tuple)
    requires s != 0.0
    ensures forall i :: 0 <= i < 4 ==> Component(r, i) * s == Component(t, i)
    ensures IsVector(t) <==> IsVector(r)
  {
    Tuple(t.x / s, t.y / s, t.z / s, t.w / s)
  }

  /** Division by a nonzero integral scalar, converted to a float first. */
  function DivideInt(t: Tuple, n: i32): (r: Tuple)
    requires n != 0
    ensures r == Divide(t, n as real)
  {
    var s := n as real;
    Tuple(t.x / s, t.y / s, t.z / s, t.w / s)
  }

  /** The floating `/` operator including its abort on a zero divisor. */
  function DivOp(t: Tuple, s: real): (r: Outcome)
    ensures r.Panic? <==> s == 0.0
    ensures r.Panic? ==> r.message == DivideByZeroMessage
    ensures r.Value? ==> Scale(r.value, s) == t
  {
    if s == 0.0 then Panic(DivideByZeroMessage) else Value(Divide(t, s))
  }

  /** The integral `/` operator including its abort on a zero divisor. */
  function DivIntOp(t: Tuple, n: i32): (r: Outcome)
    ensures r.Panic? <==> n == 0
    ensures r.Panic? ==> r.message == DivideByZeroMessage
    ensures r == DivOp(t, n as real)
  {
    if n == 0 then Panic(DivideByZeroMessage) else Value(DivideInt(t, n))
  }

  // ---------------------------------------------------------------------------
  // Geometry

  /** The quantity under the square root of the magnitude: all four components squared. */
  function SumOfSquares(t: Tuple): (r: real)
    ensures r >= 0.0
  {
    t.x * t.x + t.y * t.y + t.z * t.z + t.w * t.w
  }

  /** `m` is the magnitude of `t`: the nonnegative square root of its sum of squares. */
  predicate IsMagnitude(t: Tuple, m: real) {
    m >= 0.0 && m * m == SumOfSquares(t)
  }

  /** `t` divided componentwise by its (nonzero) magnitude `m`. */
  function Normalize(t: Tuple, m: real): (r: Tuple)
    requires IsMagnitude(t, m) && m != 0.0
    ensures Scale(r, m) == t
    ensures IsVector(t) <==> IsVector(r)
  {
    Tuple(t.x / m, t.y / m, t.z / m, t.w / m)
  }

  /** The dot product over all four components; a tuple's square with itself is the magnitude's radicand. */
  function Dot(a: Tuple, b: Tuple): (r: real)
    ensures a == b ==> r == SumOfSquares(a)
  {
    a.x * b.x + a.y * b.y + a.z * b.z + a.w * b.w
  }

  /** The 3D cross product of the spatial parts; the result is always a vector. */
  function Cross(a: Tuple, b: Tuple): (r: Tuple)
    ensures IsVector(r)
  {
    NewVector(
      a.y * b.z - a.z * b.y,
      a.z * b.x - a.x * b.z,
      a.x * b.y - a.y * b.x)
  }
}
