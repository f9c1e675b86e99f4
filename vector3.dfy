/**
 * The Vector3 region of the math library: a 3-vector as a value type and the
 * arithmetic on it. Floats are modelled by exact reals.
 *
 * The library defines several operations twice, once as a named function and once
 * as an overloaded operator with its own body. Both forms are modelled here, and a
 * contract ties each operator to its named twin.
 */
module Vectors {

  /** An ordered triple of coordinates. */
  datatype Vector3 = Vector3(x: real, y: real, z: real)

  /** The zero vector. */
  function Zero(): (r: Vector3)
    ensures r.x == 0.0 && r.y == 0.0 && r.z == 0.0
  {
    Vector3(0.0, 0.0, 0.0)
  }

  /** Named addition (Mymath.h `Add(const Vector3&, const Vector3&)`). */
  function Add(v1: Vector3, v2: Vector3): Vector3
  {
    Vector3(v1.x + v2.x, v1.y + v2.y, v1.z + v2.z)
  }

  /** Subtracting either operand from a sum gives back the other one. */
  lemma AddThenSubtract(v1: Vector3, v2: Vector3)
    ensures Subtract(Add(v1, v2), v2) == v1
    ensures Subtract(Add(v1, v2), v1) == v2
  {
  }

  /** `operator+` on vectors, written separately in the library; it agrees with `Add`. */
  function OperatorPlus(v1: Vector3, v2: Vector3): (r: Vector3)
    ensures r == Add(v1, v2)
  {
    Vector3(v1.x + v2.x, v1.y + v2.y, v1.z + v2.z)
  }

  /** Named subtraction. */
  function Subtract(v1: Vector3, v2: Vector3): Vector3
  {
    Vector3(v1.x - v2.x, v1.y - v2.y, v1.z - v2.z)
  }

  /** The difference is zero exactly when the operands are equal. */
  lemma SubtractIsZero(v1: Vector3, v2: Vector3)
    ensures Subtract(v1, v2) == Zero() <==> v1 == v2
  {
  }

  /** Adding back what was subtracted restores the original vector. */
  lemma SubtractThenAdd(v1: Vector3, v2: Vector3)
    ensures Add(Subtract(v1, v2), v2) == v1
  {
  }

  /** `operator-` on vectors; it agrees with `Subtract`. */
  function OperatorMinus(v1: Vector3, v2: Vector3): (r: Vector3)
    ensures r == Subtract(v1, v2)
  {
    Vector3(v1.x - v2.x, v1.y - v2.y, v1.z - v2.z)
  }

  /** Scalar multiple, scalar first (Mymath.h `Multiply(float, const Vector3&)`). */
  function Multiply(scalar: real, v: Vector3): Vector3
  {
    Vector3(v.x * scalar, v.y * scalar, v.z * scalar)
  }

  /** The scale factor 1 is neutral and 0 annihilates. */
  lemma MultiplyByOneAndZero(v: Vector3)
    ensures Multiply(1.0, v) == v
    ensures Multiply(0.0, v) == Zero()
  {
  }

  /** Scaling a vector scales its squared length by the square of the factor. */
  lemma MultiplyScalesLength(scalar: real, v: Vector3)
    ensures Dot(Multiply(scalar, v), Multiply(scalar, v)) == scalar * scalar * Dot(v, v)
  {
  }

  /** `operator*(const Vector3&, const float&)`: vector first, scalar second; it agrees
      with `Multiply` with the arguments swapped. */
  function OperatorScale(v: Vector3, scalar: real): (r: Vector3)
    ensures r == Multiply(scalar, v)
  {
    Vector3(v.x * scalar, v.y * scalar, v.z * scalar)
  }

  /** Dot product. A vector's dot product with itself is never negative, and it is
      positive for every non-zero vector. */
  function Dot(v1: Vector3, v2: Vector3): (r: real)
    ensures v1 == v2 ==> r >= 0.0
    ensures v1 == v2 && v1 != Zero() ==> r > 0.0
  {
    SumOfSquares(v1.x, v1.y, v1.z);
    v1.x * v2.x + v1.y * v2.y + v1.z * v2.z
  }

  /** A sum of three squares is non-negative, and positive unless every term is zero. */
  lemma SumOfSquares(a: real, b: real, c: real)
    ensures a * a + b * b + c * c >= 0.0
    ensures a != 0.0 || b != 0.0 || c != 0.0 ==> a * a + b * b + c * c > 0.0
  {
    Square(a);
    Square(b);
    Square(c);
  }

  /** A square is non-negative, and positive for a non-zero base. */
  lemma Square(a: real)
    ensures a * a >= 0.0
    ensures a != 0.0 ==> a * a > 0.0
  {
    if a < 0.0 {
      assert a * a == (-a) * (-a);
    }
  }

  /** Linear interpolation `v1 + (v2 - v1) * t`, written with the operator forms as the
      library does; `t` is not clamped, so values outside [0, 1] extrapolate. */
  function Lerp(v1: Vector3, v2: Vector3, t: real): (r: Vector3)
    ensures t == 0.0 ==> r == v1
    ensures t == 1.0 ==> r == v2
    ensures v1 == v2 ==> r == v1
  {
    OperatorPlus(v1, OperatorScale(OperatorMinus(v2, v1), t))
  }

  /** Dot product is symmetric. */
  lemma DotSymmetric(v1: Vector3, v2: Vector3)
    ensures Dot(v1, v2) == Dot(v2, v1)
  {
  }

  /** The interpolant moves along `v2 - v1` in proportion to `t`: its offset from
      `v1` is `t` times the whole displacement, for every `t`. */
  lemma LerpOffset(v1: Vector3, v2: Vector3, t: real)
    ensures Subtract(Lerp(v1, v2, t), v1) == Multiply(t, Subtract(v2, v1))
  {
  }

  /** Lerp run backwards: interpolating from `v2` to `v1` with `1 - t` gives the same
      point. */
  lemma LerpReversed(v1: Vector3, v2: Vector3, t: real)
    ensures Lerp(v2, v1, 1.0 - t) == Lerp(v1, v2, t)
  {
  }
}
