// Compound assignment operators of Mymath.h. In the source they take their
// left operand by reference and update it in place, so the operand is
// modelled as an object whose fields the operators assign.

module Compound {
  import Vectors
  import Matrices

  /** A Vector3 variable: the storage `operator+=` and `operator-=` write to. */
  class Vector3Var {
    var x: real
    var y: real
    var z: real

    /** The vector value currently held. */
    function Value(): Vectors.Vector3
      reads this
    {
      Vectors.Vector3(x, y, z)
    }

    constructor (v: Vectors.Vector3)
      ensures Value() == v
    {
      x, y, z := v.x, v.y, v.z;
    }

    /** `v1 += v2`: adds v2 component by component and returns v1 itself.
        The right operand may be this very variable (`v += v` doubles it). */
    method AddAssign(v2: Vector3Var) returns (r: Vector3Var)
      modifies this
      ensures Value() == Vectors.Add(old(Value()), old(v2.Value()))
      ensures v2 != this ==> v2.Value() == old(v2.Value())
      ensures r == this
    {
      x := x + v2.x;
      y := y + v2.y;
      z := z + v2.z;
      r := this;
    }

    /** `v1 -= v2`: subtracts v2 component by component and returns v1 itself.
        `v -= v` leaves the zero vector. */
    method SubtractAssign(v2: Vector3Var) returns (r: Vector3Var)
      modifies this
      ensures Value() == Vectors.Subtract(old(Value()), old(v2.Value()))
      ensures v2 != this ==> v2.Value() == old(v2.Value())
      ensures v2 == this ==> Value() == Vectors.Zero()
      ensures r == this
    {
      x := x - v2.x;
      y := y - v2.y;
      z := z - v2.z;
      r := this;
      if v2 == this {
        Vectors.SubtractIsZero(old(Value()), old(Value()));
      }
    }

    /** Adding v2 and then subtracting it (v2 a different variable) restores
        the value held before. */
    method AddThenSubtractAssign(v2: Vector3Var)
      requires v2 != this
      modifies this
      ensures Value() == old(Value())
      ensures v2.Value() == old(v2.Value())
    {
      var _ := AddAssign(v2);
      var _ := SubtractAssign(v2);
      Vectors.AddThenSubtract(old(Value()), v2.Value());
    }
  }

  /** A Matrix4x4 variable: the storage `operator*=` writes to. */
  class Matrix4x4Var {
    var value: Matrices.Matrix4x4

    constructor (m: Matrices.Matrix4x4)
      ensures value == m
    {
      value := m;
    }

    /** `m1 *= m2`: replaces m1 with the product m1 * m2 (row-vector order,
        m1 applied first) and returns m1 itself. m2 may be m1 (`m *= m`). */
    method MultiplyAssign(m2: Matrix4x4Var) returns (r: Matrix4x4Var)
      modifies this
      ensures value == Matrices.Multiply(old(value), old(m2.value))
      ensures m2 != this ==> m2.value == old(m2.value)
      ensures r == this
    {
      value := Matrices.OperatorTimes(value, m2.value);
      r := this;
    }

    /** Multiplying in place by the identity leaves the matrix unchanged. */
    method MultiplyAssignIdentity(id: Matrix4x4Var)
      requires id != this && id.value == Matrices.MakeIdentity4x4()
      modifies this
      ensures value == old(value)
    {
      var _ := MultiplyAssign(id);
      Matrices.MultiplyIdentityRight(old(value));
    }
  }
}
