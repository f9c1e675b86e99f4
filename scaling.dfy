/**
 * Scalar multiples of a matrix, and how they pass through the product.
 *
 * The library's inverse divides every cofactor by the determinant; over the reals
 * that is the cofactor matrix scaled by the reciprocal of the determinant. These
 * lemmas let the inverse proofs move that scale factor out of a product.
 */
module Scaling {
  import opened Matrices

  /** Every entry of `a` multiplied by `t`. */
  function ScaleEntries(a: Matrix4x4, t: real): (r: Matrix4x4)
    ensures forall i: nat, j: nat | i < 4 && j < 4 :: r.At(i, j) == a.At(i, j) * t
  {
    Matrix4x4(
      a.m00 * t, a.m01 * t, a.m02 * t, a.m03 * t,
      a.m10 * t, a.m11 * t, a.m12 * t, a.m13 * t,
      a.m20 * t, a.m21 * t, a.m22 * t, a.m23 * t,
      a.m30 * t, a.m31 * t, a.m32 * t, a.m33 * t)
  }

  /** `d` on the diagonal, zero elsewhere. */
  function ScaledIdentity(d: real): (r: Matrix4x4)
    ensures forall i: nat, j: nat | i < 4 && j < 4 :: r.At(i, j) == if i == j then d else 0.0
  {
    Matrix4x4(
      d, 0.0, 0.0, 0.0,
      0.0, d, 0.0, 0.0,
      0.0, 0.0, d, 0.0,
      0.0, 0.0, 0.0, d)
  }

  /** Scaling `d` times the identity by `1 / d` gives the identity back. */
  lemma ScaledIdentityByReciprocal(d: real)
    requires d != 0.0
    ensures ScaleEntries(ScaledIdentity(d), 1.0 / d) == MakeIdentity4x4()
  {
  }

  /** Dividing by `d` is multiplying by the reciprocal of `d`. */
  lemma DivisionIsReciprocal(c: real, d: real)
    requires d != 0.0
    ensures c / d == c * (1.0 / d)
  {
  }

  /** Scaling by the reciprocal of `d` divides every entry by `d`. */
  lemma ScaleByReciprocalEntry(a: Matrix4x4, d: real, i: nat, j: nat)
    requires d != 0.0
    requires i < 4 && j < 4
    ensures ScaleEntries(a, 1.0 / d).At(i, j) == a.At(i, j) / d
  {
    DivisionIsReciprocal(a.At(i, j), d);
  }

  /** Scaling by one changes nothing. */
  lemma ScaleByOne(a: Matrix4x4)
    ensures ScaleEntries(a, 1.0) == a
  {
  }

  /** A scale factor on the right-hand factor can be moved out of the product. */
  lemma ProductOfScaled(x: Matrix4x4, a: Matrix4x4, t: real)
    ensures Multiply(x, ScaleEntries(a, t)) == ScaleEntries(Multiply(x, a), t)
  {
    ScaleEntriesEntries(Multiply(x, a), t);
    ProductOfScaledEntry00(x, a, t); ProductOfScaledEntry01(x, a, t); ProductOfScaledEntry02(x, a, t); ProductOfScaledEntry03(x, a, t);
    ProductOfScaledEntry10(x, a, t); ProductOfScaledEntry11(x, a, t); ProductOfScaledEntry12(x, a, t); ProductOfScaledEntry13(x, a, t);
    ProductOfScaledEntry20(x, a, t); ProductOfScaledEntry21(x, a, t); ProductOfScaledEntry22(x, a, t); ProductOfScaledEntry23(x, a, t);
    ProductOfScaledEntry30(x, a, t); ProductOfScaledEntry31(x, a, t); ProductOfScaledEntry32(x, a, t); ProductOfScaledEntry33(x, a, t);
  }

  /** A scale factor on the left-hand factor can be moved out of the product. */
  lemma ScaledProduct(a: Matrix4x4, x: Matrix4x4, t: real)
    ensures Multiply(ScaleEntries(a, t), x) == ScaleEntries(Multiply(a, x), t)
  {
    ScaleEntriesEntries(Multiply(a, x), t);
    ScaledProductEntry00(a, x, t); ScaledProductEntry01(a, x, t); ScaledProductEntry02(a, x, t); ScaledProductEntry03(a, x, t);
    ScaledProductEntry10(a, x, t); ScaledProductEntry11(a, x, t); ScaledProductEntry12(a, x, t); ScaledProductEntry13(a, x, t);
    ScaledProductEntry20(a, x, t); ScaledProductEntry21(a, x, t); ScaledProductEntry22(a, x, t); ScaledProductEntry23(a, x, t);
    ScaledProductEntry30(a, x, t); ScaledProductEntry31(a, x, t); ScaledProductEntry32(a, x, t); ScaledProductEntry33(a, x, t);
  }

  /** The sixteen entries of a scaled matrix, one fact each. */
  lemma ScaleEntriesEntries(a: Matrix4x4, t: real)
    ensures ScaleEntries(a, t).m00 == a.m00 * t
    ensures ScaleEntries(a, t).m01 == a.m01 * t
    ensures ScaleEntries(a, t).m02 == a.m02 * t
    ensures ScaleEntries(a, t).m03 == a.m03 * t
    ensures ScaleEntries(a, t).m10 == a.m10 * t
    ensures ScaleEntries(a, t).m11 == a.m11 * t
    ensures ScaleEntries(a, t).m12 == a.m12 * t
    ensures ScaleEntries(a, t).m13 == a.m13 * t
    ensures ScaleEntries(a, t).m20 == a.m20 * t
    ensures ScaleEntries(a, t).m21 == a.m21 * t
    ensures ScaleEntries(a, t).m22 == a.m22 * t
    ensures ScaleEntries(a, t).m23 == a.m23 * t
    ensures ScaleEntries(a, t).m30 == a.m30 * t
    ensures ScaleEntries(a, t).m31 == a.m31 * t
    ensures ScaleEntries(a, t).m32 == a.m32 * t
    ensures ScaleEntries(a, t).m33 == a.m33 * t
  {
  }

  /** One entry of a row-by-column sum with the column scaled by `t`. */
  lemma ScaleColumnSum(x0: real, x1: real, x2: real, x3: real, c0: real, c1: real, c2: real, c3: real,
                       q0: real, q1: real, q2: real, q3: real, t: real, p: real, s: real)
    requires q0 == c0 * t && q1 == c1 * t && q2 == c2 * t && q3 == c3 * t
    requires p == x0 * q0 + x1 * q1 + x2 * q2 + x3 * q3
    requires s == x0 * c0 + x1 * c1 + x2 * c2 + x3 * c3
    ensures p == s * t
  {
  }

  /** One entry of a row-by-column sum with the row scaled by `t`. */
  lemma ScaleRowSum(x0: real, x1: real, x2: real, x3: real, c0: real, c1: real, c2: real, c3: real,
                    q0: real, q1: real, q2: real, q3: real, t: real, p: real, s: real)
    requires q0 == c0 * t && q1 == c1 * t && q2 == c2 * t && q3 == c3 * t
    requires p == q0 * x0 + q1 * x1 + q2 * x2 + q3 * x3
    requires s == c0 * x0 + c1 * x1 + c2 * x2 + c3 * x3
    ensures p == s * t
  {
  }

  /** Entry (0, 0) of `ProductOfScaled`. */
  lemma ProductOfScaledEntry00(x: Matrix4x4, a: Matrix4x4, t: real)
    ensures Multiply(x, ScaleEntries(a, t)).m00 == Multiply(x, a).m00 * t
  {
    var b := ScaleEntries(a, t);
    MultiplyEntry00(x, b);
    MultiplyEntry00(x, a);
    ScaleEntriesEntries(a, t);
    ScaleColumnSum(x.m00, x.m01, x.m02, x.m03, a.m00, a.m10, a.m20, a.m30,
      b.m00, b.m10, b.m20, b.m30, t, Multiply(x, b).m00, Multiply(x, a).m00);
  }

  /** Entry (0, 1) of `ProductOfScaled`. */
  lemma ProductOfScaledEntry01(x: Matrix4x4, a: Matrix4x4, t: real)
    ensures Multiply(x, ScaleEntries(a, t)).m01 == Multiply(x, a).m01 * t
  {
    var b := ScaleEntries(a, t);
    MultiplyEntry01(x, b);
    MultiplyEntry01(x, a);
    ScaleEntriesEntries(a, t);
    ScaleColumnSum(x.m00, x.m01, x.m02, x.m03, a.m01, a.m11, a.m21, a.m31,
      b.m01, b.m11, b.m21, b.m31, t, Multiply(x, b).m01, Multiply(x, a).m01);
  }

  /** Entry (0, 2) of `ProductOfScaled`. */
  lemma ProductOfScaledEntry02(x: Matrix4x4, a: Matrix4x4, t: real)
    ensures Multiply(x, ScaleEntries(a, t)).m02 == Multiply(x, a).m02 * t
  {
    var b := ScaleEntries(a, t);
    MultiplyEntry02(x, b);
    MultiplyEntry02(x, a);
    ScaleEntriesEntries(a, t);
    ScaleColumnSum(x.m00, x.m01, x.m02, x.m03, a.m02, a.m12, a.m22, a.m32,
      b.m02, b.m12, b.m22, b.m32, t, Multiply(x, b).m02, Multiply(x, a).m02);
  }

  /** Entry (0, 3) of `ProductOfScaled`. */
  lemma ProductOfScaledEntry03(x: Matrix4x4, a: Matrix4x4, t: real)
    ensures Multiply(x, ScaleEntries(a, t)).m03 == Multiply(x, a).m03 * t
  {
    var b := ScaleEntries(a, t);
    MultiplyEntry03(x, b);
    MultiplyEntry03(x, a);
    ScaleEntriesEntries(a, t);
    ScaleColumnSum(x.m00, x.m01, x.m02, x.m03, a.m03, a.m13, a.m23, a.m33,
      b.m03, b.m13, b.m23, b.m33, t, Multiply(x, b).m03, Multiply(x, a).m03);
  }

  /** Entry (1, 0) of `ProductOfScaled`. */
  lemma ProductOfScaledEntry10(x: Matrix4x4, a: Matrix4x4, t: real)
    ensures Multiply(x, ScaleEntries(a, t)).m10 == Multiply(x, a).m10 * t
  {
    var b := ScaleEntries(a, t);
    MultiplyEntry10(x, b);
    MultiplyEntry10(x, a);
    ScaleEntriesEntries(a, t);
    ScaleColumnSum(x.m10, x.m11, x.m12, x.m13, a.m00, a.m10, a.m20, a.m30,
      b.m00, b.m10, b.m20, b.m30, t, Multiply(x, b).m10, Multiply(x, a).m10);
  }

  /** Entry (1, 1) of `ProductOfScaled`. */
  lemma ProductOfScaledEntry11(x: Matrix4x4, a: Matrix4x4, t: real)
    ensures Multiply(x, ScaleEntries(a, t)).m11 == Multiply(x, a).m11 * t
  {
    var b := ScaleEntries(a, t);
    MultiplyEntry11(x, b);
    MultiplyEntry11(x, a);
    ScaleEntriesEntries(a, t);
    ScaleColumnSum(x.m10, x.m11, x.m12, x.m13, a.m01, a.m11, a.m21, a.m31,
      b.m01, b.m11, b.m21, b.m31, t, Multiply(x, b).m11, Multiply(x, a).m11);
  }

  /** Entry (1, 2) of `ProductOfScaled`. */
  lemma ProductOfScaledEntry12(x: Matrix4x4, a: Matrix4x4, t: real)
    ensures Multiply(x, ScaleEntries(a, t)).m12 == Multiply(x, a).m12 * t
  {
    var b := ScaleEntries(a, t);
    MultiplyEntry12(x, b);
    MultiplyEntry12(x, a);
    ScaleEntriesEntries(a, t);
    ScaleColumnSum(x.m10, x.m11, x.m12, x.m13, a.m02, a.m12, a.m22, a.m32,
      b.m02, b.m12, b.m22, b.m32, t, Multiply(x, b).m12, Multiply(x, a).m12);
  }

  /** Entry (1, 3) of `ProductOfScaled`. */
  lemma ProductOfScaledEntry13(x: Matrix4x4, a: Matrix4x4, t: real)
    ensures Multiply(x, ScaleEntries(a, t)).m13 == Multiply(x, a).m13 * t
  {
    var b := ScaleEntries(a, t);
    MultiplyEntry13(x, b);
    MultiplyEntry13(x, a);
    ScaleEntriesEntries(a, t);
    ScaleColumnSum(x.m10, x.m11, x.m12, x.m13, a.m03, a.m13, a.m23, a.m33,
      b.m03, b.m13, b.m23, b.m33, t, Multiply(x, b).m13, Multiply(x, a).m13);
  }

  /** Entry (2, 0) of `ProductOfScaled`. */
  lemma ProductOfScaledEntry20(x: Matrix4x4, a: Matrix4x4, t: real)
    ensures Multiply(x, ScaleEntries(a, t)).m20 == Multiply(x, a).m20 * t
  {
    var b := ScaleEntries(a, t);
    MultiplyEntry20(x, b);
    MultiplyEntry20(x, a);
    ScaleEntriesEntries(a, t);
    ScaleColumnSum(x.m20, x.m21, x.m22, x.m23, a.m00, a.m10, a.m20, a.m30,
      b.m00, b.m10, b.m20, b.m30, t, Multiply(x, b).m20, Multiply(x, a).m20);
  }

  /** Entry (2, 1) of `ProductOfScaled`. */
  lemma ProductOfScaledEntry21(x: Matrix4x4, a: Matrix4x4, t: real)
    ensures Multiply(x, ScaleEntries(a, t)).m21 == Multiply(x, a).m21 * t
  {
    var b := ScaleEntries(a, t);
    MultiplyEntry21(x, b);
    MultiplyEntry21(x, a);
    ScaleEntriesEntries(a, t);
    ScaleColumnSum(x.m20, x.m21, x.m22, x.m23, a.m01, a.m11, a.m21, a.m31,
      b.m01, b.m11, b.m21, b.m31, t, Multiply(x, b).m21, Multiply(x, a).m21);
  }

  /** Entry (2, 2) of `ProductOfScaled`. */
  lemma ProductOfScaledEntry22(x: Matrix4x4, a: Matrix4x4, t: real)
    ensures Multiply(x, ScaleEntries(a, t)).m22 == Multiply(x, a).m22 * t
  {
    var b := ScaleEntries(a, t);
    MultiplyEntry22(x, b);
    MultiplyEntry22(x, a);
    ScaleEntriesEntries(a, t);
    ScaleColumnSum(x.m20, x.m21, x.m22, x.m23, a.m02, a.m12, a.m22, a.m32,
      b.m02, b.m12, b.m22, b.m32, t, Multiply(x, b).m22, Multiply(x, a).m22);
  }

  /** Entry (2, 3) of `ProductOfScaled`. */
  lemma ProductOfScaledEntry23(x: Matrix4x4, a: Matrix4x4, t: real)
    ensures Multiply(x, ScaleEntries(a, t)).m23 == Multiply(x, a).m23 * t
  {
    var b := ScaleEntries(a, t);
    MultiplyEntry23(x, b);
    MultiplyEntry23(x, a);
    ScaleEntriesEntries(a, t);
    ScaleColumnSum(x.m20, x.m21, x.m22, x.m23, a.m03, a.m13, a.m23, a.m33,
      b.m03, b.m13, b.m23, b.m33, t, Multiply(x, b).m23, Multiply(x, a).m23);
  }

  /** Entry (3, 0) of `ProductOfScaled`. */
  lemma ProductOfScaledEntry30(x: Matrix4x4, a: Matrix4x4, t: real)
    ensures Multiply(x, ScaleEntries(a, t)).m30 == Multiply(x, a).m30 * t
  {
    var b := ScaleEntries(a, t);
    MultiplyEntry30(x, b);
    MultiplyEntry30(x, a);
    ScaleEntriesEntries(a, t);
    ScaleColumnSum(x.m30, x.m31, x.m32, x.m33, a.m00, a.m10, a.m20, a.m30,
      b.m00, b.m10, b.m20, b.m30, t, Multiply(x, b).m30, Multiply(x, a).m30);
  }

  /** Entry (3, 1) of `ProductOfScaled`. */
  lemma ProductOfScaledEntry31(x: Matrix4x4, a: Matrix4x4, t: real)
    ensures Multiply(x, ScaleEntries(a, t)).m31 == Multiply(x, a).m31 * t
  {
    var b := ScaleEntries(a, t);
    MultiplyEntry31(x, b);
    MultiplyEntry31(x, a);
    ScaleEntriesEntries(a, t);
    ScaleColumnSum(x.m30, x.m31, x.m32, x.m33, a.m01, a.m11, a.m21, a.m31,
      b.m01, b.m11, b.m21, b.m31, t, Multiply(x, b).m31, Multiply(x, a).m31);
  }

  /** Entry (3, 2) of `ProductOfScaled`. */
  lemma ProductOfScaledEntry32(x: Matrix4x4, a: Matrix4x4, t: real)
    ensures Multiply(x, ScaleEntries(a, t)).m32 == Multiply(x, a).m32 * t
  {
    var b := ScaleEntries(a, t);
    MultiplyEntry32(x, b);
    MultiplyEntry32(x, a);
    ScaleEntriesEntries(a, t);
    ScaleColumnSum(x.m30, x.m31, x.m32, x.m33, a.m02, a.m12, a.m22, a.m32,
      b.m02, b.m12, b.m22, b.m32, t, Multiply(x, b).m32, Multiply(x, a).m32);
  }

  /** Entry (3, 3) of `ProductOfScaled`. */
  lemma ProductOfScaledEntry33(x: Matrix4x4, a: Matrix4x4, t: real)
    ensures Multiply(x, ScaleEntries(a, t)).m33 == Multiply(x, a).m33 * t
  {
    var b := ScaleEntries(a, t);
    MultiplyEntry33(x, b);
    MultiplyEntry33(x, a);
    ScaleEntriesEntries(a, t);
    ScaleColumnSum(x.m30, x.m31, x.m32, x.m33, a.m03, a.m13, a.m23, a.m33,
      b.m03, b.m13, b.m23, b.m33, t, Multiply(x, b).m33, Multiply(x, a).m33);
  }

  /** Entry (0, 0) of `ScaledProduct`. */
  lemma ScaledProductEntry00(a: Matrix4x4, x: Matrix4x4, t: real)
    ensures Multiply(ScaleEntries(a, t), x).m00 == Multiply(a, x).m00 * t
  {
    var b := ScaleEntries(a, t);
    MultiplyEntry00(b, x);
    MultiplyEntry00(a, x);
    ScaleEntriesEntries(a, t);
    ScaleRowSum(x.m00, x.m10, x.m20, x.m30, a.m00, a.m01, a.m02, a.m03,
      b.m00, b.m01, b.m02, b.m03, t, Multiply(b, x).m00, Multiply(a, x).m00);
  }

  /** Entry (0, 1) of `ScaledProduct`. */
  lemma ScaledProductEntry01(a: Matrix4x4, x: Matrix4x4, t: real)
    ensures Multiply(ScaleEntries(a, t), x).m01 == Multiply(a, x).m01 * t
  {
    var b := ScaleEntries(a, t);
    MultiplyEntry01(b, x);
    MultiplyEntry01(a, x);
    ScaleEntriesEntries(a, t);
    ScaleRowSum(x.m01, x.m11, x.m21, x.m31, a.m00, a.m01, a.m02, a.m03,
      b.m00, b.m01, b.m02, b.m03, t, Multiply(b, x).m01, Multiply(a, x).m01);
  }

  /** Entry (0, 2) of `ScaledProduct`. */
  lemma ScaledProductEntry02(a: Matrix4x4, x: Matrix4x4, t: real)
    ensures Multiply(ScaleEntries(a, t), x).m02 == Multiply(a, x).m02 * t
  {
    var b := ScaleEntries(a, t);
    MultiplyEntry02(b, x);
    MultiplyEntry02(a, x);
    ScaleEntriesEntries(a, t);
    ScaleRowSum(x.m02, x.m12, x.m22, x.m32, a.m00, a.m01, a.m02, a.m03,
      b.m00, b.m01, b.m02, b.m03, t, Multiply(b, x).m02, Multiply(a, x).m02);
  }

  /** Entry (0, 3) of `ScaledProduct`. */
  lemma ScaledProductEntry03(a: Matrix4x4, x: Matrix4x4, t: real)
    ensures Multiply(ScaleEntries(a, t), x).m03 == Multiply(a, x).m03 * t
  {
    var b := ScaleEntries(a, t);
    MultiplyEntry03(b, x);
    MultiplyEntry03(a, x);
    ScaleEntriesEntries(a, t);
    ScaleRowSum(x.m03, x.m13, x.m23, x.m33, a.m00, a.m01, a.m02, a.m03,
      b.m00, b.m01, b.m02, b.m03, t, Multiply(b, x).m03, Multiply(a, x).m03);
  }

  /** Entry (1, 0) of `ScaledProduct`. */
  lemma ScaledProductEntry10(a: Matrix4x4, x: Matrix4x4, t: real)
    ensures Multiply(ScaleEntries(a, t), x).m10 == Multiply(a, x).m10 * t
  {
    var b := ScaleEntries(a, t);
    MultiplyEntry10(b, x);
    MultiplyEntry10(a, x);
    ScaleEntriesEntries(a, t);
    ScaleRowSum(x.m00, x.m10, x.m20, x.m30, a.m10, a.m11, a.m12, a.m13,
      b.m10, b.m11, b.m12, b.m13, t, Multiply(b, x).m10, Multiply(a, x).m10);
  }

  /** Entry (1, 1) of `ScaledProduct`. */
  lemma ScaledProductEntry11(a: Matrix4x4, x: Matrix4x4, t: real)
    ensures Multiply(ScaleEntries(a, t), x).m11 == Multiply(a, x).m11 * t
  {
    var b := ScaleEntries(a, t);
    MultiplyEntry11(b, x);
    MultiplyEntry11(a, x);
    ScaleEntriesEntries(a, t);
    ScaleRowSum(x.m01, x.m11, x.m21, x.m31, a.m10, a.m11, a.m12, a.m13,
      b.m10, b.m11, b.m12, b.m13, t, Multiply(b, x).m11, Multiply(a, x).m11);
  }

  /** Entry (1, 2) of `ScaledProduct`. */
  lemma ScaledProductEntry12(a: Matrix4x4, x: Matrix4x4, t: real)
    ensures Multiply(ScaleEntries(a, t), x).m12 == Multiply(a, x).m12 * t
  {
    var b := ScaleEntries(a, t);
    MultiplyEntry12(b, x);
    MultiplyEntry12(a, x);
    ScaleEntriesEntries(a, t);
    ScaleRowSum(x.m02, x.m12, x.m22, x.m32, a.m10, a.m11, a.m12, a.m13,
      b.m10, b.m11, b.m12, b.m13, t, Multiply(b, x).m12, Multiply(a, x).m12);
  }

  /** Entry (1, 3) of `ScaledProduct`. */
  lemma ScaledProductEntry13(a: Matrix4x4, x: Matrix4x4, t: real)
    ensures Multiply(ScaleEntries(a, t), x).m13 == Multiply(a, x).m13 * t
  {
    var b := ScaleEntries(a, t);
    MultiplyEntry13(b, x);
    MultiplyEntry13(a, x);
    ScaleEntriesEntries(a, t);
    ScaleRowSum(x.m03, x.m13, x.m23, x.m33, a.m10, a.m11, a.m12, a.m13,
      b.m10, b.m11, b.m12, b.m13, t, Multiply(b, x).m13, Multiply(a, x).m13);
  }

  /** Entry (2, 0) of `ScaledProduct`. */
  lemma ScaledProductEntry20(a: Matrix4x4, x: Matrix4x4, t: real)
    ensures Multiply(ScaleEntries(a, t), x).m20 == Multiply(a, x).m20 * t
  {
    var b := ScaleEntries(a, t);
    MultiplyEntry20(b, x);
    MultiplyEntry20(a, x);
    ScaleEntriesEntries(a, t);
    ScaleRowSum(x.m00, x.m10, x.m20, x.m30, a.m20, a.m21, a.m22, a.m23,
      b.m20, b.m21, b.m22, b.m23, t, Multiply(b, x).m20, Multiply(a, x).m20);
  }

  /** Entry (2, 1) of `ScaledProduct`. */
  lemma ScaledProductEntry21(a: Matrix4x4, x: Matrix4x4, t: real)
    ensures Multiply(ScaleEntries(a, t), x).m21 == Multiply(a, x).m21 * t
  {
    var b := ScaleEntries(a, t);
    MultiplyEntry21(b, x);
    MultiplyEntry21(a, x);
    ScaleEntriesEntries(a, t);
    ScaleRowSum(x.m01, x.m11, x.m21, x.m31, a.m20, a.m21, a.m22, a.m23,
      b.m20, b.m21, b.m22, b.m23, t, Multiply(b, x).m21, Multiply(a, x).m21);
  }

  /** Entry (2, 2) of `ScaledProduct`. */
  lemma ScaledProductEntry22(a: Matrix4x4, x: Matrix4x4, t: real)
    ensures Multiply(ScaleEntries(a, t), x).m22 == Multiply(a, x).m22 * t
  {
    var b := ScaleEntries(a, t);
    MultiplyEntry22(b, x);
    MultiplyEntry22(a, x);
    ScaleEntriesEntries(a, t);
    ScaleRowSum(x.m02, x.m12, x.m22, x.m32, a.m20, a.m21, a.m22, a.m23,
      b.m20, b.m21, b.m22, b.m23, t, Multiply(b, x).m22, Multiply(a, x).m22);
  }

  /** Entry (2, 3) of `ScaledProduct`. */
  lemma ScaledProductEntry23(a: Matrix4x4, x: Matrix4x4, t: real)
    ensures Multiply(ScaleEntries(a, t), x).m23 == Multiply(a, x).m23 * t
  {
    var b := ScaleEntries(a, t);
    MultiplyEntry23(b, x);
    MultiplyEntry23(a, x);
    ScaleEntriesEntries(a, t);
    ScaleRowSum(x.m03, x.m13, x.m23, x.m33, a.m20, a.m21, a.m22, a.m23,
      b.m20, b.m21, b.m22, b.m23, t, Multiply(b, x).m23, Multiply(a, x).m23);
  }

  /** Entry (3, 0) of `ScaledProduct`. */
  lemma ScaledProductEntry30(a: Matrix4x4, x: Matrix4x4, t: real)
    ensures Multiply(ScaleEntries(a, t), x).m30 == Multiply(a, x).m30 * t
  {
    var b := ScaleEntries(a, t);
    MultiplyEntry30(b, x);
    MultiplyEntry30(a, x);
    ScaleEntriesEntries(a, t);
    ScaleRowSum(x.m00, x.m10, x.m20, x.m30, a.m30, a.m31, a.m32, a.m33,
      b.m30, b.m31, b.m32, b.m33, t, Multiply(b, x).m30, Multiply(a, x).m30);
  }

  /** Entry (3, 1) of `ScaledProduct`. */
  lemma ScaledProductEntry31(a: Matrix4x4, x: Matrix4x4, t: real)
    ensures Multiply(ScaleEntries(a, t), x).m31 == Multiply(a, x).m31 * t
  {
    var b := ScaleEntries(a, t);
    MultiplyEntry31(b, x);
    MultiplyEntry31(a, x);
    ScaleEntriesEntries(a, t);
    ScaleRowSum(x.m01, x.m11, x.m21, x.m31, a.m30, a.m31, a.m32, a.m33,
      b.m30, b.m31, b.m32, b.m33, t, Multiply(b, x).m31, Multiply(a, x).m31);
  }

  /** Entry (3, 2) of `ScaledProduct`. */
  lemma ScaledProductEntry32(a: Matrix4x4, x: Matrix4x4, t: real)
    ensures Multiply(ScaleEntries(a, t), x).m32 == Multiply(a, x).m32 * t
  {
    var b := ScaleEntries(a, t);
    MultiplyEntry32(b, x);
    MultiplyEntry32(a, x);
    ScaleEntriesEntries(a, t);
    ScaleRowSum(x.m02, x.m12, x.m22, x.m32, a.m30, a.m31, a.m32, a.m33,
      b.m30, b.m31, b.m32, b.m33, t, Multiply(b, x).m32, Multiply(a, x).m32);
  }

  /** Entry (3, 3) of `ScaledProduct`. */
  lemma ScaledProductEntry33(a: Matrix4x4, x: Matrix4x4, t: real)
    ensures Multiply(ScaleEntries(a, t), x).m33 == Multiply(a, x).m33 * t
  {
    var b := ScaleEntries(a, t);
    MultiplyEntry33(b, x);
    MultiplyEntry33(a, x);
    ScaleEntriesEntries(a, t);
    ScaleRowSum(x.m03, x.m13, x.m23, x.m33, a.m30, a.m31, a.m32, a.m33,
      b.m30, b.m31, b.m32, b.m33, t, Multiply(b, x).m33, Multiply(a, x).m33);
  }
}
