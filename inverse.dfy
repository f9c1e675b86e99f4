/**
 * The library's `Inverse`: a closed-form 4x4 inverse written as the 24-term
 * determinant (`lal` in the library) and sixteen 6-term cofactor numerators, each
 * divided by the determinant. The library does not guard against a singular
 * matrix, which divides by zero; the model makes a non-zero determinant a
 * precondition.
 *
 * Proved here: the 24-term determinant is the Laplace expansion along the first
 * row; `m * adj(m)` and `adj(m) * m` are the determinant times the identity for
 * every matrix; and so the closed form is a two-sided inverse whenever the
 * determinant is non-zero.
 */
module Inverses {
  import opened Matrices
  import opened Scaling
  import CofactorExpansion

  /** The determinant exactly as the library expands it (24 products of four entries). */
  function Determinant(m: Matrix4x4): real
  {
    CofactorExpansion.Det(
        m.m00, m.m01, m.m02, m.m03,
        m.m10, m.m11, m.m12, m.m13,
        m.m20, m.m21, m.m22, m.m23,
        m.m30, m.m31, m.m32, m.m33)
  }

  /** The determinant of a 3x3 matrix given row by row, by the rule of Sarrus. */
  function Det3(a: real, b: real, c: real, d: real, e: real, f: real, g: real, h: real, i: real): real
  {
    a * e * i + b * f * g + c * d * h - c * e * g - b * d * i - a * f * h
  }

  /** Reference determinant: cofactor expansion along row 0, each minor the 3x3
      determinant of rows 1..3 with one column deleted. */
  function LaplaceDeterminant(m: Matrix4x4): real
  {
    m.m00 * Det3(m.m11, m.m12, m.m13, m.m21, m.m22, m.m23, m.m31, m.m32, m.m33)
    - m.m01 * Det3(m.m10, m.m12, m.m13, m.m20, m.m22, m.m23, m.m30, m.m32, m.m33)
    + m.m02 * Det3(m.m10, m.m11, m.m13, m.m20, m.m21, m.m23, m.m30, m.m31, m.m33)
    - m.m03 * Det3(m.m10, m.m11, m.m12, m.m20, m.m21, m.m22, m.m30, m.m31, m.m32)
  }

  /** The library's 24-term determinant is the Laplace expansion along the first row. */
  lemma DeterminantIsLaplace(m: Matrix4x4)
    ensures Determinant(m) == LaplaceDeterminant(m)
  {
  }

  /** The sixteen cofactor numerators of the library's inverse: entry (i, j) is the
      signed minor of entry (j, i) of `m`, so this is the adjugate (the transposed
      cofactor matrix). */
  function Adjugate(m: Matrix4x4): Matrix4x4
  {
    Matrix4x4(
      CofactorExpansion.Adj00(m.m00, m.m01, m.m02, m.m03, m.m10, m.m11, m.m12, m.m13, m.m20, m.m21, m.m22, m.m23, m.m30, m.m31, m.m32, m.m33),
      CofactorExpansion.Adj01(m.m00, m.m01, m.m02, m.m03, m.m10, m.m11, m.m12, m.m13, m.m20, m.m21, m.m22, m.m23, m.m30, m.m31, m.m32, m.m33),
      CofactorExpansion.Adj02(m.m00, m.m01, m.m02, m.m03, m.m10, m.m11, m.m12, m.m13, m.m20, m.m21, m.m22, m.m23, m.m30, m.m31, m.m32, m.m33),
      CofactorExpansion.Adj03(m.m00, m.m01, m.m02, m.m03, m.m10, m.m11, m.m12, m.m13, m.m20, m.m21, m.m22, m.m23, m.m30, m.m31, m.m32, m.m33),
      CofactorExpansion.Adj10(m.m00, m.m01, m.m02, m.m03, m.m10, m.m11, m.m12, m.m13, m.m20, m.m21, m.m22, m.m23, m.m30, m.m31, m.m32, m.m33),
      CofactorExpansion.Adj11(m.m00, m.m01, m.m02, m.m03, m.m10, m.m11, m.m12, m.m13, m.m20, m.m21, m.m22, m.m23, m.m30, m.m31, m.m32, m.m33),
      CofactorExpansion.Adj12(m.m00, m.m01, m.m02, m.m03, m.m10, m.m11, m.m12, m.m13, m.m20, m.m21, m.m22, m.m23, m.m30, m.m31, m.m32, m.m33),
      CofactorExpansion.Adj13(m.m00, m.m01, m.m02, m.m03, m.m10, m.m11, m.m12, m.m13, m.m20, m.m21, m.m22, m.m23, m.m30, m.m31, m.m32, m.m33),
      CofactorExpansion.Adj20(m.m00, m.m01, m.m02, m.m03, m.m10, m.m11, m.m12, m.m13, m.m20, m.m21, m.m22, m.m23, m.m30, m.m31, m.m32, m.m33),
      CofactorExpansion.Adj21(m.m00, m.m01, m.m02, m.m03, m.m10, m.m11, m.m12, m.m13, m.m20, m.m21, m.m22, m.m23, m.m30, m.m31, m.m32, m.m33),
      CofactorExpansion.Adj22(m.m00, m.m01, m.m02, m.m03, m.m10, m.m11, m.m12, m.m13, m.m20, m.m21, m.m22, m.m23, m.m30, m.m31, m.m32, m.m33),
      CofactorExpansion.Adj23(m.m00, m.m01, m.m02, m.m03, m.m10, m.m11, m.m12, m.m13, m.m20, m.m21, m.m22, m.m23, m.m30, m.m31, m.m32, m.m33),
      CofactorExpansion.Adj30(m.m00, m.m01, m.m02, m.m03, m.m10, m.m11, m.m12, m.m13, m.m20, m.m21, m.m22, m.m23, m.m30, m.m31, m.m32, m.m33),
      CofactorExpansion.Adj31(m.m00, m.m01, m.m02, m.m03, m.m10, m.m11, m.m12, m.m13, m.m20, m.m21, m.m22, m.m23, m.m30, m.m31, m.m32, m.m33),
      CofactorExpansion.Adj32(m.m00, m.m01, m.m02, m.m03, m.m10, m.m11, m.m12, m.m13, m.m20, m.m21, m.m22, m.m23, m.m30, m.m31, m.m32, m.m33),
      CofactorExpansion.Adj33(m.m00, m.m01, m.m02, m.m03, m.m10, m.m11, m.m12, m.m13, m.m20, m.m21, m.m22, m.m23, m.m30, m.m31, m.m32, m.m33))
  }

  /** Mymath.h `Inverse`: every cofactor numerator divided by the determinant,
      written as the numerator times the reciprocal of the determinant (the same
      real number, see `InverseEntry`). */
  function Inverse(m: Matrix4x4): Matrix4x4
    requires Determinant(m) != 0.0
  {
    ScaleEntries(Adjugate(m), 1.0 / Determinant(m))
  }

  /** Each entry of the inverse is the library's quotient: numerator over determinant. */
  lemma InverseEntry(m: Matrix4x4, i: nat, j: nat)
    requires Determinant(m) != 0.0
    requires i < 4 && j < 4
    ensures Inverse(m).At(i, j) == Adjugate(m).At(i, j) / Determinant(m)
  {
    ScaleByReciprocalEntry(Adjugate(m), Determinant(m), i, j);
  }

  /** For every matrix, singular or not, `m * adj(m)` is the determinant times the
      identity. */
  lemma MatrixTimesAdjugate(m: Matrix4x4)
    ensures Multiply(m, Adjugate(m)) == ScaledIdentity(Determinant(m))
  {
    MatrixTimesAdjugateEntry00(m); MatrixTimesAdjugateEntry01(m); MatrixTimesAdjugateEntry02(m); MatrixTimesAdjugateEntry03(m);
    MatrixTimesAdjugateEntry10(m); MatrixTimesAdjugateEntry11(m); MatrixTimesAdjugateEntry12(m); MatrixTimesAdjugateEntry13(m);
    MatrixTimesAdjugateEntry20(m); MatrixTimesAdjugateEntry21(m); MatrixTimesAdjugateEntry22(m); MatrixTimesAdjugateEntry23(m);
    MatrixTimesAdjugateEntry30(m); MatrixTimesAdjugateEntry31(m); MatrixTimesAdjugateEntry32(m); MatrixTimesAdjugateEntry33(m);
  }

  /** For every matrix, singular or not, `adj(m) * m` is the determinant times the
      identity. */
  lemma AdjugateTimesMatrix(m: Matrix4x4)
    ensures Multiply(Adjugate(m), m) == ScaledIdentity(Determinant(m))
  {
    AdjugateTimesMatrixEntry00(m); AdjugateTimesMatrixEntry01(m); AdjugateTimesMatrixEntry02(m); AdjugateTimesMatrixEntry03(m);
    AdjugateTimesMatrixEntry10(m); AdjugateTimesMatrixEntry11(m); AdjugateTimesMatrixEntry12(m); AdjugateTimesMatrixEntry13(m);
    AdjugateTimesMatrixEntry20(m); AdjugateTimesMatrixEntry21(m); AdjugateTimesMatrixEntry22(m); AdjugateTimesMatrixEntry23(m);
    AdjugateTimesMatrixEntry30(m); AdjugateTimesMatrixEntry31(m); AdjugateTimesMatrixEntry32(m); AdjugateTimesMatrixEntry33(m);
  }

  /** For every matrix with a non-zero determinant, `m * Inverse(m)` is the identity. */
  lemma InverseIsRightInverse(m: Matrix4x4)
    requires Determinant(m) != 0.0
    ensures Multiply(m, Inverse(m)) == MakeIdentity4x4()
  {
    var d := Determinant(m);
    ProductOfScaled(m, Adjugate(m), 1.0 / d);
    MatrixTimesAdjugate(m);
    ScaledIdentityByReciprocal(d);
  }

  /** For every matrix with a non-zero determinant, `Inverse(m) * m` is the identity. */
  lemma InverseIsLeftInverse(m: Matrix4x4)
    requires Determinant(m) != 0.0
    ensures Multiply(Inverse(m), m) == MakeIdentity4x4()
  {
    var d := Determinant(m);
    ScaledProduct(Adjugate(m), m, 1.0 / d);
    AdjugateTimesMatrix(m);
    ScaledIdentityByReciprocal(d);
  }

  /** The identity has determinant one. */
  lemma DeterminantOfIdentity()
    ensures Determinant(MakeIdentity4x4()) == 1.0
  {
  }

  /** The identity is its own adjugate. */
  lemma AdjugateOfIdentity(m: Matrix4x4)
    requires m == MakeIdentity4x4()
    ensures Determinant(m) == 1.0
    ensures Adjugate(m) == m
  {
    assert m.m00 == 1.0 && m.m01 == 0.0 && m.m02 == 0.0 && m.m03 == 0.0
      && m.m10 == 0.0 && m.m11 == 1.0 && m.m12 == 0.0 && m.m13 == 0.0
      && m.m20 == 0.0 && m.m21 == 0.0 && m.m22 == 1.0 && m.m23 == 0.0
      && m.m30 == 0.0 && m.m31 == 0.0 && m.m32 == 0.0 && m.m33 == 1.0;
  }

  /** The inverse of the identity is the identity. */
  lemma InverseOfIdentity(m: Matrix4x4)
    requires m == MakeIdentity4x4()
    ensures Determinant(m) == 1.0
    ensures Inverse(m) == m
  {
    AdjugateOfIdentity(m);
    var d := Determinant(m);
    assert 1.0 / d == 1.0;
    assert Inverse(m) == ScaleEntries(Adjugate(m), 1.0 / d);
    ScaleByOne(m);
  }

  /** Transposing does not change the determinant. */
  lemma DeterminantOfTranspose(m: Matrix4x4)
    ensures Determinant(Transpose(m)) == Determinant(m)
  {
  }

  /** Entry (0, 0) of `m * adj(m)`. */
  lemma MatrixTimesAdjugateEntry00(m: Matrix4x4)
    ensures Multiply(m, Adjugate(m)).m00 == Determinant(m)
  {
    var a := Adjugate(m);
    MultiplyEntry00(m, a);
    CofactorExpansion.RowTimesAdjugateColumn00(
        m.m00, m.m01, m.m02, m.m03,
        m.m10, m.m11, m.m12, m.m13,
        m.m20, m.m21, m.m22, m.m23,
        m.m30, m.m31, m.m32, m.m33,
        a.m00, a.m10, a.m20, a.m30);
  }

  /** Entry (0, 1) of `m * adj(m)`. */
  lemma MatrixTimesAdjugateEntry01(m: Matrix4x4)
    ensures Multiply(m, Adjugate(m)).m01 == 0.0
  {
    var a := Adjugate(m);
    MultiplyEntry01(m, a);
    CofactorExpansion.RowTimesAdjugateColumn01(
        m.m00, m.m01, m.m02, m.m03,
        m.m10, m.m11, m.m12, m.m13,
        m.m20, m.m21, m.m22, m.m23,
        m.m30, m.m31, m.m32, m.m33,
        a.m01, a.m11, a.m21, a.m31);
  }

  /** Entry (0, 2) of `m * adj(m)`. */
  lemma MatrixTimesAdjugateEntry02(m: Matrix4x4)
    ensures Multiply(m, Adjugate(m)).m02 == 0.0
  {
    var a := Adjugate(m);
    MultiplyEntry02(m, a);
    CofactorExpansion.RowTimesAdjugateColumn02(
        m.m00, m.m01, m.m02, m.m03,
        m.m10, m.m11, m.m12, m.m13,
        m.m20, m.m21, m.m22, m.m23,
        m.m30, m.m31, m.m32, m.m33,
        a.m02, a.m12, a.m22, a.m32);
  }

  /** Entry (0, 3) of `m * adj(m)`. */
  lemma MatrixTimesAdjugateEntry03(m: Matrix4x4)
    ensures Multiply(m, Adjugate(m)).m03 == 0.0
  {
    var a := Adjugate(m);
    MultiplyEntry03(m, a);
    CofactorExpansion.RowTimesAdjugateColumn03(
        m.m00, m.m01, m.m02, m.m03,
        m.m10, m.m11, m.m12, m.m13,
        m.m20, m.m21, m.m22, m.m23,
        m.m30, m.m31, m.m32, m.m33,
        a.m03, a.m13, a.m23, a.m33);
  }

  /** Entry (1, 0) of `m * adj(m)`. */
  lemma MatrixTimesAdjugateEntry10(m: Matrix4x4)
    ensures Multiply(m, Adjugate(m)).m10 == 0.0
  {
    var a := Adjugate(m);
    MultiplyEntry10(m, a);
    CofactorExpansion.RowTimesAdjugateColumn10(
        m.m00, m.m01, m.m02, m.m03,
        m.m10, m.m11, m.m12, m.m13,
        m.m20, m.m21, m.m22, m.m23,
        m.m30, m.m31, m.m32, m.m33,
        a.m00, a.m10, a.m20, a.m30);
  }

  /** Entry (1, 1) of `m * adj(m)`. */
  lemma MatrixTimesAdjugateEntry11(m: Matrix4x4)
    ensures Multiply(m, Adjugate(m)).m11 == Determinant(m)
  {
    var a := Adjugate(m);
    MultiplyEntry11(m, a);
    CofactorExpansion.RowTimesAdjugateColumn11(
        m.m00, m.m01, m.m02, m.m03,
        m.m10, m.m11, m.m12, m.m13,
        m.m20, m.m21, m.m22, m.m23,
        m.m30, m.m31, m.m32, m.m33,
        a.m01, a.m11, a.m21, a.m31);
  }

  /** Entry (1, 2) of `m * adj(m)`. */
  lemma MatrixTimesAdjugateEntry12(m: Matrix4x4)
    ensures Multiply(m, Adjugate(m)).m12 == 0.0
  {
    var a := Adjugate(m);
    MultiplyEntry12(m, a);
    CofactorExpansion.RowTimesAdjugateColumn12(
        m.m00, m.m01, m.m02, m.m03,
        m.m10, m.m11, m.m12, m.m13,
        m.m20, m.m21, m.m22, m.m23,
        m.m30, m.m31, m.m32, m.m33,
        a.m02, a.m12, a.m22, a.m32);
  }

  /** Entry (1, 3) of `m * adj(m)`. */
  lemma MatrixTimesAdjugateEntry13(m: Matrix4x4)
    ensures Multiply(m, Adjugate(m)).m13 == 0.0
  {
    var a := Adjugate(m);
    MultiplyEntry13(m, a);
    CofactorExpansion.RowTimesAdjugateColumn13(
        m.m00, m.m01, m.m02, m.m03,
        m.m10, m.m11, m.m12, m.m13,
        m.m20, m.m21, m.m22, m.m23,
        m.m30, m.m31, m.m32, m.m33,
        a.m03, a.m13, a.m23, a.m33);
  }

  /** Entry (2, 0) of `m * adj(m)`. */
  lemma MatrixTimesAdjugateEntry20(m: Matrix4x4)
    ensures Multiply(m, Adjugate(m)).m20 == 0.0
  {
    var a := Adjugate(m);
    MultiplyEntry20(m, a);
    CofactorExpansion.RowTimesAdjugateColumn20(
        m.m00, m.m01, m.m02, m.m03,
        m.m10, m.m11, m.m12, m.m13,
        m.m20, m.m21, m.m22, m.m23,
        m.m30, m.m31, m.m32, m.m33,
        a.m00, a.m10, a.m20, a.m30);
  }

  /** Entry (2, 1) of `m * adj(m)`. */
  lemma MatrixTimesAdjugateEntry21(m: Matrix4x4)
    ensures Multiply(m, Adjugate(m)).m21 == 0.0
  {
    var a := Adjugate(m);
    MultiplyEntry21(m, a);
    CofactorExpansion.RowTimesAdjugateColumn21(
        m.m00, m.m01, m.m02, m.m03,
        m.m10, m.m11, m.m12, m.m13,
        m.m20, m.m21, m.m22, m.m23,
        m.m30, m.m31, m.m32, m.m33,
        a.m01, a.m11, a.m21, a.m31);
  }

  /** Entry (2, 2) of `m * adj(m)`. */
  lemma MatrixTimesAdjugateEntry22(m: Matrix4x4)
    ensures Multiply(m, Adjugate(m)).m22 == Determinant(m)
  {
    var a := Adjugate(m);
    MultiplyEntry22(m, a);
    CofactorExpansion.RowTimesAdjugateColumn22(
        m.m00, m.m01, m.m02, m.m03,
        m.m10, m.m11, m.m12, m.m13,
        m.m20, m.m21, m.m22, m.m23,
        m.m30, m.m31, m.m32, m.m33,
        a.m02, a.m12, a.m22, a.m32);
  }

  /** Entry (2, 3) of `m * adj(m)`. */
  lemma MatrixTimesAdjugateEntry23(m: Matrix4x4)
    ensures Multiply(m, Adjugate(m)).m23 == 0.0
  {
    var a := Adjugate(m);
    MultiplyEntry23(m, a);
    CofactorExpansion.RowTimesAdjugateColumn23(
        m.m00, m.m01, m.m02, m.m03,
        m.m10, m.m11, m.m12, m.m13,
        m.m20, m.m21, m.m22, m.m23,
        m.m30, m.m31, m.m32, m.m33,
        a.m03, a.m13, a.m23, a.m33);
  }

  /** Entry (3, 0) of `m * adj(m)`. */
  lemma MatrixTimesAdjugateEntry30(m: Matrix4x4)
    ensures Multiply(m, Adjugate(m)).m30 == 0.0
  {
    var a := Adjugate(m);
    MultiplyEntry30(m, a);
    CofactorExpansion.RowTimesAdjugateColumn30(
        m.m00, m.m01, m.m02, m.m03,
        m.m10, m.m11, m.m12, m.m13,
        m.m20, m.m21, m.m22, m.m23,
        m.m30, m.m31, m.m32, m.m33,
        a.m00, a.m10, a.m20, a.m30);
  }

  /** Entry (3, 1) of `m * adj(m)`. */
  lemma MatrixTimesAdjugateEntry31(m: Matrix4x4)
    ensures Multiply(m, Adjugate(m)).m31 == 0.0
  {
    var a := Adjugate(m);
    MultiplyEntry31(m, a);
    CofactorExpansion.RowTimesAdjugateColumn31(
        m.m00, m.m01, m.m02, m.m03,
        m.m10, m.m11, m.m12, m.m13,
        m.m20, m.m21, m.m22, m.m23,
        m.m30, m.m31, m.m32, m.m33,
        a.m01, a.m11, a.m21, a.m31);
  }

  /** Entry (3, 2) of `m * adj(m)`. */
  lemma MatrixTimesAdjugateEntry32(m: Matrix4x4)
    ensures Multiply(m, Adjugate(m)).m32 == 0.0
  {
    var a := Adjugate(m);
    MultiplyEntry32(m, a);
    CofactorExpansion.RowTimesAdjugateColumn32(
        m.m00, m.m01, m.m02, m.m03,
        m.m10, m.m11, m.m12, m.m13,
        m.m20, m.m21, m.m22, m.m23,
        m.m30, m.m31, m.m32, m.m33,
        a.m02, a.m12, a.m22, a.m32);
  }

  /** Entry (3, 3) of `m * adj(m)`. */
  lemma MatrixTimesAdjugateEntry33(m: Matrix4x4)
    ensures Multiply(m, Adjugate(m)).m33 == Determinant(m)
  {
    var a := Adjugate(m);
    MultiplyEntry33(m, a);
    CofactorExpansion.RowTimesAdjugateColumn33(
        m.m00, m.m01, m.m02, m.m03,
        m.m10, m.m11, m.m12, m.m13,
        m.m20, m.m21, m.m22, m.m23,
        m.m30, m.m31, m.m32, m.m33,
        a.m03, a.m13, a.m23, a.m33);
  }

  /** Entry (0, 0) of `adj(m) * m`. */
  lemma AdjugateTimesMatrixEntry00(m: Matrix4x4)
    ensures Multiply(Adjugate(m), m).m00 == Determinant(m)
  {
    var a := Adjugate(m);
    MultiplyEntry00(a, m);
    CofactorExpansion.AdjugateRowTimesColumn00(
        m.m00, m.m01, m.m02, m.m03,
        m.m10, m.m11, m.m12, m.m13,
        m.m20, m.m21, m.m22, m.m23,
        m.m30, m.m31, m.m32, m.m33,
        a.m00, a.m01, a.m02, a.m03);
  }

  /** Entry (0, 1) of `adj(m) * m`. */
  lemma AdjugateTimesMatrixEntry01(m: Matrix4x4)
    ensures Multiply(Adjugate(m), m).m01 == 0.0
  {
    var a := Adjugate(m);
    MultiplyEntry01(a, m);
    CofactorExpansion.AdjugateRowTimesColumn01(
        m.m00, m.m01, m.m02, m.m03,
        m.m10, m.m11, m.m12, m.m13,
        m.m20, m.m21, m.m22, m.m23,
        m.m30, m.m31, m.m32, m.m33,
        a.m00, a.m01, a.m02, a.m03);
  }

  /** Entry (0, 2) of `adj(m) * m`. */
  lemma AdjugateTimesMatrixEntry02(m: Matrix4x4)
    ensures Multiply(Adjugate(m), m).m02 == 0.0
  {
    var a := Adjugate(m);
    MultiplyEntry02(a, m);
    CofactorExpansion.AdjugateRowTimesColumn02(
        m.m00, m.m01, m.m02, m.m03,
        m.m10, m.m11, m.m12, m.m13,
        m.m20, m.m21, m.m22, m.m23,
        m.m30, m.m31, m.m32, m.m33,
        a.m00, a.m01, a.m02, a.m03);
  }

  /** Entry (0, 3) of `adj(m) * m`. */
  lemma AdjugateTimesMatrixEntry03(m: Matrix4x4)
    ensures Multiply(Adjugate(m), m).m03 == 0.0
  {
    var a := Adjugate(m);
    MultiplyEntry03(a, m);
    CofactorExpansion.AdjugateRowTimesColumn03(
        m.m00, m.m01, m.m02, m.m03,
        m.m10, m.m11, m.m12, m.m13,
        m.m20, m.m21, m.m22, m.m23,
        m.m30, m.m31, m.m32, m.m33,
        a.m00, a.m01, a.m02, a.m03);
  }

  /** Entry (1, 0) of `adj(m) * m`. */
  lemma AdjugateTimesMatrixEntry10(m: Matrix4x4)
    ensures Multiply(Adjugate(m), m).m10 == 0.0
  {
    var a := Adjugate(m);
    MultiplyEntry10(a, m);
    CofactorExpansion.AdjugateRowTimesColumn10(
        m.m00, m.m01, m.m02, m.m03,
        m.m10, m.m11, m.m12, m.m13,
        m.m20, m.m21, m.m22, m.m23,
        m.m30, m.m31, m.m32, m.m33,
        a.m10, a.m11, a.m12, a.m13);
  }

  /** Entry (1, 1) of `adj(m) * m`. */
  lemma AdjugateTimesMatrixEntry11(m: Matrix4x4)
    ensures Multiply(Adjugate(m), m).m11 == Determinant(m)
  {
    var a := Adjugate(m);
    MultiplyEntry11(a, m);
    CofactorExpansion.AdjugateRowTimesColumn11(
        m.m00, m.m01, m.m02, m.m03,
        m.m10, m.m11, m.m12, m.m13,
        m.m20, m.m21, m.m22, m.m23,
        m.m30, m.m31, m.m32, m.m33,
        a.m10, a.m11, a.m12, a.m13);
  }

  /** Entry (1, 2) of `adj(m) * m`. */
  lemma AdjugateTimesMatrixEntry12(m: Matrix4x4)
    ensures Multiply(Adjugate(m), m).m12 == 0.0
  {
    var a := Adjugate(m);
    MultiplyEntry12(a, m);
    CofactorExpansion.AdjugateRowTimesColumn12(
        m.m00, m.m01, m.m02, m.m03,
        m.m10, m.m11, m.m12, m.m13,
        m.m20, m.m21, m.m22, m.m23,
        m.m30, m.m31, m.m32, m.m33,
        a.m10, a.m11, a.m12, a.m13);
  }

  /** Entry (1, 3) of `adj(m) * m`. */
  lemma AdjugateTimesMatrixEntry13(m: Matrix4x4)
    ensures Multiply(Adjugate(m), m).m13 == 0.0
  {
    var a := Adjugate(m);
    MultiplyEntry13(a, m);
    CofactorExpansion.AdjugateRowTimesColumn13(
        m.m00, m.m01, m.m02, m.m03,
        m.m10, m.m11, m.m12, m.m13,
        m.m20, m.m21, m.m22, m.m23,
        m.m30, m.m31, m.m32, m.m33,
        a.m10, a.m11, a.m12, a.m13);
  }

  /** Entry (2, 0) of `adj(m) * m`. */
  lemma AdjugateTimesMatrixEntry20(m: Matrix4x4)
    ensures Multiply(Adjugate(m), m).m20 == 0.0
  {
    var a := Adjugate(m);
    MultiplyEntry20(a, m);
    CofactorExpansion.AdjugateRowTimesColumn20(
        m.m00, m.m01, m.m02, m.m03,
        m.m10, m.m11, m.m12, m.m13,
        m.m20, m.m21, m.m22, m.m23,
        m.m30, m.m31, m.m32, m.m33,
        a.m20, a.m21, a.m22, a.m23);
  }

  /** Entry (2, 1) of `adj(m) * m`. */
  lemma AdjugateTimesMatrixEntry21(m: Matrix4x4)
    ensures Multiply(Adjugate(m), m).m21 == 0.0
  {
    var a := Adjugate(m);
    MultiplyEntry21(a, m);
    CofactorExpansion.AdjugateRowTimesColumn21(
        m.m00, m.m01, m.m02, m.m03,
        m.m10, m.m11, m.m12, m.m13,
        m.m20, m.m21, m.m22, m.m23,
        m.m30, m.m31, m.m32, m.m33,
        a.m20, a.m21, a.m22, a.m23);
  }

  /** Entry (2, 2) of `adj(m) * m`. */
  lemma AdjugateTimesMatrixEntry22(m: Matrix4x4)
    ensures Multiply(Adjugate(m), m).m22 == Determinant(m)
  {
    var a := Adjugate(m);
    MultiplyEntry22(a, m);
    CofactorExpansion.AdjugateRowTimesColumn22(
        m.m00, m.m01, m.m02, m.m03,
        m.m10, m.m11, m.m12, m.m13,
        m.m20, m.m21, m.m22, m.m23,
        m.m30, m.m31, m.m32, m.m33,
        a.m20, a.m21, a.m22, a.m23);
  }

  /** Entry (2, 3) of `adj(m) * m`. */
  lemma AdjugateTimesMatrixEntry23(m: Matrix4x4)
    ensures Multiply(Adjugate(m), m).m23 == 0.0
  {
    var a := Adjugate(m);
    MultiplyEntry23(a, m);
    CofactorExpansion.AdjugateRowTimesColumn23(
        m.m00, m.m01, m.m02, m.m03,
        m.m10, m.m11, m.m12, m.m13,
        m.m20, m.m21, m.m22, m.m23,
        m.m30, m.m31, m.m32, m.m33,
        a.m20, a.m21, a.m22, a.m23);
  }

  /** Entry (3, 0) of `adj(m) * m`. */
  lemma AdjugateTimesMatrixEntry30(m: Matrix4x4)
    ensures Multiply(Adjugate(m), m).m30 == 0.0
  {
    var a := Adjugate(m);
    MultiplyEntry30(a, m);
    CofactorExpansion.AdjugateRowTimesColumn30(
        m.m00, m.m01, m.m02, m.m03,
        m.m10, m.m11, m.m12, m.m13,
        m.m20, m.m21, m.m22, m.m23,
        m.m30, m.m31, m.m32, m.m33,
        a.m30, a.m31, a.m32, a.m33);
  }

  /** Entry (3, 1) of `adj(m) * m`. */
  lemma AdjugateTimesMatrixEntry31(m: Matrix4x4)
    ensures Multiply(Adjugate(m), m).m31 == 0.0
  {
    var a := Adjugate(m);
    MultiplyEntry31(a, m);
    CofactorExpansion.AdjugateRowTimesColumn31(
        m.m00, m.m01, m.m02, m.m03,
        m.m10, m.m11, m.m12, m.m13,
        m.m20, m.m21, m.m22, m.m23,
        m.m30, m.m31, m.m32, m.m33,
        a.m30, a.m31, a.m32, a.m33);
  }

  /** Entry (3, 2) of `adj(m) * m`. */
  lemma AdjugateTimesMatrixEntry32(m: Matrix4x4)
    ensures Multiply(Adjugate(m), m).m32 == 0.0
  {
    var a := Adjugate(m);
    MultiplyEntry32(a, m);
    CofactorExpansion.AdjugateRowTimesColumn32(
        m.m00, m.m01, m.m02, m.m03,
        m.m10, m.m11, m.m12, m.m13,
        m.m20, m.m21, m.m22, m.m23,
        m.m30, m.m31, m.m32, m.m33,
        a.m30, a.m31, a.m32, a.m33);
  }

  /** Entry (3, 3) of `adj(m) * m`. */
  lemma AdjugateTimesMatrixEntry33(m: Matrix4x4)
    ensures Multiply(Adjugate(m), m).m33 == Determinant(m)
  {
    var a := Adjugate(m);
    MultiplyEntry33(a, m);
    CofactorExpansion.AdjugateRowTimesColumn33(
        m.m00, m.m01, m.m02, m.m03,
        m.m10, m.m11, m.m12, m.m13,
        m.m20, m.m21, m.m22, m.m23,
        m.m30, m.m31, m.m32, m.m33,
        a.m30, a.m31, a.m32, a.m33);
  }
}
