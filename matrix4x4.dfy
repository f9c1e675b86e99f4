/**
 * The Matrix4x4 region of the math library: a 4x4 matrix of reals indexed
 * [row][column], used in the row-vector convention (a point is the row vector on
 * the left: `v' = v * M`), and the structural operations on it. Floats are modelled
 * by exact reals.
 *
 * The library writes every operation out entry by entry. The model keeps those
 * bodies and proves them against index-level definitions (`At`, `RowTimesColumn`),
 * so a wrong index in any of the sixteen hand-written entries would show up as a
 * failed proof.
 */
module Matrices {

  /** The sixteen entries; `mij` is row `i`, column `j`. */
  datatype Matrix4x4 = Matrix4x4(
    m00: real, m01: real, m02: real, m03: real,
    m10: real, m11: real, m12: real, m13: real,
    m20: real, m21: real, m22: real, m23: real,
    m30: real, m31: real, m32: real, m33: real)
  {
    /** The entry in row `i`, column `j` (the library's `m[i][j]`). */
    function At(i: nat, j: nat): real
      requires i < 4 && j < 4
    {
      if i == 0 then (if j == 0 then m00 else if j == 1 then m01 else if j == 2 then m02 else m03)
      else if i == 1 then (if j == 0 then m10 else if j == 1 then m11 else if j == 2 then m12 else m13)
      else if i == 2 then (if j == 0 then m20 else if j == 1 then m21 else if j == 2 then m22 else m23)
      else (if j == 0 then m30 else if j == 1 then m31 else if j == 2 then m32 else m33)
    }
  }

  /** The all-zero matrix. */
  function ZeroMatrix(): (r: Matrix4x4)
    ensures forall i: nat, j: nat | i < 4 && j < 4 :: r.At(i, j) == 0.0
  {
    Matrix4x4(
    0.0, 0.0, 0.0, 0.0,
    0.0, 0.0, 0.0, 0.0,
    0.0, 0.0, 0.0, 0.0,
    0.0, 0.0, 0.0, 0.0)
  }

  /** Entrywise sum (Mymath.h `Add(const Matrix4x4&, const Matrix4x4&)`): every entry is
      the sum of the corresponding entries, and subtracting `m2` again restores `m1`. */
  function Add(m1: Matrix4x4, m2: Matrix4x4): (r: Matrix4x4)
    ensures forall i: nat, j: nat | i < 4 && j < 4 :: r.At(i, j) == m1.At(i, j) + m2.At(i, j)
    ensures Subtract(r, m2) == m1
  {
    Matrix4x4(
    m1.m00 + m2.m00, m1.m01 + m2.m01, m1.m02 + m2.m02, m1.m03 + m2.m03,
    m1.m10 + m2.m10, m1.m11 + m2.m11, m1.m12 + m2.m12, m1.m13 + m2.m13,
    m1.m20 + m2.m20, m1.m21 + m2.m21, m1.m22 + m2.m22, m1.m23 + m2.m23,
    m1.m30 + m2.m30, m1.m31 + m2.m31, m1.m32 + m2.m32, m1.m33 + m2.m33)
  }

  /** `operator+` on matrices, a separate copy of the sixteen sums; it agrees with `Add`. */
  function OperatorPlus(m1: Matrix4x4, m2: Matrix4x4): (r: Matrix4x4)
    ensures r == Add(m1, m2)
  {
    Matrix4x4(
    m1.m00 + m2.m00, m1.m01 + m2.m01, m1.m02 + m2.m02, m1.m03 + m2.m03,
    m1.m10 + m2.m10, m1.m11 + m2.m11, m1.m12 + m2.m12, m1.m13 + m2.m13,
    m1.m20 + m2.m20, m1.m21 + m2.m21, m1.m22 + m2.m22, m1.m23 + m2.m23,
    m1.m30 + m2.m30, m1.m31 + m2.m31, m1.m32 + m2.m32, m1.m33 + m2.m33)
  }

  /** Entrywise difference; it is the zero matrix exactly when the operands are equal. */
  function Subtract(m1: Matrix4x4, m2: Matrix4x4): (r: Matrix4x4)
    ensures forall i: nat, j: nat | i < 4 && j < 4 :: r.At(i, j) == m1.At(i, j) - m2.At(i, j)
    ensures r == ZeroMatrix() <==> m1 == m2
  {
    Matrix4x4(
    m1.m00 - m2.m00, m1.m01 - m2.m01, m1.m02 - m2.m02, m1.m03 - m2.m03,
    m1.m10 - m2.m10, m1.m11 - m2.m11, m1.m12 - m2.m12, m1.m13 - m2.m13,
    m1.m20 - m2.m20, m1.m21 - m2.m21, m1.m22 - m2.m22, m1.m23 - m2.m23,
    m1.m30 - m2.m30, m1.m31 - m2.m31, m1.m32 - m2.m32, m1.m33 - m2.m33)
  }

  /** `operator-` on matrices, a separate copy; it agrees with `Subtract`. */
  function OperatorMinus(m1: Matrix4x4, m2: Matrix4x4): (r: Matrix4x4)
    ensures r == Subtract(m1, m2)
  {
    Matrix4x4(
    m1.m00 - m2.m00, m1.m01 - m2.m01, m1.m02 - m2.m02, m1.m03 - m2.m03,
    m1.m10 - m2.m10, m1.m11 - m2.m11, m1.m12 - m2.m12, m1.m13 - m2.m13,
    m1.m20 - m2.m20, m1.m21 - m2.m21, m1.m22 - m2.m22, m1.m23 - m2.m23,
    m1.m30 - m2.m30, m1.m31 - m2.m31, m1.m32 - m2.m32, m1.m33 - m2.m33)
  }

  /** The `k`-th term of the row-by-column sum for entry `(i, j)`: `a[i][k] * b[k][j]`. */
  function Term(a: Matrix4x4, b: Matrix4x4, i: nat, k: nat, j: nat): real
    requires i < 4 && k < 4 && j < 4
  {
    a.At(i, k) * b.At(k, j)
  }

  /** The textbook definition of a product entry: the sum over `k < n` of
      `a[i][k] * b[k][j]`. */
  function RowTimesColumn(a: Matrix4x4, b: Matrix4x4, i: nat, j: nat, n: nat): real
    requires i < 4 && j < 4 && n <= 4
  {
    if n == 0 then 0.0 else RowTimesColumn(a, b, i, j, n - 1) + Term(a, b, i, n - 1, j)
  }

  /** Matrix product (Mymath.h `Multiply`), sixteen hand-unrolled four-term sums. */
  function Multiply(m1: Matrix4x4, m2: Matrix4x4): (r: Matrix4x4)
  {
    Matrix4x4(
      m1.m00 * m2.m00 + m1.m01 * m2.m10 + m1.m02 * m2.m20 + m1.m03 * m2.m30,
      m1.m00 * m2.m01 + m1.m01 * m2.m11 + m1.m02 * m2.m21 + m1.m03 * m2.m31,
      m1.m00 * m2.m02 + m1.m01 * m2.m12 + m1.m02 * m2.m22 + m1.m03 * m2.m32,
      m1.m00 * m2.m03 + m1.m01 * m2.m13 + m1.m02 * m2.m23 + m1.m03 * m2.m33,
      m1.m10 * m2.m00 + m1.m11 * m2.m10 + m1.m12 * m2.m20 + m1.m13 * m2.m30,
      m1.m10 * m2.m01 + m1.m11 * m2.m11 + m1.m12 * m2.m21 + m1.m13 * m2.m31,
      m1.m10 * m2.m02 + m1.m11 * m2.m12 + m1.m12 * m2.m22 + m1.m13 * m2.m32,
      m1.m10 * m2.m03 + m1.m11 * m2.m13 + m1.m12 * m2.m23 + m1.m13 * m2.m33,
      m1.m20 * m2.m00 + m1.m21 * m2.m10 + m1.m22 * m2.m20 + m1.m23 * m2.m30,
      m1.m20 * m2.m01 + m1.m21 * m2.m11 + m1.m22 * m2.m21 + m1.m23 * m2.m31,
      m1.m20 * m2.m02 + m1.m21 * m2.m12 + m1.m22 * m2.m22 + m1.m23 * m2.m32,
      m1.m20 * m2.m03 + m1.m21 * m2.m13 + m1.m22 * m2.m23 + m1.m23 * m2.m33,
      m1.m30 * m2.m00 + m1.m31 * m2.m10 + m1.m32 * m2.m20 + m1.m33 * m2.m30,
      m1.m30 * m2.m01 + m1.m31 * m2.m11 + m1.m32 * m2.m21 + m1.m33 * m2.m31,
      m1.m30 * m2.m02 + m1.m31 * m2.m12 + m1.m32 * m2.m22 + m1.m33 * m2.m32,
      m1.m30 * m2.m03 + m1.m31 * m2.m13 + m1.m32 * m2.m23 + m1.m33 * m2.m33)
  }

  /** `operator*` on matrices, a separate copy of the sixteen sums; it agrees with
      `Multiply`. */
  function OperatorTimes(m1: Matrix4x4, m2: Matrix4x4): (r: Matrix4x4)
    ensures r == Multiply(m1, m2)
  {
    MultiplyEntry00(m1, m2); MultiplyEntry01(m1, m2); MultiplyEntry02(m1, m2); MultiplyEntry03(m1, m2);
    MultiplyEntry10(m1, m2); MultiplyEntry11(m1, m2); MultiplyEntry12(m1, m2); MultiplyEntry13(m1, m2);
    MultiplyEntry20(m1, m2); MultiplyEntry21(m1, m2); MultiplyEntry22(m1, m2); MultiplyEntry23(m1, m2);
    MultiplyEntry30(m1, m2); MultiplyEntry31(m1, m2); MultiplyEntry32(m1, m2); MultiplyEntry33(m1, m2);
    Matrix4x4(
      m1.m00 * m2.m00 + m1.m01 * m2.m10 + m1.m02 * m2.m20 + m1.m03 * m2.m30,
      m1.m00 * m2.m01 + m1.m01 * m2.m11 + m1.m02 * m2.m21 + m1.m03 * m2.m31,
      m1.m00 * m2.m02 + m1.m01 * m2.m12 + m1.m02 * m2.m22 + m1.m03 * m2.m32,
      m1.m00 * m2.m03 + m1.m01 * m2.m13 + m1.m02 * m2.m23 + m1.m03 * m2.m33,
      m1.m10 * m2.m00 + m1.m11 * m2.m10 + m1.m12 * m2.m20 + m1.m13 * m2.m30,
      m1.m10 * m2.m01 + m1.m11 * m2.m11 + m1.m12 * m2.m21 + m1.m13 * m2.m31,
      m1.m10 * m2.m02 + m1.m11 * m2.m12 + m1.m12 * m2.m22 + m1.m13 * m2.m32,
      m1.m10 * m2.m03 + m1.m11 * m2.m13 + m1.m12 * m2.m23 + m1.m13 * m2.m33,
      m1.m20 * m2.m00 + m1.m21 * m2.m10 + m1.m22 * m2.m20 + m1.m23 * m2.m30,
      m1.m20 * m2.m01 + m1.m21 * m2.m11 + m1.m22 * m2.m21 + m1.m23 * m2.m31,
      m1.m20 * m2.m02 + m1.m21 * m2.m12 + m1.m22 * m2.m22 + m1.m23 * m2.m32,
      m1.m20 * m2.m03 + m1.m21 * m2.m13 + m1.m22 * m2.m23 + m1.m23 * m2.m33,
      m1.m30 * m2.m00 + m1.m31 * m2.m10 + m1.m32 * m2.m20 + m1.m33 * m2.m30,
      m1.m30 * m2.m01 + m1.m31 * m2.m11 + m1.m32 * m2.m21 + m1.m33 * m2.m31,
      m1.m30 * m2.m02 + m1.m31 * m2.m12 + m1.m32 * m2.m22 + m1.m33 * m2.m32,
      m1.m30 * m2.m03 + m1.m31 * m2.m13 + m1.m32 * m2.m23 + m1.m33 * m2.m33)
  }

  /** Entry (i, j) of the product, written out; one lemma per entry keeps each proof
      small. */
  lemma MultiplyEntry00(a: Matrix4x4, b: Matrix4x4)
    ensures Multiply(a, b).m00 == a.m00 * b.m00 + a.m01 * b.m10 + a.m02 * b.m20 + a.m03 * b.m30
  {
  }

  lemma MultiplyEntry01(a: Matrix4x4, b: Matrix4x4)
    ensures Multiply(a, b).m01 == a.m00 * b.m01 + a.m01 * b.m11 + a.m02 * b.m21 + a.m03 * b.m31
  {
  }

  lemma MultiplyEntry02(a: Matrix4x4, b: Matrix4x4)
    ensures Multiply(a, b).m02 == a.m00 * b.m02 + a.m01 * b.m12 + a.m02 * b.m22 + a.m03 * b.m32
  {
  }

  lemma MultiplyEntry03(a: Matrix4x4, b: Matrix4x4)
    ensures Multiply(a, b).m03 == a.m00 * b.m03 + a.m01 * b.m13 + a.m02 * b.m23 + a.m03 * b.m33
  {
  }

  lemma MultiplyEntry10(a: Matrix4x4, b: Matrix4x4)
    ensures Multiply(a, b).m10 == a.m10 * b.m00 + a.m11 * b.m10 + a.m12 * b.m20 + a.m13 * b.m30
  {
  }

  lemma MultiplyEntry11(a: Matrix4x4, b: Matrix4x4)
    ensures Multiply(a, b).m11 == a.m10 * b.m01 + a.m11 * b.m11 + a.m12 * b.m21 + a.m13 * b.m31
  {
  }

  lemma MultiplyEntry12(a: Matrix4x4, b: Matrix4x4)
    ensures Multiply(a, b).m12 == a.m10 * b.m02 + a.m11 * b.m12 + a.m12 * b.m22 + a.m13 * b.m32
  {
  }

  lemma MultiplyEntry13(a: Matrix4x4, b: Matrix4x4)
    ensures Multiply(a, b).m13 == a.m10 * b.m03 + a.m11 * b.m13 + a.m12 * b.m23 + a.m13 * b.m33
  {
  }

  lemma MultiplyEntry20(a: Matrix4x4, b: Matrix4x4)
    ensures Multiply(a, b).m20 == a.m20 * b.m00 + a.m21 * b.m10 + a.m22 * b.m20 + a.m23 * b.m30
  {
  }

  lemma MultiplyEntry21(a: Matrix4x4, b: Matrix4x4)
    ensures Multiply(a, b).m21 == a.m20 * b.m01 + a.m21 * b.m11 + a.m22 * b.m21 + a.m23 * b.m31
  {
  }

  lemma MultiplyEntry22(a: Matrix4x4, b: Matrix4x4)
    ensures Multiply(a, b).m22 == a.m20 * b.m02 + a.m21 * b.m12 + a.m22 * b.m22 + a.m23 * b.m32
  {
  }

  lemma MultiplyEntry23(a: Matrix4x4, b: Matrix4x4)
    ensures Multiply(a, b).m23 == a.m20 * b.m03 + a.m21 * b.m13 + a.m22 * b.m23 + a.m23 * b.m33
  {
  }

  lemma MultiplyEntry30(a: Matrix4x4, b: Matrix4x4)
    ensures Multiply(a, b).m30 == a.m30 * b.m00 + a.m31 * b.m10 + a.m32 * b.m20 + a.m33 * b.m30
  {
  }

  lemma MultiplyEntry31(a: Matrix4x4, b: Matrix4x4)
    ensures Multiply(a, b).m31 == a.m30 * b.m01 + a.m31 * b.m11 + a.m32 * b.m21 + a.m33 * b.m31
  {
  }

  lemma MultiplyEntry32(a: Matrix4x4, b: Matrix4x4)
    ensures Multiply(a, b).m32 == a.m30 * b.m02 + a.m31 * b.m12 + a.m32 * b.m22 + a.m33 * b.m32
  {
  }

  lemma MultiplyEntry33(a: Matrix4x4, b: Matrix4x4)
    ensures Multiply(a, b).m33 == a.m30 * b.m03 + a.m31 * b.m13 + a.m32 * b.m23 + a.m33 * b.m33
  {
  }

  /** Transpose: row `i`, column `j` of the result is row `j`, column `i` of `m`. */
  function Transpose(m: Matrix4x4): (r: Matrix4x4)
    ensures forall i: nat, j: nat | i < 4 && j < 4 :: r.At(i, j) == m.At(j, i)
  {
    Matrix4x4(
    m.m00, m.m10, m.m20, m.m30,
    m.m01, m.m11, m.m21, m.m31,
    m.m02, m.m12, m.m22, m.m32,
    m.m03, m.m13, m.m23, m.m33)
  }

  /** The identity: ones on the diagonal, zeros elsewhere. */
  function MakeIdentity4x4(): (r: Matrix4x4)
    ensures forall i: nat, j: nat | i < 4 && j < 4 :: r.At(i, j) == if i == j then 1.0 else 0.0
  {
    Matrix4x4(
    1.0, 0.0, 0.0, 0.0,
    0.0, 1.0, 0.0, 0.0,
    0.0, 0.0, 1.0, 0.0,
    0.0, 0.0, 0.0, 1.0)
  }

  /** Every entry of the hand-unrolled product is the row-by-column sum over `k < 4`,
      so none of the sixteen sums in the library uses a wrong index. */
  lemma MultiplyIsRowTimesColumn(a: Matrix4x4, b: Matrix4x4)
    ensures forall i: nat, j: nat | i < 4 && j < 4 ::
      Multiply(a, b).At(i, j) == RowTimesColumn(a, b, i, j, 4)
  {
    MultiplyRow0(a, b);
    MultiplyRow1(a, b);
    MultiplyRow2(a, b);
    MultiplyRow3(a, b);
    forall i: nat, j: nat | i < 4 && j < 4
      ensures Multiply(a, b).At(i, j) == RowTimesColumn(a, b, i, j, 4)
    {
      assert i == 0 || i == 1 || i == 2 || i == 3;
      assert j == 0 || j == 1 || j == 2 || j == 3;
    }
  }

  /** The recursive sum over four terms, unfolded. */
  lemma RowTimesColumnFour(a: Matrix4x4, b: Matrix4x4, i: nat, j: nat)
    requires i < 4 && j < 4
    ensures RowTimesColumn(a, b, i, j, 4)
         == Term(a, b, i, 0, j) + Term(a, b, i, 1, j) + Term(a, b, i, 2, j) + Term(a, b, i, 3, j)
  {
    calc {
      RowTimesColumn(a, b, i, j, 4);
      RowTimesColumn(a, b, i, j, 3) + Term(a, b, i, 3, j);
      RowTimesColumn(a, b, i, j, 2) + Term(a, b, i, 2, j) + Term(a, b, i, 3, j);
      RowTimesColumn(a, b, i, j, 1) + Term(a, b, i, 1, j) + Term(a, b, i, 2, j) + Term(a, b, i, 3, j);
      RowTimesColumn(a, b, i, j, 0) + Term(a, b, i, 0, j) + Term(a, b, i, 1, j) + Term(a, b, i, 2, j) + Term(a, b, i, 3, j);
    }
  }

  /** Row 0 of the unrolled product agrees with the row-by-column sums. */
  lemma MultiplyRow0(a: Matrix4x4, b: Matrix4x4)
    ensures Multiply(a, b).At(0, 0) == RowTimesColumn(a, b, 0, 0, 4)
    ensures Multiply(a, b).At(0, 1) == RowTimesColumn(a, b, 0, 1, 4)
    ensures Multiply(a, b).At(0, 2) == RowTimesColumn(a, b, 0, 2, 4)
    ensures Multiply(a, b).At(0, 3) == RowTimesColumn(a, b, 0, 3, 4)
  {
    RowTimesColumnFour(a, b, 0, 0);
    RowTimesColumnFour(a, b, 0, 1);
    RowTimesColumnFour(a, b, 0, 2);
    RowTimesColumnFour(a, b, 0, 3);
  }

  /** Row 1 of the unrolled product agrees with the row-by-column sums. */
  lemma MultiplyRow1(a: Matrix4x4, b: Matrix4x4)
    ensures Multiply(a, b).At(1, 0) == RowTimesColumn(a, b, 1, 0, 4)
    ensures Multiply(a, b).At(1, 1) == RowTimesColumn(a, b, 1, 1, 4)
    ensures Multiply(a, b).At(1, 2) == RowTimesColumn(a, b, 1, 2, 4)
    ensures Multiply(a, b).At(1, 3) == RowTimesColumn(a, b, 1, 3, 4)
  {
    RowTimesColumnFour(a, b, 1, 0);
    RowTimesColumnFour(a, b, 1, 1);
    RowTimesColumnFour(a, b, 1, 2);
    RowTimesColumnFour(a, b, 1, 3);
  }

  /** Row 2 of the unrolled product agrees with the row-by-column sums. */
  lemma MultiplyRow2(a: Matrix4x4, b: Matrix4x4)
    ensures Multiply(a, b).At(2, 0) == RowTimesColumn(a, b, 2, 0, 4)
    ensures Multiply(a, b).At(2, 1) == RowTimesColumn(a, b, 2, 1, 4)
    ensures Multiply(a, b).At(2, 2) == RowTimesColumn(a, b, 2, 2, 4)
    ensures Multiply(a, b).At(2, 3) == RowTimesColumn(a, b, 2, 3, 4)
  {
    RowTimesColumnFour(a, b, 2, 0);
    RowTimesColumnFour(a, b, 2, 1);
    RowTimesColumnFour(a, b, 2, 2);
    RowTimesColumnFour(a, b, 2, 3);
  }

  /** Row 3 of the unrolled product agrees with the row-by-column sums. */
  lemma MultiplyRow3(a: Matrix4x4, b: Matrix4x4)
    ensures Multiply(a, b).At(3, 0) == RowTimesColumn(a, b, 3, 0, 4)
    ensures Multiply(a, b).At(3, 1) == RowTimesColumn(a, b, 3, 1, 4)
    ensures Multiply(a, b).At(3, 2) == RowTimesColumn(a, b, 3, 2, 4)
    ensures Multiply(a, b).At(3, 3) == RowTimesColumn(a, b, 3, 3, 4)
  {
    RowTimesColumnFour(a, b, 3, 0);
    RowTimesColumnFour(a, b, 3, 1);
    RowTimesColumnFour(a, b, 3, 2);
    RowTimesColumnFour(a, b, 3, 3);
  }

  /** The identity is a right unit of the product. */
  lemma MultiplyIdentityRight(m: Matrix4x4)
    ensures Multiply(m, MakeIdentity4x4()) == m
  {
  }

  /** The identity is a left unit of the product. */
  lemma MultiplyIdentityLeft(m: Matrix4x4)
    ensures Multiply(MakeIdentity4x4(), m) == m
  {
  }

  /** Transposing twice gives back the matrix. */
  lemma TransposeInvolution(m: Matrix4x4)
    ensures Transpose(Transpose(m)) == m
  {
  }

  /** The identity is symmetric. */
  lemma TransposeIdentity()
    ensures Transpose(MakeIdentity4x4()) == MakeIdentity4x4()
  {
  }
}
