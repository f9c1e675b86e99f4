/**
 * The cofactor identities behind the library's 4x4 inverse, over plain reals.
 *
 * `Det` is the 24-term determinant and `Adj00` .. `Adj33` the sixteen 6-term
 * cofactor numerators, each exactly as the library writes them, as functions of
 * the sixteen entries `mij` (row i, column j). With `c0..c3` one column (or
 * row) of the adjugate, each lemma states one entry of `m * adj(m)` or
 * `adj(m) * m`: on the diagonal the sum is a Laplace expansion of
 * the determinant; off the diagonal it is the expansion of a matrix with a
 * repeated row or column, which vanishes.
 */
module CofactorExpansion {

  /** The determinant as the library expands it: 24 products of four entries. */
  function Det(
      m00: real, m01: real, m02: real, m03: real,
      m10: real, m11: real, m12: real, m13: real,
      m20: real, m21: real, m22: real, m23: real,
      m30: real, m31: real, m32: real, m33: real): real
  {
    m00 * m11 * m22 * m33 + m00 * m12 * m23 * m31 + m00 * m13 * m21 * m32 - m00 * m13 * m22 * m31
    - m00 * m12 * m21 * m33 - m00 * m11 * m23 * m32 - m01 * m10 * m22 * m33 - m02 * m10 * m23 * m31
    - m03 * m10 * m21 * m32 + m03 * m10 * m22 * m31 + m02 * m10 * m21 * m33 + m01 * m10 * m23 * m32
    + m01 * m12 * m20 * m33 + m02 * m13 * m20 * m31 + m03 * m11 * m20 * m32 - m03 * m12 * m20 * m31
    - m02 * m11 * m20 * m33 - m01 * m13 * m20 * m32 - m01 * m12 * m23 * m30 - m02 * m13 * m21 * m30
    - m03 * m11 * m22 * m30 + m03 * m12 * m21 * m30 + m02 * m11 * m23 * m30 + m01 * m13 * m22 * m30
  }

  /** Numerator of entry (0, 0) of the inverse: the signed minor of entry (0, 0). */
  function Adj00(
      m00: real, m01: real, m02: real, m03: real,
      m10: real, m11: real, m12: real, m13: real,
      m20: real, m21: real, m22: real, m23: real,
      m30: real, m31: real, m32: real, m33: real): real
  {
    m11 * m22 * m33 + m12 * m23 * m31 + m13 * m21 * m32 - m13 * m22 * m31 - m12 * m21 * m33
    - m11 * m23 * m32
  }

  /** Numerator of entry (0, 1) of the inverse: the signed minor of entry (1, 0). */
  function Adj01(
      m00: real, m01: real, m02: real, m03: real,
      m10: real, m11: real, m12: real, m13: real,
      m20: real, m21: real, m22: real, m23: real,
      m30: real, m31: real, m32: real, m33: real): real
  {
    -m01 * m22 * m33 - m02 * m23 * m31 - m03 * m21 * m32 + m03 * m22 * m31 + m02 * m21 * m33
    + m01 * m23 * m32
  }

  /** Numerator of entry (0, 2) of the inverse: the signed minor of entry (2, 0). */
  function Adj02(
      m00: real, m01: real, m02: real, m03: real,
      m10: real, m11: real, m12: real, m13: real,
      m20: real, m21: real, m22: real, m23: real,
      m30: real, m31: real, m32: real, m33: real): real
  {
    m01 * m12 * m33 + m02 * m13 * m31 + m03 * m11 * m32 - m03 * m12 * m31 - m02 * m11 * m33
    - m01 * m13 * m32
  }

  /** Numerator of entry (0, 3) of the inverse: the signed minor of entry (3, 0). */
  function Adj03(
      m00: real, m01: real, m02: real, m03: real,
      m10: real, m11: real, m12: real, m13: real,
      m20: real, m21: real, m22: real, m23: real,
      m30: real, m31: real, m32: real, m33: real): real
  {
    -m01 * m12 * m23 - m02 * m13 * m21 - m03 * m11 * m22 + m03 * m12 * m21 + m02 * m11 * m23
    + m01 * m13 * m22
  }

  /** Numerator of entry (1, 0) of the inverse: the signed minor of entry (0, 1). */
  function Adj10(
      m00: real, m01: real, m02: real, m03: real,
      m10: real, m11: real, m12: real, m13: real,
      m20: real, m21: real, m22: real, m23: real,
      m30: real, m31: real, m32: real, m33: real): real
  {
    -m10 * m22 * m33 - m12 * m23 * m30 - m13 * m20 * m32 + m13 * m22 * m30 + m12 * m20 * m33
    + m10 * m23 * m32
  }

  /** Numerator of entry (1, 1) of the inverse: the signed minor of entry (1, 1). */
  function Adj11(
      m00: real, m01: real, m02: real, m03: real,
      m10: real, m11: real, m12: real, m13: real,
      m20: real, m21: real, m22: real, m23: real,
      m30: real, m31: real, m32: real, m33: real): real
  {
    m00 * m22 * m33 + m02 * m23 * m30 + m03 * m20 * m32 - m03 * m22 * m30 - m02 * m20 * m33
    - m00 * m23 * m32
  }

  /** Numerator of entry (1, 2) of the inverse: the signed minor of entry (2, 1). */
  function Adj12(
      m00: real, m01: real, m02: real, m03: real,
      m10: real, m11: real, m12: real, m13: real,
      m20: real, m21: real, m22: real, m23: real,
      m30: real, m31: real, m32: real, m33: real): real
  {
    -m00 * m12 * m33 - m02 * m13 * m30 - m03 * m10 * m32 + m03 * m12 * m30 + m02 * m10 * m33
    + m00 * m13 * m32
  }

  /** Numerator of entry (1, 3) of the inverse: the signed minor of entry (3, 1). */
  function Adj13(
      m00: real, m01: real, m02: real, m03: real,
      m10: real, m11: real, m12: real, m13: real,
      m20: real, m21: real, m22: real, m23: real,
      m30: real, m31: real, m32: real, m33: real): real
  {
    m00 * m12 * m23 + m02 * m13 * m20 + m03 * m10 * m22 - m03 * m12 * m20 - m02 * m10 * m23
    - m00 * m13 * m22
  }

  /** Numerator of entry (2, 0) of the inverse: the signed minor of entry (0, 2). */
  function Adj20(
      m00: real, m01: real, m02: real, m03: real,
      m10: real, m11: real, m12: real, m13: real,
      m20: real, m21: real, m22: real, m23: real,
      m30: real, m31: real, m32: real, m33: real): real
  {
    m10 * m21 * m33 + m11 * m23 * m30 + m13 * m20 * m31 - m13 * m21 * m30 - m11 * m20 * m33
    - m10 * m23 * m31
  }

  /** Numerator of entry (2, 1) of the inverse: the signed minor of entry (1, 2). */
  function Adj21(
      m00: real, m01: real, m02: real, m03: real,
      m10: real, m11: real, m12: real, m13: real,
      m20: real, m21: real, m22: real, m23: real,
      m30: real, m31: real, m32: real, m33: real): real
  {
    -m00 * m21 * m33 - m01 * m23 * m30 - m03 * m20 * m31 + m03 * m21 * m30 + m01 * m20 * m33
    + m00 * m23 * m31
  }

  /** Numerator of entry (2, 2) of the inverse: the signed minor of entry (2, 2). */
  function Adj22(
      m00: real, m01: real, m02: real, m03: real,
      m10: real, m11: real, m12: real, m13: real,
      m20: real, m21: real, m22: real, m23: real,
      m30: real, m31: real, m32: real, m33: real): real
  {
    m00 * m11 * m33 + m01 * m13 * m30 + m03 * m10 * m31 - m03 * m11 * m30 - m01 * m10 * m33
    - m00 * m13 * m31
  }

  /** Numerator of entry (2, 3) of the inverse: the signed minor of entry (3, 2). */
  function Adj23(
      m00: real, m01: real, m02: real, m03: real,
      m10: real, m11: real, m12: real, m13: real,
      m20: real, m21: real, m22: real, m23: real,
      m30: real, m31: real, m32: real, m33: real): real
  {
    -m00 * m11 * m23 - m01 * m13 * m20 - m03 * m10 * m21 + m03 * m11 * m20 + m01 * m10 * m23
    + m00 * m13 * m21
  }

  /** Numerator of entry (3, 0) of the inverse: the signed minor of entry (0, 3). */
  function Adj30(
      m00: real, m01: real, m02: real, m03: real,
      m10: real, m11: real, m12: real, m13: real,
      m20: real, m21: real, m22: real, m23: real,
      m30: real, m31: real, m32: real, m33: real): real
  {
    -m10 * m21 * m32 - m11 * m22 * m30 - m12 * m20 * m31 + m12 * m21 * m30 + m11 * m20 * m32
    + m10 * m22 * m31
  }

  /** Numerator of entry (3, 1) of the inverse: the signed minor of entry (1, 3). */
  function Adj31(
      m00: real, m01: real, m02: real, m03: real,
      m10: real, m11: real, m12: real, m13: real,
      m20: real, m21: real, m22: real, m23: real,
      m30: real, m31: real, m32: real, m33: real): real
  {
    m00 * m21 * m32 + m01 * m22 * m30 + m02 * m20 * m31 - m02 * m21 * m30 - m01 * m20 * m32
    - m00 * m22 * m31
  }

  /** Numerator of entry (3, 2) of the inverse: the signed minor of entry (2, 3). */
  function Adj32(
      m00: real, m01: real, m02: real, m03: real,
      m10: real, m11: real, m12: real, m13: real,
      m20: real, m21: real, m22: real, m23: real,
      m30: real, m31: real, m32: real, m33: real): real
  {
    -m00 * m11 * m32 - m01 * m12 * m30 - m02 * m10 * m31 + m02 * m11 * m30 + m01 * m10 * m32
    + m00 * m12 * m31
  }

  /** Numerator of entry (3, 3) of the inverse: the signed minor of entry (3, 3). */
  function Adj33(
      m00: real, m01: real, m02: real, m03: real,
      m10: real, m11: real, m12: real, m13: real,
      m20: real, m21: real, m22: real, m23: real,
      m30: real, m31: real, m32: real, m33: real): real
  {
    m00 * m11 * m22 + m01 * m12 * m20 + m02 * m10 * m21 - m02 * m11 * m20 - m01 * m10 * m22
    - m00 * m12 * m21
  }

  /** Entry (0, 0): row 0 of `m` times column 0 of the adjugate is the determinant (expansion along row 0). */
  lemma RowTimesAdjugateColumn00(
      m00: real, m01: real, m02: real, m03: real,
      m10: real, m11: real, m12: real, m13: real,
      m20: real, m21: real, m22: real, m23: real,
      m30: real, m31: real, m32: real, m33: real,
      c0: real, c1: real, c2: real, c3: real)
    requires c0 == Adj00(m00, m01, m02, m03, m10, m11, m12, m13, m20, m21, m22, m23, m30, m31, m32, m33)
    requires c1 == Adj10(m00, m01, m02, m03, m10, m11, m12, m13, m20, m21, m22, m23, m30, m31, m32, m33)
    requires c2 == Adj20(m00, m01, m02, m03, m10, m11, m12, m13, m20, m21, m22, m23, m30, m31, m32, m33)
    requires c3 == Adj30(m00, m01, m02, m03, m10, m11, m12, m13, m20, m21, m22, m23, m30, m31, m32, m33)
    ensures m00 * c0 + m01 * c1 + m02 * c2 + m03 * c3 == Det(m00, m01, m02, m03, m10, m11, m12, m13, m20, m21, m22, m23, m30, m31, m32, m33)
  {
  }

  /** Entry (0, 1): row 0 of `m` times column 1 of the adjugate is zero (the expansion of a matrix whose rows 0 and 1 coincide). */
  lemma RowTimesAdjugateColumn01(
      m00: real, m01: real, m02: real, m03: real,
      m10: real, m11: real, m12: real, m13: real,
      m20: real, m21: real, m22: real, m23: real,
      m30: real, m31: real, m32: real, m33: real,
      c0: real, c1: real, c2: real, c3: real)
    requires c0 == Adj01(m00, m01, m02, m03, m10, m11, m12, m13, m20, m21, m22, m23, m30, m31, m32, m33)
    requires c1 == Adj11(m00, m01, m02, m03, m10, m11, m12, m13, m20, m21, m22, m23, m30, m31, m32, m33)
    requires c2 == Adj21(m00, m01, m02, m03, m10, m11, m12, m13, m20, m21, m22, m23, m30, m31, m32, m33)
    requires c3 == Adj31(m00, m01, m02, m03, m10, m11, m12, m13, m20, m21, m22, m23, m30, m31, m32, m33)
    ensures m00 * c0 + m01 * c1 + m02 * c2 + m03 * c3 == 0.0
  {
  }

  /** Entry (0, 2): row 0 of `m` times column 2 of the adjugate is zero (the expansion of a matrix whose rows 0 and 2 coincide). */
  lemma RowTimesAdjugateColumn02(
      m00: real, m01: real, m02: real, m03: real,
      m10: real, m11: real, m12: real, m13: real,
      m20: real, m21: real, m22: real, m23: real,
      m30: real, m31: real, m32: real, m33: real,
      c0: real, c1: real, c2: real, c3: real)
    requires c0 == Adj02(m00, m01, m02, m03, m10, m11, m12, m13, m20, m21, m22, m23, m30, m31, m32, m33)
    requires c1 == Adj12(m00, m01, m02, m03, m10, m11, m12, m13, m20, m21, m22, m23, m30, m31, m32, m33)
    requires c2 == Adj22(m00, m01, m02, m03, m10, m11, m12, m13, m20, m21, m22, m23, m30, m31, m32, m33)
    requires c3 == Adj32(m00, m01, m02, m03, m10, m11, m12, m13, m20, m21, m22, m23, m30, m31, m32, m33)
    ensures m00 * c0 + m01 * c1 + m02 * c2 + m03 * c3 == 0.0
  {
  }

  /** Entry (0, 3): row 0 of `m` times column 3 of the adjugate is zero (the expansion of a matrix whose rows 0 and 3 coincide). */
  lemma RowTimesAdjugateColumn03(
      m00: real, m01: real, m02: real, m03: real,
      m10: real, m11: real, m12: real, m13: real,
      m20: real, m21: real, m22: real, m23: real,
      m30: real, m31: real, m32: real, m33: real,
      c0: real, c1: real, c2: real, c3: real)
    requires c0 == Adj03(m00, m01, m02, m03, m10, m11, m12, m13, m20, m21, m22, m23, m30, m31, m32, m33)
    requires c1 == Adj13(m00, m01, m02, m03, m10, m11, m12, m13, m20, m21, m22, m23, m30, m31, m32, m33)
    requires c2 == Adj23(m00, m01, m02, m03, m10, m11, m12, m13, m20, m21, m22, m23, m30, m31, m32, m33)
    requires c3 == Adj33(m00, m01, m02, m03, m10, m11, m12, m13, m20, m21, m22, m23, m30, m31, m32, m33)
    ensures m00 * c0 + m01 * c1 + m02 * c2 + m03 * c3 == 0.0
  {
  }

  /** Entry (1, 0): row 1 of `m` times column 0 of the adjugate is zero (the expansion of a matrix whose rows 1 and 0 coincide). */
  lemma RowTimesAdjugateColumn10(
      m00: real, m01: real, m02: real, m03: real,
      m10: real, m11: real, m12: real, m13: real,
      m20: real, m21: real, m22: real, m23: real,
      m30: real, m31: real, m32: real, m33: real,
      c0: real, c1: real, c2: real, c3: real)
    requires c0 == Adj00(m00, m01, m02, m03, m10, m11, m12, m13, m20, m21, m22, m23, m30, m31, m32, m33)
    requires c1 == Adj10(m00, m01, m02, m03, m10, m11, m12, m13, m20, m21, m22, m23, m30, m31, m32, m33)
    requires c2 == Adj20(m00, m01, m02, m03, m10, m11, m12, m13, m20, m21, m22, m23, m30, m31, m32, m33)
    requires c3 == Adj30(m00, m01, m02, m03, m10, m11, m12, m13, m20, m21, m22, m23, m30, m31, m32, m33)
    ensures m10 * c0 + m11 * c1 + m12 * c2 + m13 * c3 == 0.0
  {
  }

  /** Entry (1, 1): row 1 of `m` times column 1 of the adjugate is the determinant (expansion along row 1). */
  lemma RowTimesAdjugateColumn11(
      m00: real, m01: real, m02: real, m03: real,
      m10: real, m11: real, m12: real, m13: real,
      m20: real, m21: real, m22: real, m23: real,
      m30: real, m31: real, m32: real, m33: real,
      c0: real, c1: real, c2: real, c3: real)
    requires c0 == Adj01(m00, m01, m02, m03, m10, m11, m12, m13, m20, m21, m22, m23, m30, m31, m32, m33)
    requires c1 == Adj11(m00, m01, m02, m03, m10, m11, m12, m13, m20, m21, m22, m23, m30, m31, m32, m33)
    requires c2 == Adj21(m00, m01, m02, m03, m10, m11, m12, m13, m20, m21, m22, m23, m30, m31, m32, m33)
    requires c3 == Adj31(m00, m01, m02, m03, m10, m11, m12, m13, m20, m21, m22, m23, m30, m31, m32, m33)
    ensures m10 * c0 + m11 * c1 + m12 * c2 + m13 * c3 == Det(m00, m01, m02, m03, m10, m11, m12, m13, m20, m21, m22, m23, m30, m31, m32, m33)
  {
  }

  /** Entry (1, 2): row 1 of `m` times column 2 of the adjugate is zero (the expansion of a matrix whose rows 1 and 2 coincide). */
  lemma RowTimesAdjugateColumn12(
      m00: real, m01: real, m02: real, m03: real,
      m10: real, m11: real, m12: real, m13: real,
      m20: real, m21: real, m22: real, m23: real,
      m30: real, m31: real, m32: real, m33: real,
      c0: real, c1: real, c2: real, c3: real)
    requires c0 == Adj02(m00, m01, m02, m03, m10, m11, m12, m13, m20, m21, m22, m23, m30, m31, m32, m33)
    requires c1 == Adj12(m00, m01, m02, m03, m10, m11, m12, m13, m20, m21, m22, m23, m30, m31, m32, m33)
    requires c2 == Adj22(m00, m01, m02, m03, m10, m11, m12, m13, m20, m21, m22, m23, m30, m31, m32, m33)
    requires c3 == Adj32(m00, m01, m02, m03, m10, m11, m12, m13, m20, m21, m22, m23, m30, m31, m32, m33)
    ensures m10 * c0 + m11 * c1 + m12 * c2 + m13 * c3 == 0.0
  {
  }

  /** Entry (1, 3): row 1 of `m` times column 3 of the adjugate is zero (the expansion of a matrix whose rows 1 and 3 coincide). */
  lemma RowTimesAdjugateColumn13(
      m00: real, m01: real, m02: real, m03: real,
      m10: real, m11: real, m12: real, m13: real,
      m20: real, m21: real, m22: real, m23: real,
      m30: real, m31: real, m32: real, m33: real,
      c0: real, c1: real, c2: real, c3: real)
    requires c0 == Adj03(m00, m01, m02, m03, m10, m11, m12, m13, m20, m21, m22, m23, m30, m31, m32, m33)
    requires c1 == Adj13(m00, m01, m02, m03, m10, m11, m12, m13, m20, m21, m22, m23, m30, m31, m32, m33)
    requires c2 == Adj23(m00, m01, m02, m03, m10, m11, m12, m13, m20, m21, m22, m23, m30, m31, m32, m33)
    requires c3 == Adj33(m00, m01, m02, m03, m10, m11, m12, m13, m20, m21, m22, m23, m30, m31, m32, m33)
    ensures m10 * c0 + m11 * c1 + m12 * c2 + m13 * c3 == 0.0
  {
  }

  /** Entry (2, 0): row 2 of `m` times column 0 of the adjugate is zero (the expansion of a matrix whose rows 2 and 0 coincide). */
  lemma RowTimesAdjugateColumn20(
      m00: real, m01: real, m02: real, m03: real,
      m10: real, m11: real, m12: real, m13: real,
      m20: real, m21: real, m22: real, m23: real,
      m30: real, m31: real, m32: real, m33: real,
      c0: real, c1: real, c2: real, c3: real)
    requires c0 == Adj00(m00, m01, m02, m03, m10, m11, m12, m13, m20, m21, m22, m23, m30, m31, m32, m33)
    requires c1 == Adj10(m00, m01, m02, m03, m10, m11, m12, m13, m20, m21, m22, m23, m30, m31, m32, m33)
    requires c2 == Adj20(m00, m01, m02, m03, m10, m11, m12, m13, m20, m21, m22, m23, m30, m31, m32, m33)
    requires c3 == Adj30(m00, m01, m02, m03, m10, m11, m12, m13, m20, m21, m22, m23, m30, m31, m32, m33)
    ensures m20 * c0 + m21 * c1 + m22 * c2 + m23 * c3 == 0.0
  {
  }

  /** Entry (2, 1): row 2 of `m` times column 1 of the adjugate is zero (the expansion of a matrix whose rows 2 and 1 coincide). */
  lemma RowTimesAdjugateColumn21(
      m00: real, m01: real, m02: real, m03: real,
      m10: real, m11: real, m12: real, m13: real,
      m20: real, m21: real, m22: real, m23: real,
      m30: real, m31: real, m32: real, m33: real,
      c0: real, c1: real, c2: real, c3: real)
    requires c0 == Adj01(m00, m01, m02, m03, m10, m11, m12, m13, m20, m21, m22, m23, m30, m31, m32, m33)
    requires c1 == Adj11(m00, m01, m02, m03, m10, m11, m12, m13, m20, m21, m22, m23, m30, m31, m32, m33)
    requires c2 == Adj21(m00, m01, m02, m03, m10, m11, m12, m13, m20, m21, m22, m23, m30, m31, m32, m33)
    requires c3 == Adj31(m00, m01, m02, m03, m10, m11, m12, m13, m20, m21, m22, m23, m30, m31, m32, m33)
    ensures m20 * c0 + m21 * c1 + m22 * c2 + m23 * c3 == 0.0
  {
  }

  /** Entry (2, 2): row 2 of `m` times column 2 of the adjugate is the determinant (expansion along row 2). */
  lemma RowTimesAdjugateColumn22(
      m00: real, m01: real, m02: real, m03: real,
      m10: real, m11: real, m12: real, m13: real,
      m20: real, m21: real, m22: real, m23: real,
      m30: real, m31: real, m32: real, m33: real,
      c0: real, c1: real, c2: real, c3: real)
    requires c0 == Adj02(m00, m01, m02, m03, m10, m11, m12, m13, m20, m21, m22, m23, m30, m31, m32, m33)
    requires c1 == Adj12(m00, m01, m02, m03, m10, m11, m12, m13, m20, m21, m22, m23, m30, m31, m32, m33)
    requires c2 == Adj22(m00, m01, m02, m03, m10, m11, m12, m13, m20, m21, m22, m23, m30, m31, m32, m33)
    requires c3 == Adj32(m00, m01, m02, m03, m10, m11, m12, m13, m20, m21, m22, m23, m30, m31, m32, m33)
    ensures m20 * c0 + m21 * c1 + m22 * c2 + m23 * c3 == Det(m00, m01, m02, m03, m10, m11, m12, m13, m20, m21, m22, m23, m30, m31, m32, m33)
  {
  }

  /** Entry (2, 3): row 2 of `m` times column 3 of the adjugate is zero (the expansion of a matrix whose rows 2 and 3 coincide). */
  lemma RowTimesAdjugateColumn23(
      m00: real, m01: real, m02: real, m03: real,
      m10: real, m11: real, m12: real, m13: real,
      m20: real, m21: real, m22: real, m23: real,
      m30: real, m31: real, m32: real, m33: real,
      c0: real, c1: real, c2: real, c3: real)
    requires c0 == Adj03(m00, m01, m02, m03, m10, m11, m12, m13, m20, m21, m22, m23, m30, m31, m32, m33)
    requires c1 == Adj13(m00, m01, m02, m03, m10, m11, m12, m13, m20, m21, m22, m23, m30, m31, m32, m33)
    requires c2 == Adj23(m00, m01, m02, m03, m10, m11, m12, m13, m20, m21, m22, m23, m30, m31, m32, m33)
    requires c3 == Adj33(m00, m01, m02, m03, m10, m11, m12, m13, m20, m21, m22, m23, m30, m31, m32, m33)
    ensures m20 * c0 + m21 * c1 + m22 * c2 + m23 * c3 == 0.0
  {
  }

  /** Entry (3, 0): row 3 of `m` times column 0 of the adjugate is zero (the expansion of a matrix whose rows 3 and 0 coincide). */
  lemma RowTimesAdjugateColumn30(
      m00: real, m01: real, m02: real, m03: real,
      m10: real, m11: real, m12: real, m13: real,
      m20: real, m21: real, m22: real, m23: real,
      m30: real, m31: real, m32: real, m33: real,
      c0: real, c1: real, c2: real, c3: real)
    requires c0 == Adj00(m00, m01, m02, m03, m10, m11, m12, m13, m20, m21, m22, m23, m30, m31, m32, m33)
    requires c1 == Adj10(m00, m01, m02, m03, m10, m11, m12, m13, m20, m21, m22, m23, m30, m31, m32, m33)
    requires c2 == Adj20(m00, m01, m02, m03, m10, m11, m12, m13, m20, m21, m22, m23, m30, m31, m32, m33)
    requires c3 == Adj30(m00, m01, m02, m03, m10, m11, m12, m13, m20, m21, m22, m23, m30, m31, m32, m33)
    ensures m30 * c0 + m31 * c1 + m32 * c2 + m33 * c3 == 0.0
  {
  }

  /** Entry (3, 1): row 3 of `m` times column 1 of the adjugate is zero (the expansion of a matrix whose rows 3 and 1 coincide). */
  lemma RowTimesAdjugateColumn31(
      m00: real, m01: real, m02: real, m03: real,
      m10: real, m11: real, m12: real, m13: real,
      m20: real, m21: real, m22: real, m23: real,
      m30: real, m31: real, m32: real, m33: real,
      c0: real, c1: real, c2: real, c3: real)
    requires c0 == Adj01(m00, m01, m02, m03, m10, m11, m12, m13, m20, m21, m22, m23, m30, m31, m32, m33)
    requires c1 == Adj11(m00, m01, m02, m03, m10, m11, m12, m13, m20, m21, m22, m23, m30, m31, m32, m33)
    requires c2 == Adj21(m00, m01, m02, m03, m10, m11, m12, m13, m20, m21, m22, m23, m30, m31, m32, m33)
    requires c3 == Adj31(m00, m01, m02, m03, m10, m11, m12, m13, m20, m21, m22, m23, m30, m31, m32, m33)
    ensures m30 * c0 + m31 * c1 + m32 * c2 + m33 * c3 == 0.0
  {
  }

  /** Entry (3, 2): row 3 of `m` times column 2 of the adjugate is zero (the expansion of a matrix whose rows 3 and 2 coincide). */
  lemma RowTimesAdjugateColumn32(
      m00: real, m01: real, m02: real, m03: real,
      m10: real, m11: real, m12: real, m13: real,
      m20: real, m21: real, m22: real, m23: real,
      m30: real, m31: real, m32: real, m33: real,
      c0: real, c1: real, c2: real, c3: real)
    requires c0 == Adj02(m00, m01, m02, m03, m10, m11, m12, m13, m20, m21, m22, m23, m30, m31, m32, m33)
    requires c1 == Adj12(m00, m01, m02, m03, m10, m11, m12, m13, m20, m21, m22, m23, m30, m31, m32, m33)
    requires c2 == Adj22(m00, m01, m02, m03, m10, m11, m12, m13, m20, m21, m22, m23, m30, m31, m32, m33)
    requires c3 == Adj32(m00, m01, m02, m03, m10, m11, m12, m13, m20, m21, m22, m23, m30, m31, m32, m33)
    ensures m30 * c0 + m31 * c1 + m32 * c2 + m33 * c3 == 0.0
  {
  }

  /** Entry (3, 3): row 3 of `m` times column 3 of the adjugate is the determinant (expansion along row 3). */
  lemma RowTimesAdjugateColumn33(
      m00: real, m01: real, m02: real, m03: real,
      m10: real, m11: real, m12: real, m13: real,
      m20: real, m21: real, m22: real, m23: real,
      m30: real, m31: real, m32: real, m33: real,
      c0: real, c1: real, c2: real, c3: real)
    requires c0 == Adj03(m00, m01, m02, m03, m10, m11, m12, m13, m20, m21, m22, m23, m30, m31, m32, m33)
    requires c1 == Adj13(m00, m01, m02, m03, m10, m11, m12, m13, m20, m21, m22, m23, m30, m31, m32, m33)
    requires c2 == Adj23(m00, m01, m02, m03, m10, m11, m12, m13, m20, m21, m22, m23, m30, m31, m32, m33)
    requires c3 == Adj33(m00, m01, m02, m03, m10, m11, m12, m13, m20, m21, m22, m23, m30, m31, m32, m33)
    ensures m30 * c0 + m31 * c1 + m32 * c2 + m33 * c3 == Det(m00, m01, m02, m03, m10, m11, m12, m13, m20, m21, m22, m23, m30, m31, m32, m33)
  {
  }

  /** Entry (0, 0): row 0 of the adjugate times column 0 of `m` is the determinant (expansion along column 0). */
  lemma AdjugateRowTimesColumn00(
      m00: real, m01: real, m02: real, m03: real,
      m10: real, m11: real, m12: real, m13: real,
      m20: real, m21: real, m22: real, m23: real,
      m30: real, m31: real, m32: real, m33: real,
      c0: real, c1: real, c2: real, c3: real)
    requires c0 == Adj00(m00, m01, m02, m03, m10, m11, m12, m13, m20, m21, m22, m23, m30, m31, m32, m33)
    requires c1 == Adj01(m00, m01, m02, m03, m10, m11, m12, m13, m20, m21, m22, m23, m30, m31, m32, m33)
    requires c2 == Adj02(m00, m01, m02, m03, m10, m11, m12, m13, m20, m21, m22, m23, m30, m31, m32, m33)
    requires c3 == Adj03(m00, m01, m02, m03, m10, m11, m12, m13, m20, m21, m22, m23, m30, m31, m32, m33)
    ensures c0 * m00 + c1 * m10 + c2 * m20 + c3 * m30 == Det(m00, m01, m02, m03, m10, m11, m12, m13, m20, m21, m22, m23, m30, m31, m32, m33)
  {
  }

  /** Entry (0, 1): row 0 of the adjugate times column 1 of `m` is zero (the expansion of a matrix whose columns 0 and 1 coincide). */
  lemma AdjugateRowTimesColumn01(
      m00: real, m01: real, m02: real, m03: real,
      m10: real, m11: real, m12: real, m13: real,
      m20: real, m21: real, m22: real, m23: real,
      m30: real, m31: real, m32: real, m33: real,
      c0: real, c1: real, c2: real, c3: real)
    requires c0 == Adj00(m00, m01, m02, m03, m10, m11, m12, m13, m20, m21, m22, m23, m30, m31, m32, m33)
    requires c1 == Adj01(m00, m01, m02, m03, m10, m11, m12, m13, m20, m21, m22, m23, m30, m31, m32, m33)
    requires c2 == Adj02(m00, m01, m02, m03, m10, m11, m12, m13, m20, m21, m22, m23, m30, m31, m32, m33)
    requires c3 == Adj03(m00, m01, m02, m03, m10, m11, m12, m13, m20, m21, m22, m23, m30, m31, m32, m33)
    ensures c0 * m01 + c1 * m11 + c2 * m21 + c3 * m31 == 0.0
  {
  }

  /** Entry (0, 2): row 0 of the adjugate times column 2 of `m` is zero (the expansion of a matrix whose columns 0 and 2 coincide). */
  lemma AdjugateRowTimesColumn02(
      m00: real, m01: real, m02: real, m03: real,
      m10: real, m11: real, m12: real, m13: real,
      m20: real, m21: real, m22: real, m23: real,
      m30: real, m31: real, m32: real, m33: real,
      c0: real, c1: real, c2: real, c3: real)
    requires c0 == Adj00(m00, m01, m02, m03, m10, m11, m12, m13, m20, m21, m22, m23, m30, m31, m32, m33)
    requires c1 == Adj01(m00, m01, m02, m03, m10, m11, m12, m13, m20, m21, m22, m23, m30, m31, m32, m33)
    requires c2 == Adj02(m00, m01, m02, m03, m10, m11, m12, m13, m20, m21, m22, m23, m30, m31, m32, m33)
    requires c3 == Adj03(m00, m01, m02, m03, m10, m11, m12, m13, m20, m21, m22, m23, m30, m31, m32, m33)
    ensures c0 * m02 + c1 * m12 + c2 * m22 + c3 * m32 == 0.0
  {
  }

  /** Entry (0, 3): row 0 of the adjugate times column 3 of `m` is zero (the expansion of a matrix whose columns 0 and 3 coincide). */
  lemma AdjugateRowTimesColumn03(
      m00: real, m01: real, m02: real, m03: real,
      m10: real, m11: real, m12: real, m13: real,
      m20: real, m21: real, m22: real, m23: real,
      m30: real, m31: real, m32: real, m33: real,
      c0: real, c1: real, c2: real, c3: real)
    requires c0 == Adj00(m00, m01, m02, m03, m10, m11, m12, m13, m20, m21, m22, m23, m30, m31, m32, m33)
    requires c1 == Adj01(m00, m01, m02, m03, m10, m11, m12, m13, m20, m21, m22, m23, m30, m31, m32, m33)
    requires c2 == Adj02(m00, m01, m02, m03, m10, m11, m12, m13, m20, m21, m22, m23, m30, m31, m32, m33)
    requires c3 == Adj03(m00, m01, m02, m03, m10, m11, m12, m13, m20, m21, m22, m23, m30, m31, m32, m33)
    ensures c0 * m03 + c1 * m13 + c2 * m23 + c3 * m33 == 0.0
  {
  }

  /** Entry (1, 0): row 1 of the adjugate times column 0 of `m` is zero (the expansion of a matrix whose columns 1 and 0 coincide). */
  lemma AdjugateRowTimesColumn10(
      m00: real, m01: real, m02: real, m03: real,
      m10: real, m11: real, m12: real, m13: real,
      m20: real, m21: real, m22: real, m23: real,
      m30: real, m31: real, m32: real, m33: real,
      c0: real, c1: real, c2: real, c3: real)
    requires c0 == Adj10(m00, m01, m02, m03, m10, m11, m12, m13, m20, m21, m22, m23, m30, m31, m32, m33)
    requires c1 == Adj11(m00, m01, m02, m03, m10, m11, m12, m13, m20, m21, m22, m23, m30, m31, m32, m33)
    requires c2 == Adj12(m00, m01, m02, m03, m10, m11, m12, m13, m20, m21, m22, m23, m30, m31, m32, m33)
    requires c3 == Adj13(m00, m01, m02, m03, m10, m11, m12, m13, m20, m21, m22, m23, m30, m31, m32, m33)
    ensures c0 * m00 + c1 * m10 + c2 * m20 + c3 * m30 == 0.0
  {
  }

  /** Entry (1, 1): row 1 of the adjugate times column 1 of `m` is the determinant (expansion along column 1). */
  lemma AdjugateRowTimesColumn11(
      m00: real, m01: real, m02: real, m03: real,
      m10: real, m11: real, m12: real, m13: real,
      m20: real, m21: real, m22: real, m23: real,
      m30: real, m31: real, m32: real, m33: real,
      c0: real, c1: real, c2: real, c3: real)
    requires c0 == Adj10(m00, m01, m02, m03, m10, m11, m12, m13, m20, m21, m22, m23, m30, m31, m32, m33)
    requires c1 == Adj11(m00, m01, m02, m03, m10, m11, m12, m13, m20, m21, m22, m23, m30, m31, m32, m33)
    requires c2 == Adj12(m00, m01, m02, m03, m10, m11, m12, m13, m20, m21, m22, m23, m30, m31, m32, m33)
    requires c3 == Adj13(m00, m01, m02, m03, m10, m11, m12, m13, m20, m21, m22, m23, m30, m31, m32, m33)
    ensures c0 * m01 + c1 * m11 + c2 * m21 + c3 * m31 == Det(m00, m01, m02, m03, m10, m11, m12, m13, m20, m21, m22, m23, m30, m31, m32, m33)
  {
  }

  /** Entry (1, 2): row 1 of the adjugate times column 2 of `m` is zero (the expansion of a matrix whose columns 1 and 2 coincide). */
  lemma AdjugateRowTimesColumn12(
      m00: real, m01: real, m02: real, m03: real,
      m10: real, m11: real, m12: real, m13: real,
      m20: real, m21: real, m22: real, m23: real,
      m30: real, m31: real, m32: real, m33: real,
      c0: real, c1: real, c2: real, c3: real)
    requires c0 == Adj10(m00, m01, m02, m03, m10, m11, m12, m13, m20, m21, m22, m23, m30, m31, m32, m33)
    requires c1 == Adj11(m00, m01, m02, m03, m10, m11, m12, m13, m20, m21, m22, m23, m30, m31, m32, m33)
    requires c2 == Adj12(m00, m01, m02, m03, m10, m11, m12, m13, m20, m21, m22, m23, m30, m31, m32, m33)
    requires c3 == Adj13(m00, m01, m02, m03, m10, m11, m12, m13, m20, m21, m22, m23, m30, m31, m32, m33)
    ensures c0 * m02 + c1 * m12 + c2 * m22 + c3 * m32 == 0.0
  {
  }

  /** Entry (1, 3): row 1 of the adjugate times column 3 of `m` is zero (the expansion of a matrix whose columns 1 and 3 coincide). */
  lemma AdjugateRowTimesColumn13(
      m00: real, m01: real, m02: real, m03: real,
      m10: real, m11: real, m12: real, m13: real,
      m20: real, m21: real, m22: real, m23: real,
      m30: real, m31: real, m32: real, m33: real,
      c0: real, c1: real, c2: real, c3: real)
    requires c0 == Adj10(m00, m01, m02, m03, m10, m11, m12, m13, m20, m21, m22, m23, m30, m31, m32, m33)
    requires c1 == Adj11(m00, m01, m02, m03, m10, m11, m12, m13, m20, m21, m22, m23, m30, m31, m32, m33)
    requires c2 == Adj12(m00, m01, m02, m03, m10, m11, m12, m13, m20, m21, m22, m23, m30, m31, m32, m33)
    requires c3 == Adj13(m00, m01, m02, m03, m10, m11, m12, m13, m20, m21, m22, m23, m30, m31, m32, m33)
    ensures c0 * m03 + c1 * m13 + c2 * m23 + c3 * m33 == 0.0
  {
  }

  /** Entry (2, 0): row 2 of the adjugate times column 0 of `m` is zero (the expansion of a matrix whose columns 2 and 0 coincide). */
  lemma AdjugateRowTimesColumn20(
      m00: real, m01: real, m02: real, m03: real,
      m10: real, m11: real, m12: real, m13: real,
      m20: real, m21: real, m22: real, m23: real,
      m30: real, m31: real, m32: real, m33: real,
      c0: real, c1: real, c2: real, c3: real)
    requires c0 == Adj20(m00, m01, m02, m03, m10, m11, m12, m13, m20, m21, m22, m23, m30, m31, m32, m33)
    requires c1 == Adj21(m00, m01, m02, m03, m10, m11, m12, m13, m20, m21, m22, m23, m30, m31, m32, m33)
    requires c2 == Adj22(m00, m01, m02, m03, m10, m11, m12, m13, m20, m21, m22, m23, m30, m31, m32, m33)
    requires c3 == Adj23(m00, m01, m02, m03, m10, m11, m12, m13, m20, m21, m22, m23, m30, m31, m32, m33)
    ensures c0 * m00 + c1 * m10 + c2 * m20 + c3 * m30 == 0.0
  {
  }

  /** Entry (2, 1): row 2 of the adjugate times column 1 of `m` is zero (the expansion of a matrix whose columns 2 and 1 coincide). */
  lemma AdjugateRowTimesColumn21(
      m00: real, m01: real, m02: real, m03: real,
      m10: real, m11: real, m12: real, m13: real,
      m20: real, m21: real, m22: real, m23: real,
      m30: real, m31: real, m32: real, m33: real,
      c0: real, c1: real, c2: real, c3: real)
    requires c0 == Adj20(m00, m01, m02, m03, m10, m11, m12, m13, m20, m21, m22, m23, m30, m31, m32, m33)
    requires c1 == Adj21(m00, m01, m02, m03, m10, m11, m12, m13, m20, m21, m22, m23, m30, m31, m32, m33)
    requires c2 == Adj22(m00, m01, m02, m03, m10, m11, m12, m13, m20, m21, m22, m23, m30, m31, m32, m33)
    requires c3 == Adj23(m00, m01, m02, m03, m10, m11, m12, m13, m20, m21, m22, m23, m30, m31, m32, m33)
    ensures c0 * m01 + c1 * m11 + c2 * m21 + c3 * m31 == 0.0
  {
  }

  /** Entry (2, 2): row 2 of the adjugate times column 2 of `m` is the determinant (expansion along column 2). */
  lemma AdjugateRowTimesColumn22(
      m00: real, m01: real, m02: real, m03: real,
      m10: real, m11: real, m12: real, m13: real,
      m20: real, m21: real, m22: real, m23: real,
      m30: real, m31: real, m32: real, m33: real,
      c0: real, c1: real, c2: real, c3: real)
    requires c0 == Adj20(m00, m01, m02, m03, m10, m11, m12, m13, m20, m21, m22, m23, m30, m31, m32, m33)
    requires c1 == Adj21(m00, m01, m02, m03, m10, m11, m12, m13, m20, m21, m22, m23, m30, m31, m32, m33)
    requires c2 == Adj22(m00, m01, m02, m03, m10, m11, m12, m13, m20, m21, m22, m23, m30, m31, m32, m33)
    requires c3 == Adj23(m00, m01, m02, m03, m10, m11, m12, m13, m20, m21, m22, m23, m30, m31, m32, m33)
    ensures c0 * m02 + c1 * m12 + c2 * m22 + c3 * m32 == Det(m00, m01, m02, m03, m10, m11, m12, m13, m20, m21, m22, m23, m30, m31, m32, m33)
  {
  }

  /** Entry (2, 3): row 2 of the adjugate times column 3 of `m` is zero (the expansion of a matrix whose columns 2 and 3 coincide). */
  lemma AdjugateRowTimesColumn23(
      m00: real, m01: real, m02: real, m03: real,
      m10: real, m11: real, m12: real, m13: real,
      m20: real, m21: real, m22: real, m23: real,
      m30: real, m31: real, m32: real, m33: real,
      c0: real, c1: real, c2: real, c3: real)
    requires c0 == Adj20(m00, m01, m02, m03, m10, m11, m12, m13, m20, m21, m22, m23, m30, m31, m32, m33)
    requires c1 == Adj21(m00, m01, m02, m03, m10, m11, m12, m13, m20, m21, m22, m23, m30, m31, m32, m33)
    requires c2 == Adj22(m00, m01, m02, m03, m10, m11, m12, m13, m20, m21, m22, m23, m30, m31, m32, m33)
    requires c3 == Adj23(m00, m01, m02, m03, m10, m11, m12, m13, m20, m21, m22, m23, m30, m31, m32, m33)
    ensures c0 * m03 + c1 * m13 + c2 * m23 + c3 * m33 == 0.0
  {
  }

  /** Entry (3, 0): row 3 of the adjugate times column 0 of `m` is zero (the expansion of a matrix whose columns 3 and 0 coincide). */
  lemma AdjugateRowTimesColumn30(
      m00: real, m01: real, m02: real, m03: real,
      m10: real, m11: real, m12: real, m13: real,
      m20: real, m21: real, m22: real, m23: real,
      m30: real, m31: real, m32: real, m33: real,
      c0: real, c1: real, c2: real, c3: real)
    requires c0 == Adj30(m00, m01, m02, m03, m10, m11, m12, m13, m20, m21, m22, m23, m30, m31, m32, m33)
    requires c1 == Adj31(m00, m01, m02, m03, m10, m11, m12, m13, m20, m21, m22, m23, m30, m31, m32, m33)
    requires c2 == Adj32(m00, m01, m02, m03, m10, m11, m12, m13, m20, m21, m22, m23, m30, m31, m32, m33)
    requires c3 == Adj33(m00, m01, m02, m03, m10, m11, m12, m13, m20, m21, m22, m23, m30, m31, m32, m33)
    ensures c0 * m00 + c1 * m10 + c2 * m20 + c3 * m30 == 0.0
  {
  }

  /** Entry (3, 1): row 3 of the adjugate times column 1 of `m` is zero (the expansion of a matrix whose columns 3 and 1 coincide). */
  lemma AdjugateRowTimesColumn31(
      m00: real, m01: real, m02: real, m03: real,
      m10: real, m11: real, m12: real, m13: real,
      m20: real, m21: real, m22: real, m23: real,
      m30: real, m31: real, m32: real, m33: real,
      c0: real, c1: real, c2: real, c3: real)
    requires c0 == Adj30(m00, m01, m02, m03, m10, m11, m12, m13, m20, m21, m22, m23, m30, m31, m32, m33)
    requires c1 == Adj31(m00, m01, m02, m03, m10, m11, m12, m13, m20, m21, m22, m23, m30, m31, m32, m33)
    requires c2 == Adj32(m00, m01, m02, m03, m10, m11, m12, m13, m20, m21, m22, m23, m30, m31, m32, m33)
    requires c3 == Adj33(m00, m01, m02, m03, m10, m11, m12, m13, m20, m21, m22, m23, m30, m31, m32, m33)
    ensures c0 * m01 + c1 * m11 + c2 * m21 + c3 * m31 == 0.0
  {
  }

  /** Entry (3, 2): row 3 of the adjugate times column 2 of `m` is zero (the expansion of a matrix whose columns 3 and 2 coincide). */
  lemma AdjugateRowTimesColumn32(
      m00: real, m01: real, m02: real, m03: real,
      m10: real, m11: real, m12: real, m13: real,
      m20: real, m21: real, m22: real, m23: real,
      m30: real, m31: real, m32: real, m33: real,
      c0: real, c1: real, c2: real, c3: real)
    requires c0 == Adj30(m00, m01, m02, m03, m10, m11, m12, m13, m20, m21, m22, m23, m30, m31, m32, m33)
    requires c1 == Adj31(m00, m01, m02, m03, m10, m11, m12, m13, m20, m21, m22, m23, m30, m31, m32, m33)
    requires c2 == Adj32(m00, m01, m02, m03, m10, m11, m12, m13, m20, m21, m22, m23, m30, m31, m32, m33)
    requires c3 == Adj33(m00, m01, m02, m03, m10, m11, m12, m13, m20, m21, m22, m23, m30, m31, m32, m33)
    ensures c0 * m02 + c1 * m12 + c2 * m22 + c3 * m32 == 0.0
  {
  }

  /** Entry (3, 3): row 3 of the adjugate times column 3 of `m` is the determinant (expansion along column 3). */
  lemma AdjugateRowTimesColumn33(
      m00: real, m01: real, m02: real, m03: real,
      m10: real, m11: real, m12: real, m13: real,
      m20: real, m21: real, m22: real, m23: real,
      m30: real, m31: real, m32: real, m33: real,
      c0: real, c1: real, c2: real, c3: real)
    requires c0 == Adj30(m00, m01, m02, m03, m10, m11, m12, m13, m20, m21, m22, m23, m30, m31, m32, m33)
    requires c1 == Adj31(m00, m01, m02, m03, m10, m11, m12, m13, m20, m21, m22, m23, m30, m31, m32, m33)
    requires c2 == Adj32(m00, m01, m02, m03, m10, m11, m12, m13, m20, m21, m22, m23, m30, m31, m32, m33)
    requires c3 == Adj33(m00, m01, m02, m03, m10, m11, m12, m13, m20, m21, m22, m23, m30, m31, m32, m33)
    ensures c0 * m03 + c1 * m13 + c2 * m23 + c3 * m33 == Det(m00, m01, m02, m03, m10, m11, m12, m13, m20, m21, m22, m23, m30, m31, m32, m33)
  {
  }
}
