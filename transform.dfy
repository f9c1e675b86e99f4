/**
 * Points and directions through 4x4 matrices, and the library's matrix
 * constructors: translation, scale, rotation about each axis, the affine
 * scale-rotate-translate product and the viewport mapping.
 *
 * Row-vector convention: a point `p` is the row `(p.x, p.y, p.z, 1)` and its image
 * is that row times the matrix, so the translation sits in row 3 and the
 * homogeneous `w` comes from column 3. The rotation constructors take the sine and
 * cosine of the angle as parameters in place of the angle itself.
 */
module Transforms {
  import opened Vectors
  import opened Matrices

  /** The `w` coordinate of the image of point `v`: the point's row `(x, y, z, 1)`
      times column 3 of `m`. */
  function W(v: Vector3, m: Matrix4x4): real
  {
    v.x * m.m03 + v.y * m.m13 + v.z * m.m23 + 1.0 * m.m33
  }

  /** The x, y, z coordinates of the image of point `v` before the perspective divide. */
  function Homogeneous(v: Vector3, m: Matrix4x4): Vector3
  {
    Vector3(
      v.x * m.m00 + v.y * m.m10 + v.z * m.m20 + 1.0 * m.m30,
      v.x * m.m01 + v.y * m.m11 + v.z * m.m21 + 1.0 * m.m31,
      v.x * m.m02 + v.y * m.m12 + v.z * m.m22 + 1.0 * m.m32)
  }

  /** A matrix whose column 3 is `(0, 0, 0, 1)`: it maps every point to `w == 1`. */
  predicate IsAffine(m: Matrix4x4)
  {
    m.m03 == 0.0 && m.m13 == 0.0 && m.m23 == 0.0 && m.m33 == 1.0
  }

  /** Mymath.h `Transform`: the point's image with the perspective divide by `w`. The
      library asserts `w != 0`. A matrix that yields `w == 1` leaves the image
      undivided. */
  function Transform(v: Vector3, m: Matrix4x4): (r: Vector3)
    requires W(v, m) != 0.0
    ensures W(v, m) == 1.0 ==> r == Homogeneous(v, m)
  {
    var h := Homogeneous(v, m);
    var w := W(v, m);
    Vector3(h.x / w, h.y / w, h.z / w)
  }

  /** Scaling the transformed point back by `w` recovers the undivided image. */
  lemma TransformTimesW(v: Vector3, m: Matrix4x4)
    requires W(v, m) != 0.0
    ensures Transform(v, m).x * W(v, m) == Homogeneous(v, m).x
    ensures Transform(v, m).y * W(v, m) == Homogeneous(v, m).y
    ensures Transform(v, m).z * W(v, m) == Homogeneous(v, m).z
  {
    var h := Homogeneous(v, m);
    var w := W(v, m);
    QuotientTimesDivisor(h.x, w);
    QuotientTimesDivisor(h.y, w);
    QuotientTimesDivisor(h.z, w);
  }

  /** A quotient times its divisor is the dividend. */
  lemma QuotientTimesDivisor(c: real, d: real)
    requires d != 0.0
    ensures (c / d) * d == c
  {
  }

  /** `operator*(const Vector3&, const Matrix4x4&)`, written separately in the library
      with the same assert; it agrees with `Transform`. */
  function TransformOperator(v: Vector3, m: Matrix4x4): (r: Vector3)
    requires W(v, m) != 0.0
    ensures r == Transform(v, m)
  {
    var x := v.x * m.m00 + v.y * m.m10 + v.z * m.m20 + 1.0 * m.m30;
    var y := v.x * m.m01 + v.y * m.m11 + v.z * m.m21 + 1.0 * m.m31;
    var z := v.x * m.m02 + v.y * m.m12 + v.z * m.m22 + 1.0 * m.m32;
    var w := v.x * m.m03 + v.y * m.m13 + v.z * m.m23 + 1.0 * m.m33;
    Vector3(x / w, y / w, z / w)
  }

  /** Mymath.h `TransformNormal`: a direction goes through the upper-left 3x3 block
      only. */
  function TransformNormal(v: Vector3, m: Matrix4x4): Vector3
  {
    Vector3(
      v.x * m.m00 + v.y * m.m10 + v.z * m.m20,
      v.x * m.m01 + v.y * m.m11 + v.z * m.m21,
      v.x * m.m02 + v.y * m.m12 + v.z * m.m22)
  }

  /** A transformed direction is the difference between the undivided images of the
      direction and of the origin, so row 3 (the translation) has no effect on it. */
  lemma TransformNormalIsDifference(v: Vector3, m: Matrix4x4)
    ensures TransformNormal(v, m) == Vectors.Subtract(Homogeneous(v, m), Homogeneous(Zero(), m))
  {
  }

  /** `TransformNormal` is additive in the direction, for every matrix: the image of
      a sum is the sum of the images. */
  lemma TransformNormalAdditive(v1: Vector3, v2: Vector3, m: Matrix4x4)
    ensures TransformNormal(Vectors.Add(v1, v2), m)
      == Vectors.Add(TransformNormal(v1, m), TransformNormal(v2, m))
  {
    NormalOfSum(v1, v2, m);
    NormalCoordinates(v1, m);
    NormalCoordinates(v2, m);
    AdditiveCoordinate(m.m00, m.m10, m.m20, v1.x, v1.y, v1.z, v2.x, v2.y, v2.z);
    AdditiveCoordinate(m.m01, m.m11, m.m21, v1.x, v1.y, v1.z, v2.x, v2.y, v2.z);
    AdditiveCoordinate(m.m02, m.m12, m.m22, v1.x, v1.y, v1.z, v2.x, v2.y, v2.z);
  }

  /** `TransformNormal` commutes with scaling, for every matrix: the image of `k * v`
      is `k` times the image of `v`. */
  lemma TransformNormalHomogeneous(v: Vector3, k: real, m: Matrix4x4)
    ensures TransformNormal(Vectors.Multiply(k, v), m) == Vectors.Multiply(k, TransformNormal(v, m))
  {
    NormalOfMultiple(v, k, m);
    NormalCoordinates(v, m);
    HomogeneousCoordinate(m.m00, m.m10, m.m20, v.x, v.y, v.z, k);
    HomogeneousCoordinate(m.m01, m.m11, m.m21, v.x, v.y, v.z, k);
    HomogeneousCoordinate(m.m02, m.m12, m.m22, v.x, v.y, v.z, k);
  }

  /** The three coordinates of a transformed direction, one column of the 3x3 block
      each. */
  lemma NormalCoordinates(v: Vector3, m: Matrix4x4)
    ensures TransformNormal(v, m).x == v.x * m.m00 + v.y * m.m10 + v.z * m.m20
    ensures TransformNormal(v, m).y == v.x * m.m01 + v.y * m.m11 + v.z * m.m21
    ensures TransformNormal(v, m).z == v.x * m.m02 + v.y * m.m12 + v.z * m.m22
  {
  }

  /** The coordinates of the image of a sum, written over the summands' coordinates. */
  lemma NormalOfSum(v1: Vector3, v2: Vector3, m: Matrix4x4)
    ensures TransformNormal(Vectors.Add(v1, v2), m).x
      == (v1.x + v2.x) * m.m00 + (v1.y + v2.y) * m.m10 + (v1.z + v2.z) * m.m20
    ensures TransformNormal(Vectors.Add(v1, v2), m).y
      == (v1.x + v2.x) * m.m01 + (v1.y + v2.y) * m.m11 + (v1.z + v2.z) * m.m21
    ensures TransformNormal(Vectors.Add(v1, v2), m).z
      == (v1.x + v2.x) * m.m02 + (v1.y + v2.y) * m.m12 + (v1.z + v2.z) * m.m22
  {
  }

  /** The coordinates of the image of a multiple, written over the original coordinates. */
  lemma NormalOfMultiple(v: Vector3, k: real, m: Matrix4x4)
    ensures TransformNormal(Vectors.Multiply(k, v), m).x == (v.x * k) * m.m00 + (v.y * k) * m.m10 + (v.z * k) * m.m20
    ensures TransformNormal(Vectors.Multiply(k, v), m).y == (v.x * k) * m.m01 + (v.y * k) * m.m11 + (v.z * k) * m.m21
    ensures TransformNormal(Vectors.Multiply(k, v), m).z == (v.x * k) * m.m02 + (v.y * k) * m.m12 + (v.z * k) * m.m22
  {
  }

  /** One column `(a, b, c)` of the 3x3 block applied to a sum of directions. */
  lemma AdditiveCoordinate(a: real, b: real, c: real, x1: real, y1: real, z1: real, x2: real, y2: real, z2: real)
    ensures (x1 + x2) * a + (y1 + y2) * b + (z1 + z2) * c == (x1 * a + y1 * b + z1 * c) + (x2 * a + y2 * b + z2 * c)
  {
  }

  /** One column `(a, b, c)` of the 3x3 block applied to a multiple of a direction. */
  lemma HomogeneousCoordinate(a: real, b: real, c: real, x: real, y: real, z: real, k: real)
    ensures (x * k) * a + (y * k) * b + (z * k) * c == (x * a + y * b + z * c) * k
  {
  }

  /** An affine matrix gives every point `w == 1`, so `Transform` needs no divide. */
  lemma AffineW(v: Vector3, m: Matrix4x4)
    requires IsAffine(m)
    ensures W(v, m) == 1.0
    ensures Transform(v, m) == Homogeneous(v, m)
  {
  }

  /** Through an affine matrix, the direction from `p` to `p + d` is `d` transformed as a
      normal. */
  lemma AffineDifference(p: Vector3, d: Vector3, m: Matrix4x4)
    requires IsAffine(m)
    ensures Vectors.Subtract(Transform(Vectors.Add(p, d), m), Transform(p, m)) == TransformNormal(d, m)
  {
  }

  /** The identity moves no point and no direction. */
  lemma TransformIdentity(v: Vector3)
    ensures W(v, MakeIdentity4x4()) == 1.0
    ensures Transform(v, MakeIdentity4x4()) == v
    ensures TransformNormal(v, MakeIdentity4x4()) == v
  {
  }

  /** The product of two affine matrices is affine. */
  lemma AffineProduct(a: Matrix4x4, b: Matrix4x4)
    requires IsAffine(a) && IsAffine(b)
    ensures IsAffine(Matrices.Multiply(a, b))
  {
    MultiplyEntry03(a, b);
    MultiplyEntry13(a, b);
    MultiplyEntry23(a, b);
    MultiplyEntry33(a, b);
  }

  /** Transforming by `a * b` is transforming by `a` and then by `b`, for affine `a`
      and `b`: the row-vector convention composes left to right. */
  lemma TransformProduct(v: Vector3, a: Matrix4x4, b: Matrix4x4)
    requires IsAffine(a) && IsAffine(b)
    ensures IsAffine(Matrices.Multiply(a, b))
    ensures Transform(v, Matrices.Multiply(a, b)) == Transform(Transform(v, a), b)
  {
    AffineProduct(a, b);
    var ab := Matrices.Multiply(a, b);
    var h := Homogeneous(v, a);
    ProductColumn0(v, a, b);
    ProductColumn1(v, a, b);
    ProductColumn2(v, a, b);
    assert Homogeneous(v, ab) == Homogeneous(h, b);
  }

  /** The x coordinate of `TransformProduct`. */
  lemma ProductColumn0(v: Vector3, a: Matrix4x4, b: Matrix4x4)
    requires IsAffine(a)
    ensures Homogeneous(v, Matrices.Multiply(a, b)).x == Homogeneous(Homogeneous(v, a), b).x
  {
    var ab := Matrices.Multiply(a, b);
    MultiplyEntry00(a, b);
    MultiplyEntry10(a, b);
    MultiplyEntry20(a, b);
    MultiplyEntry30(a, b);
    ThroughTwoAffine(v, a, Homogeneous(v, a), b.m00, b.m10, b.m20, b.m30, ab.m00, ab.m10, ab.m20, ab.m30);
  }

  /** The y coordinate of `TransformProduct`. */
  lemma ProductColumn1(v: Vector3, a: Matrix4x4, b: Matrix4x4)
    requires IsAffine(a)
    ensures Homogeneous(v, Matrices.Multiply(a, b)).y == Homogeneous(Homogeneous(v, a), b).y
  {
    var ab := Matrices.Multiply(a, b);
    MultiplyEntry01(a, b);
    MultiplyEntry11(a, b);
    MultiplyEntry21(a, b);
    MultiplyEntry31(a, b);
    ThroughTwoAffine(v, a, Homogeneous(v, a), b.m01, b.m11, b.m21, b.m31, ab.m01, ab.m11, ab.m21, ab.m31);
  }

  /** The z coordinate of `TransformProduct`. */
  lemma ProductColumn2(v: Vector3, a: Matrix4x4, b: Matrix4x4)
    requires IsAffine(a)
    ensures Homogeneous(v, Matrices.Multiply(a, b)).z == Homogeneous(Homogeneous(v, a), b).z
  {
    var ab := Matrices.Multiply(a, b);
    MultiplyEntry02(a, b);
    MultiplyEntry12(a, b);
    MultiplyEntry22(a, b);
    MultiplyEntry32(a, b);
    ThroughTwoAffine(v, a, Homogeneous(v, a), b.m02, b.m12, b.m22, b.m32, ab.m02, ab.m12, ab.m22, ab.m32);
  }

  /** One coordinate of point `v` taken through affine `a` (giving `h`) and then
      through the column `(b0, b1, b2, b3)` equals `v` taken through the matching
      column `(e0, e1, e2, e3)` of `a * b`. */
  lemma ThroughTwoAffine(v: Vector3, a: Matrix4x4, h: Vector3,
                         b0: real, b1: real, b2: real, b3: real,
                         e0: real, e1: real, e2: real, e3: real)
    requires IsAffine(a)
    requires h == Homogeneous(v, a)
    requires e0 == a.m00 * b0 + a.m01 * b1 + a.m02 * b2 + a.m03 * b3
    requires e1 == a.m10 * b0 + a.m11 * b1 + a.m12 * b2 + a.m13 * b3
    requires e2 == a.m20 * b0 + a.m21 * b1 + a.m22 * b2 + a.m23 * b3
    requires e3 == a.m30 * b0 + a.m31 * b1 + a.m32 * b2 + a.m33 * b3
    ensures h.x * b0 + h.y * b1 + h.z * b2 + 1.0 * b3 == v.x * e0 + v.y * e1 + v.z * e2 + 1.0 * e3
  {
  }

  /** Mymath.h `MakeTranslateMatrix`: the identity with the translation in row 3. */
  function MakeTranslateMatrix(translate: Vector3): (r: Matrix4x4)
    ensures IsAffine(r)
    ensures r.m30 == translate.x && r.m31 == translate.y && r.m32 == translate.z
  {
    Matrix4x4(
      1.0, 0.0, 0.0, 0.0,
      0.0, 1.0, 0.0, 0.0,
      0.0, 0.0, 1.0, 0.0,
      translate.x, translate.y, translate.z, 1.0)
  }

  /** A translation moves every point by `t` (the origin to `t` itself) and leaves every
      direction unchanged. */
  lemma TransformTranslate(p: Vector3, t: Vector3)
    ensures Transform(p, MakeTranslateMatrix(t)) == Vectors.Add(p, t)
    ensures Transform(Zero(), MakeTranslateMatrix(t)) == t
    ensures TransformNormal(p, MakeTranslateMatrix(t)) == p
  {
  }

  /** Translations compose by adding their offsets, so translating by `t` and then by
      `-t` is the identity. */
  lemma TranslateCompose(a: Vector3, b: Vector3)
    ensures Matrices.Multiply(MakeTranslateMatrix(a), MakeTranslateMatrix(b))
      == MakeTranslateMatrix(Vectors.Add(a, b))
    ensures Matrices.Multiply(MakeTranslateMatrix(a), MakeTranslateMatrix(Vectors.Subtract(Zero(), a)))
      == MakeIdentity4x4()
  {
    MultiplyIsRowTimesColumn(MakeTranslateMatrix(a), MakeTranslateMatrix(b));
    MultiplyIsRowTimesColumn(MakeTranslateMatrix(a), MakeTranslateMatrix(Vectors.Subtract(Zero(), a)));
  }

  /** Mymath.h `MakeScaleMatrix`: the scale factors on the diagonal, 1 in the corner. */
  function MakeScaleMatrix(scale: Vector3): (r: Matrix4x4)
    ensures IsAffine(r)
    ensures scale == Vector3(1.0, 1.0, 1.0) ==> r == MakeIdentity4x4()
  {
    Matrix4x4(
      scale.x, 0.0, 0.0, 0.0,
      0.0, scale.y, 0.0, 0.0,
      0.0, 0.0, scale.z, 0.0,
      0.0, 0.0, 0.0, 1.0)
  }

  /** The componentwise product of two vectors. */
  function Componentwise(a: Vector3, b: Vector3): Vector3
  {
    Vector3(a.x * b.x, a.y * b.y, a.z * b.z)
  }

  /** A scale matrix multiplies a point, and a direction, componentwise by the factors. */
  lemma TransformScale(p: Vector3, s: Vector3)
    ensures Transform(p, MakeScaleMatrix(s)) == Componentwise(p, s)
    ensures TransformNormal(p, MakeScaleMatrix(s)) == Componentwise(p, s)
  {
  }

  /** Scale matrices compose by multiplying their factors. */
  lemma ScaleCompose(a: Vector3, b: Vector3)
    ensures Matrices.Multiply(MakeScaleMatrix(a), MakeScaleMatrix(b)) == MakeScaleMatrix(Componentwise(a, b))
  {
    MultiplyIsRowTimesColumn(MakeScaleMatrix(a), MakeScaleMatrix(b));
  }

  /** Mymath.h `MakeRotateXMatrix`, given `s` and `c`, the sine and cosine of the angle. */
  function MakeRotateXMatrix(s: real, c: real): (r: Matrix4x4)
    ensures IsAffine(r)
    ensures s == 0.0 && c == 1.0 ==> r == MakeIdentity4x4()
  {
    Matrix4x4(
      1.0, 0.0, 0.0, 0.0,
      0.0, c, s, 0.0,
      0.0, -s, c, 0.0,
      0.0, 0.0, 0.0, 1.0)
  }

  /** Mymath.h `MakeRotateYMatrix`, given the sine and cosine of the angle. */
  function MakeRotateYMatrix(s: real, c: real): (r: Matrix4x4)
    ensures IsAffine(r)
    ensures s == 0.0 && c == 1.0 ==> r == MakeIdentity4x4()
  {
    Matrix4x4(
      c, 0.0, -s, 0.0,
      0.0, 1.0, 0.0, 0.0,
      s, 0.0, c, 0.0,
      0.0, 0.0, 0.0, 1.0)
  }

  /** Mymath.h `MakeRotateZMatrix`, given the sine and cosine of the angle. */
  function MakeRotateZMatrix(s: real, c: real): (r: Matrix4x4)
    ensures IsAffine(r)
    ensures s == 0.0 && c == 1.0 ==> r == MakeIdentity4x4()
  {
    Matrix4x4(
      c, s, 0.0, 0.0,
      -s, c, 0.0, 0.0,
      0.0, 0.0, 1.0, 0.0,
      0.0, 0.0, 0.0, 1.0)
  }

  /** The sign layout of the rotations: a quarter turn about Z (sine 1, cosine 0)
      takes the x axis to the y axis. */
  lemma QuarterTurnZ()
    ensures TransformNormal(Vector3(1.0, 0.0, 0.0), MakeRotateZMatrix(1.0, 0.0)) == Vector3(0.0, 1.0, 0.0)
  {
  }

  /** A quarter turn about X takes the y axis to the z axis. */
  lemma QuarterTurnX()
    ensures TransformNormal(Vector3(0.0, 1.0, 0.0), MakeRotateXMatrix(1.0, 0.0)) == Vector3(0.0, 0.0, 1.0)
  {
  }

  /** A quarter turn about Y takes the z axis to the x axis. */
  lemma QuarterTurnY()
    ensures TransformNormal(Vector3(0.0, 0.0, 1.0), MakeRotateYMatrix(1.0, 0.0)) == Vector3(1.0, 0.0, 0.0)
  {
  }

  /** Rotating by one angle and then another about X is rotating by their sum: the
      entries follow the angle-addition formulas for sine and cosine. */
  lemma RotateXAngleSum(s1: real, c1: real, s2: real, c2: real)
    ensures Matrices.Multiply(MakeRotateXMatrix(s1, c1), MakeRotateXMatrix(s2, c2))
      == MakeRotateXMatrix(s1 * c2 + c1 * s2, c1 * c2 - s1 * s2)
  {
    MultiplyIsRowTimesColumn(MakeRotateXMatrix(s1, c1), MakeRotateXMatrix(s2, c2));
  }

  /** Angle addition for rotations about Y. */
  lemma RotateYAngleSum(s1: real, c1: real, s2: real, c2: real)
    ensures Matrices.Multiply(MakeRotateYMatrix(s1, c1), MakeRotateYMatrix(s2, c2))
      == MakeRotateYMatrix(s1 * c2 + c1 * s2, c1 * c2 - s1 * s2)
  {
    MultiplyIsRowTimesColumn(MakeRotateYMatrix(s1, c1), MakeRotateYMatrix(s2, c2));
  }

  /** Angle addition for rotations about Z. */
  lemma RotateZAngleSum(s1: real, c1: real, s2: real, c2: real)
    ensures Matrices.Multiply(MakeRotateZMatrix(s1, c1), MakeRotateZMatrix(s2, c2))
      == MakeRotateZMatrix(s1 * c2 + c1 * s2, c1 * c2 - s1 * s2)
  {
    MultiplyIsRowTimesColumn(MakeRotateZMatrix(s1, c1), MakeRotateZMatrix(s2, c2));
  }

  /** When `s` and `c` lie on the unit circle, the rotation about X is orthogonal: its
      transpose is the rotation by the opposite angle and undoes it. */
  lemma RotateXOrthogonal(s: real, c: real)
    requires s * s + c * c == 1.0
    ensures Transpose(MakeRotateXMatrix(s, c)) == MakeRotateXMatrix(-s, c)
    ensures Matrices.Multiply(MakeRotateXMatrix(s, c), MakeRotateXMatrix(-s, c)) == MakeIdentity4x4()
  {
    RotateXAngleSum(s, c, -s, c);
  }

  /** The rotation about Y is orthogonal on the unit circle. */
  lemma RotateYOrthogonal(s: real, c: real)
    requires s * s + c * c == 1.0
    ensures Transpose(MakeRotateYMatrix(s, c)) == MakeRotateYMatrix(-s, c)
    ensures Matrices.Multiply(MakeRotateYMatrix(s, c), MakeRotateYMatrix(-s, c)) == MakeIdentity4x4()
  {
    RotateYAngleSum(s, c, -s, c);
  }

  /** The rotation about Z is orthogonal on the unit circle. */
  lemma RotateZOrthogonal(s: real, c: real)
    requires s * s + c * c == 1.0
    ensures Transpose(MakeRotateZMatrix(s, c)) == MakeRotateZMatrix(-s, c)
    ensures Matrices.Multiply(MakeRotateZMatrix(s, c), MakeRotateZMatrix(-s, c)) == MakeIdentity4x4()
  {
    RotateZAngleSum(s, c, -s, c);
  }

  /** On the unit circle, the rotation about X keeps the squared length of every
      direction. */
  lemma RotateXKeepsLength(v: Vector3, s: real, c: real)
    requires s * s + c * c == 1.0
    ensures Dot(TransformNormal(v, MakeRotateXMatrix(s, c)), TransformNormal(v, MakeRotateXMatrix(s, c))) == Dot(v, v)
  {
    PlaneRotationKeepsLength(v.y, v.z, s, c);
  }

  /** On the unit circle, the rotation about Y keeps squared length. */
  lemma RotateYKeepsLength(v: Vector3, s: real, c: real)
    requires s * s + c * c == 1.0
    ensures Dot(TransformNormal(v, MakeRotateYMatrix(s, c)), TransformNormal(v, MakeRotateYMatrix(s, c))) == Dot(v, v)
  {
    PlaneRotationKeepsLength(v.x, v.z, s, c);
  }

  /** On the unit circle, the rotation about Z keeps squared length. */
  lemma RotateZKeepsLength(v: Vector3, s: real, c: real)
    requires s * s + c * c == 1.0
    ensures Dot(TransformNormal(v, MakeRotateZMatrix(s, c)), TransformNormal(v, MakeRotateZMatrix(s, c))) == Dot(v, v)
  {
    PlaneRotationKeepsLength(v.x, v.y, s, c);
  }

  /** A rotation of the plane keeps squared length. */
  lemma PlaneRotationKeepsLength(a: real, b: real, s: real, c: real)
    requires s * s + c * c == 1.0
    ensures (a * c - b * s) * (a * c - b * s) + (a * s + b * c) * (a * s + b * c) == a * a + b * b
    ensures (a * c + b * s) * (a * c + b * s) + (b * c - a * s) * (b * c - a * s) == a * a + b * b
  {
    assert (a * c - b * s) * (a * c - b * s) + (a * s + b * c) * (a * s + b * c)
      == (a * a + b * b) * (s * s + c * c);
    assert (a * c + b * s) * (a * c + b * s) + (b * c - a * s) * (b * c - a * s)
      == (a * a + b * b) * (s * s + c * c);
  }

  /** Mymath.h `MakeAffineMatrix`: scale, then rotate about X, Y and Z, then
      translate, multiplied left to right with the `operator*` form. Each rotation is
      given by the sines and cosines of the three angles, one per component. */
  function MakeAffineMatrix(scale: Vector3, sine: Vector3, cosine: Vector3, translate: Vector3): (r: Matrix4x4)
    ensures IsAffine(r)
  {
    var scaleMatrix := MakeScaleMatrix(scale);
    var rotateXMatrix := MakeRotateXMatrix(sine.x, cosine.x);
    var rotateYMatrix := MakeRotateYMatrix(sine.y, cosine.y);
    var rotateZMatrix := MakeRotateZMatrix(sine.z, cosine.z);
    var translateMatrix := MakeTranslateMatrix(translate);
    AffineProduct(scaleMatrix, rotateXMatrix);
    AffineProduct(OperatorTimes(scaleMatrix, rotateXMatrix), rotateYMatrix);
    AffineProduct(OperatorTimes(OperatorTimes(scaleMatrix, rotateXMatrix), rotateYMatrix), rotateZMatrix);
    AffineProduct(
      OperatorTimes(OperatorTimes(OperatorTimes(scaleMatrix, rotateXMatrix), rotateYMatrix), rotateZMatrix),
      translateMatrix);
    OperatorTimes(
      OperatorTimes(OperatorTimes(OperatorTimes(scaleMatrix, rotateXMatrix), rotateYMatrix), rotateZMatrix),
      translateMatrix)
  }

  /** A point through the affine matrix is scaled, rotated about X, Y and Z in that
      order, and then translated. */
  lemma TransformAffine(p: Vector3, scale: Vector3, sine: Vector3, cosine: Vector3, translate: Vector3)
    ensures Transform(p, MakeAffineMatrix(scale, sine, cosine, translate))
      == Vectors.Add(
           TransformNormal(
             TransformNormal(
               TransformNormal(Componentwise(p, scale), MakeRotateXMatrix(sine.x, cosine.x)),
               MakeRotateYMatrix(sine.y, cosine.y)),
             MakeRotateZMatrix(sine.z, cosine.z)),
           translate)
  {
    var sm := MakeScaleMatrix(scale);
    var rx := MakeRotateXMatrix(sine.x, cosine.x);
    var ry := MakeRotateYMatrix(sine.y, cosine.y);
    var rz := MakeRotateZMatrix(sine.z, cosine.z);
    var tm := MakeTranslateMatrix(translate);
    var m1 := Matrices.Multiply(sm, rx);
    var m2 := Matrices.Multiply(m1, ry);
    var m3 := Matrices.Multiply(m2, rz);
    TransformProduct(p, sm, rx);
    TransformProduct(p, m1, ry);
    TransformProduct(p, m2, rz);
    TransformProduct(p, m3, tm);
    TransformScale(p, scale);
    var q1 := Transform(p, sm);
    var q2 := Transform(q1, rx);
    var q3 := Transform(q2, ry);
    assert q2 == TransformNormal(q1, rx);
    assert q3 == TransformNormal(q2, ry);
    assert Transform(q3, rz) == TransformNormal(q3, rz);
    TransformTranslate(Transform(q3, rz), translate);
  }

  /** Mymath.h `MakeViewportMatrix`: maps normalized device coordinates to the screen
      rectangle at (`left`, `top`) of the given size, with depth from `minDepth` to
      `maxDepth`. */
  function MakeViewportMatrix(left: real, top: real, width: real, height: real, minDepth: real, maxDepth: real): (r: Matrix4x4)
    ensures IsAffine(r)
  {
    Matrix4x4(
      width / 2.0, 0.0, 0.0, 0.0,
      0.0, -height / 2.0, 0.0, 0.0,
      0.0, 0.0, maxDepth - minDepth, 0.0,
      left + (width / 2.0), top + (height / 2.0), minDepth, 1.0)
  }

  /** The viewport maps every point linearly: x from [-1, 1] onto [left, left + width],
      y from [1, -1] onto [top, top + height] (the y axis flips), and z from [0, 1] onto
      [minDepth, maxDepth]. */
  lemma TransformViewport(p: Vector3, left: real, top: real, width: real, height: real, minDepth: real, maxDepth: real)
    ensures Transform(p, MakeViewportMatrix(left, top, width, height, minDepth, maxDepth))
      == Vector3(
           left + (p.x + 1.0) * width / 2.0,
           top + (1.0 - p.y) * height / 2.0,
           minDepth + p.z * (maxDepth - minDepth))
  {
  }

  /** The viewport's corners: the top-left near corner of device space lands on
      (`left`, `top`, `minDepth`) and the bottom-right far corner on
      (`left + width`, `top + height`, `maxDepth`). */
  lemma ViewportCorners(left: real, top: real, width: real, height: real, minDepth: real, maxDepth: real)
    ensures Transform(Vector3(-1.0, 1.0, 0.0), MakeViewportMatrix(left, top, width, height, minDepth, maxDepth))
      == Vector3(left, top, minDepth)
    ensures Transform(Vector3(1.0, -1.0, 1.0), MakeViewportMatrix(left, top, width, height, minDepth, maxDepth))
      == Vector3(left + width, top + height, maxDepth)
  {
    TransformViewport(Vector3(-1.0, 1.0, 0.0), left, top, width, height, minDepth, maxDepth);
    TransformViewport(Vector3(1.0, -1.0, 1.0), left, top, width, height, minDepth, maxDepth);
  }
}
