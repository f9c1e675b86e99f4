# Mymath.h in Dafny

A model of `Mymath.h`, the header-only 3-vector and 4x4-matrix library of the
DirectXGame project. It uses the row-vector convention: a point is a row vector
on the left of the matrix (`v' = v * M`), and a translation sits in row 3.

Every `float` is modelled as an exact `real`, so the algebraic laws behind the
hand-unrolled formulas can be proved without rounding. These laws include:

- the row-by-column product;
- the inverse as adjugate over determinant;
- translation, scale and viewport applied to a point.

The model's files:

- `scalar.dfy` (`Scalar`) holds `clamp`.
- `vector3.dfy` (`Vectors`) holds the Vector3 region: the named operations, the
  operator twins that the library writes with their own bodies, `Dot` and `Lerp`.
- `matrix4x4.dfy` (`Matrices`) holds the Matrix4x4 datatype and the entrywise
  operations. It also holds the product, both as the library's sixteen unrolled
  sums and as an index-level definition (`RowTimesColumn`), and `Transpose` and
  `MakeIdentity4x4`.
- `scaling.dfy` (`Scaling`) holds scalar multiples of a matrix and how they pass
  through a product. These are used to move `1 / det` out of the inverse.
- `cofactor_expansion.dfy` (`CofactorExpansion`) holds the library's 24-term
  determinant and its sixteen cofactor numerators as polynomials in the sixteen
  entries. It also holds the per-entry identities `m * adj(m) = det * I` and
  `adj(m) * m = det * I`.
- `inverse.dfy` (`Inverses`) holds `Inverse` and its two-sided inverse property.
- `transform.dfy` (`Transforms`) holds `Transform` and its `operator*` twin, plus
  `TransformNormal`. It also holds the translate, scale, rotate, affine and
  viewport constructors, with what they do to a point.
- `compound.dfy` (`Compound`) holds the in-place `+=`, `-=` on Vector3 and `*=`
  on Matrix4x4. These operators mutate their left operand, so each operand is a
  class whose fields the method assigns.

## Model

| member | source | states |
|---|---|---|
| `Scalar.Clamp` | Mymath.h:10-18 | when `min <= max` the result lies in `[min, max]`; a value in range comes back unchanged; below `min` gives `min` (even when `min > max`, since that test comes first); above `max` gives `max` |
| `Scalar.ClampIdempotent` | Mymath.h:10-18 | clamping an already clamped value changes nothing |
| `Scalar.ClampMonotone` | Mymath.h:10-18 | clamping preserves order |
| `Vectors.Add` | Mymath.h:23-29 | componentwise sum; `AddThenSubtract` and `SubtractThenAdd` prove `Subtract` is its inverse, and `OperatorPlus` proves the operator twin agrees |
| `Vectors.AddThenSubtract` | Mymath.h:23-29 | subtracting either operand from `Add(v1, v2)` gives back the other operand |
| `Vectors.OperatorPlus` | Mymath.h:30-32 | `operator+` agrees with `Add` on every input |
| `Vectors.Subtract` | Mymath.h:34-40 | componentwise difference; `SubtractIsZero` gives zero exactly for equal operands, `SubtractThenAdd` undoes it with `Add`, and `OperatorMinus` agrees with it |
| `Vectors.SubtractIsZero` | Mymath.h:34-40 | `Subtract(v1, v2)` is the zero vector exactly when `v1 == v2` |
| `Vectors.SubtractThenAdd` | Mymath.h:34-40 | adding `v2` back to `Subtract(v1, v2)` restores `v1` |
| `Vectors.OperatorMinus` | Mymath.h:41-43 | `operator-` agrees with `Subtract` on every input |
| `Vectors.Multiply` | Mymath.h:59-65 | each component times the scalar; `MultiplyByOneAndZero` and `MultiplyScalesLength` state its laws, and `OperatorScale` agrees with it |
| `Vectors.MultiplyByOneAndZero` | Mymath.h:59-65 | scaling by 1 is the identity; scaling by 0 gives the zero vector |
| `Vectors.MultiplyScalesLength` | Mymath.h:59-65 | the squared length of `s * v` is `s * s` times that of `v` |
| `Vectors.OperatorScale` | Mymath.h:66-68 | `v * scalar` agrees with `Multiply(scalar, v)` |
| `Vectors.Dot` | Mymath.h:70-72 | a vector's dot product with itself is non-negative, and positive for every non-zero vector |
| `Vectors.DotSymmetric` | Mymath.h:70-72 | `Dot(v1, v2) == Dot(v2, v1)` |
| `Vectors.Lerp` | Mymath.h:103-106 | `t = 0` gives `v1`; `t = 1` gives `v2`; equal end points give that point for every `t` |
| `Vectors.LerpOffset` | Mymath.h:103-106 | the interpolant minus `v1` is `t` times `v2 - v1`, for every `t` (no clamping) |
| `Vectors.LerpReversed` | Mymath.h:103-106 | interpolating from `v2` to `v1` with `1 - t` gives the same point |
| `Compound.Vector3Var.AddAssign` | Mymath.h:45-50 | `v1 += v2` leaves `v1` equal to `Add` of the old values, returns `v1` itself and leaves a distinct `v2` unchanged; `v += v` doubles |
| `Compound.Vector3Var.SubtractAssign` | Mymath.h:52-57 | `v1 -= v2` leaves `v1` equal to `Subtract` of the old values and returns `v1`; `v -= v` gives the zero vector |
| `Compound.Vector3Var.AddThenSubtractAssign` | Mymath.h:45-57 | `v1 += v2` followed by `v1 -= v2` restores `v1` |
| `Compound.Vector3Var.constructor` | Mymath.h:45-57 | a variable holds the vector it was created with |
| `Matrices.Add` | Mymath.h:136-155 | entry `[i][j]` of the sum is the sum of the entries; subtracting `m2` again restores `m1` |
| `Matrices.OperatorPlus` | Mymath.h:156-175 | matrix `operator+` agrees with `Add` |
| `Matrices.Subtract` | Mymath.h:176-195 | entry `[i][j]` of the difference is the difference of the entries; the result is zero exactly when `m1 == m2` |
| `Matrices.OperatorMinus` | Mymath.h:196-215 | matrix `operator-` agrees with `Subtract` |
| `Matrices.Multiply` | Mymath.h:216-254 | the sixteen unrolled four-term sums; `MultiplyIsRowTimesColumn` proves each equals the row-by-column sum, and `MultiplyIdentityRight`/`MultiplyIdentityLeft` show the identity is a unit |
| `Matrices.MultiplyIsRowTimesColumn` | Mymath.h:216-254 | every entry of the hand-unrolled product is the row-by-column sum over `k < 4` of `m1[i][k] * m2[k][j]` |
| `Matrices.MultiplyRow0` | Mymath.h:218-226 | row 0 of the product equals the row-by-column definition |
| `Matrices.MultiplyRow1` | Mymath.h:227-235 | row 1 of the product equals the row-by-column definition |
| `Matrices.MultiplyRow2` | Mymath.h:236-244 | row 2 of the product equals the row-by-column definition |
| `Matrices.MultiplyRow3` | Mymath.h:245-253 | row 3 of the product equals the row-by-column definition |
| `Matrices.OperatorTimes` | Mymath.h:255-293 | matrix `operator*`, a second copy of the sixteen sums, agrees with `Multiply` |
| `Matrices.MultiplyIdentityRight` | Mymath.h:216-254 | `Multiply(m, MakeIdentity4x4()) == m` |
| `Matrices.MultiplyIdentityLeft` | Mymath.h:216-254 | `Multiply(MakeIdentity4x4(), m) == m` |
| `Matrices.Transpose` | Mymath.h:410-433 | entry `[i][j]` of the transpose is entry `[j][i]` of `m` |
| `Matrices.TransposeInvolution` | Mymath.h:410-433 | transposing twice gives back the matrix |
| `Matrices.MakeIdentity4x4` | Mymath.h:434-457 | entry `[i][j]` is 1 on the diagonal and 0 elsewhere |
| `Matrices.TransposeIdentity` | Mymath.h:410-457 | the identity is its own transpose |
| `Compound.Matrix4x4Var.MultiplyAssign` | Mymath.h:630-631 | `m1 *= m2` leaves `m1` equal to `Multiply(old m1, m2)`, returns `m1` itself and leaves a distinct `m2` unchanged; `m *= m` squares |
| `Compound.Matrix4x4Var.MultiplyAssignIdentity` | Mymath.h:630-631 | multiplying in place by the identity leaves the matrix unchanged |
| `Compound.Matrix4x4Var.constructor` | Mymath.h:630-631 | a variable holds the matrix it was created with |
| `Scaling.ScaleEntries` | Mymath.h:327-407 | entry `[i][j]` of a scaled matrix is the entry times the factor |
| `Scaling.ScaledIdentity` | Mymath.h:327-407 | `d * I` has `d` on the diagonal and 0 elsewhere |
| `Scaling.ScaledIdentityByReciprocal` | Mymath.h:327-407 | `d * I` scaled by `1 / d` is the identity, for every non-zero `d` |
| `Scaling.ScaleByReciprocalEntry` | Mymath.h:327-407 | scaling by `1 / d` divides each entry by `d` |
| `Scaling.ScaleByOne` | Mymath.h:327-407 | scaling by 1 changes nothing |
| `Scaling.ProductOfScaled` | Mymath.h:216-254 | `m * (t * a) == t * (m * a)` |
| `Scaling.ScaledProduct` | Mymath.h:216-254 | `(t * a) * m == t * (a * m)` |
| `Inverses.Determinant` | Mymath.h:295-325 | the library's 24-term `lal`; `DeterminantIsLaplace` proves it is the Laplace expansion, `DeterminantOfTranspose` and `DeterminantOfIdentity` state its laws |
| `CofactorExpansion.Det` | Mymath.h:295-325 | `lal` as a polynomial of the sixteen entries; the `RowTimesAdjugateColumn{i}{i}`/`AdjugateRowTimesColumn{i}{i}` lemmas prove each row and column expansion against the cofactors equals it |
| `CofactorExpansion.Adj00` | Mymath.h:328-331 | numerator of entry [0][0] of the inverse, the signed minor of entry [0][0]; the `RowTimesAdjugateColumn*0` lemmas prove each row of `m` times adjugate column 0 gives `det` on the diagonal and 0 off it, and the `AdjugateRowTimesColumn0*` lemmas prove the same for adjugate row 0 times each column of `m` |
| `CofactorExpansion.Adj01` | Mymath.h:333-336 | numerator of entry [0][1] of the inverse, the signed minor of entry [1][0]; the `RowTimesAdjugateColumn*1` lemmas prove each row of `m` times adjugate column 1 gives `det` on the diagonal and 0 off it, and the `AdjugateRowTimesColumn0*` lemmas prove the same for adjugate row 0 times each column of `m` |
| `CofactorExpansion.Adj02` | Mymath.h:338-341 | numerator of entry [0][2] of the inverse, the signed minor of entry [2][0]; the `RowTimesAdjugateColumn*2` lemmas prove each row of `m` times adjugate column 2 gives `det` on the diagonal and 0 off it, and the `AdjugateRowTimesColumn0*` lemmas prove the same for adjugate row 0 times each column of `m` |
| `CofactorExpansion.Adj03` | Mymath.h:343-346 | numerator of entry [0][3] of the inverse, the signed minor of entry [3][0]; the `RowTimesAdjugateColumn*3` lemmas prove each row of `m` times adjugate column 3 gives `det` on the diagonal and 0 off it, and the `AdjugateRowTimesColumn0*` lemmas prove the same for adjugate row 0 times each column of `m` |
| `CofactorExpansion.Adj10` | Mymath.h:348-351 | numerator of entry [1][0] of the inverse, the signed minor of entry [0][1]; the `RowTimesAdjugateColumn*0` lemmas prove each row of `m` times adjugate column 0 gives `det` on the diagonal and 0 off it, and the `AdjugateRowTimesColumn1*` lemmas prove the same for adjugate row 1 times each column of `m` |
| `CofactorExpansion.Adj11` | Mymath.h:353-356 | numerator of entry [1][1] of the inverse, the signed minor of entry [1][1]; the `RowTimesAdjugateColumn*1` lemmas prove each row of `m` times adjugate column 1 gives `det` on the diagonal and 0 off it, and the `AdjugateRowTimesColumn1*` lemmas prove the same for adjugate row 1 times each column of `m` |
| `CofactorExpansion.Adj12` | Mymath.h:358-361 | numerator of entry [1][2] of the inverse, the signed minor of entry [2][1]; the `RowTimesAdjugateColumn*2` lemmas prove each row of `m` times adjugate column 2 gives `det` on the diagonal and 0 off it, and the `AdjugateRowTimesColumn1*` lemmas prove the same for adjugate row 1 times each column of `m` |
| `CofactorExpansion.Adj13` | Mymath.h:363-366 | numerator of entry [1][3] of the inverse, the signed minor of entry [3][1]; the `RowTimesAdjugateColumn*3` lemmas prove each row of `m` times adjugate column 3 gives `det` on the diagonal and 0 off it, and the `AdjugateRowTimesColumn1*` lemmas prove the same for adjugate row 1 times each column of `m` |
| `CofactorExpansion.Adj20` | Mymath.h:368-371 | numerator of entry [2][0] of the inverse, the signed minor of entry [0][2]; the `RowTimesAdjugateColumn*0` lemmas prove each row of `m` times adjugate column 0 gives `det` on the diagonal and 0 off it, and the `AdjugateRowTimesColumn2*` lemmas prove the same for adjugate row 2 times each column of `m` |
| `CofactorExpansion.Adj21` | Mymath.h:373-376 | numerator of entry [2][1] of the inverse, the signed minor of entry [1][2]; the `RowTimesAdjugateColumn*1` lemmas prove each row of `m` times adjugate column 1 gives `det` on the diagonal and 0 off it, and the `AdjugateRowTimesColumn2*` lemmas prove the same for adjugate row 2 times each column of `m` |
| `CofactorExpansion.Adj22` | Mymath.h:378-381 | numerator of entry [2][2] of the inverse, the signed minor of entry [2][2]; the `RowTimesAdjugateColumn*2` lemmas prove each row of `m` times adjugate column 2 gives `det` on the diagonal and 0 off it, and the `AdjugateRowTimesColumn2*` lemmas prove the same for adjugate row 2 times each column of `m` |
| `CofactorExpansion.Adj23` | Mymath.h:383-386 | numerator of entry [2][3] of the inverse, the signed minor of entry [3][2]; the `RowTimesAdjugateColumn*3` lemmas prove each row of `m` times adjugate column 3 gives `det` on the diagonal and 0 off it, and the `AdjugateRowTimesColumn2*` lemmas prove the same for adjugate row 2 times each column of `m` |
| `CofactorExpansion.Adj30` | Mymath.h:388-391 | numerator of entry [3][0] of the inverse, the signed minor of entry [0][3]; the `RowTimesAdjugateColumn*0` lemmas prove each row of `m` times adjugate column 0 gives `det` on the diagonal and 0 off it, and the `AdjugateRowTimesColumn3*` lemmas prove the same for adjugate row 3 times each column of `m` |
| `CofactorExpansion.Adj31` | Mymath.h:393-396 | numerator of entry [3][1] of the inverse, the signed minor of entry [1][3]; the `RowTimesAdjugateColumn*1` lemmas prove each row of `m` times adjugate column 1 gives `det` on the diagonal and 0 off it, and the `AdjugateRowTimesColumn3*` lemmas prove the same for adjugate row 3 times each column of `m` |
| `CofactorExpansion.Adj32` | Mymath.h:398-401 | numerator of entry [3][2] of the inverse, the signed minor of entry [2][3]; the `RowTimesAdjugateColumn*2` lemmas prove each row of `m` times adjugate column 2 gives `det` on the diagonal and 0 off it, and the `AdjugateRowTimesColumn3*` lemmas prove the same for adjugate row 3 times each column of `m` |
| `CofactorExpansion.Adj33` | Mymath.h:403-406 | numerator of entry [3][3] of the inverse, the signed minor of entry [3][3]; the `RowTimesAdjugateColumn*3` lemmas prove each row of `m` times adjugate column 3 gives `det` on the diagonal and 0 off it, and the `AdjugateRowTimesColumn3*` lemmas prove the same for adjugate row 3 times each column of `m` |
| `Inverses.Adjugate` | Mymath.h:327-407 | the sixteen cofactor numerators as a matrix; `MatrixTimesAdjugate` and `AdjugateTimesMatrix` prove that multiplying it by `m` on either side gives `det * I` |
| `Inverses.Inverse` | Mymath.h:294-409 | the adjugate scaled by `1 / det`; `InverseIsRightInverse`/`InverseIsLeftInverse` prove it a two-sided inverse, `InverseEntry` gives each entry as numerator over `lal`, `InverseOfIdentity` gives the identity's inverse |
| `Inverses.DeterminantIsLaplace` | Mymath.h:295-325 | the library's 24-term `lal` equals the Laplace expansion of the determinant along row 0 (3x3 minors) |
| `Inverses.MatrixTimesAdjugate` | Mymath.h:294-409 | `m` times the matrix of the library's sixteen cofactor numerators is `det * I`, for every `m` |
| `Inverses.AdjugateTimesMatrix` | Mymath.h:294-409 | the matrix of cofactor numerators times `m` is `det * I`, for every `m` |
| `Inverses.InverseEntry` | Mymath.h:327-407 | each entry of `Inverse(m)` is the library's quotient, cofactor numerator over `lal` |
| `Inverses.InverseIsRightInverse` | Mymath.h:294-409 | when the determinant is non-zero, `Multiply(m, Inverse(m))` is the identity |
| `Inverses.InverseIsLeftInverse` | Mymath.h:294-409 | when the determinant is non-zero, `Multiply(Inverse(m), m)` is the identity |
| `Inverses.DeterminantOfIdentity` | Mymath.h:295-325 | the identity has determinant 1 |
| `Inverses.AdjugateOfIdentity` | Mymath.h:327-407 | the cofactor numerators of the identity form the identity |
| `Inverses.InverseOfIdentity` | Mymath.h:294-409 | the inverse of the identity is the identity |
| `Inverses.DeterminantOfTranspose` | Mymath.h:295-325 | transposing does not change the 24-term determinant |
| `Transforms.Transform` | Mymath.h:506-523 | requires the homogeneous `w` to be non-zero (the source's assert); when `w == 1` the divide changes nothing |
| `Transforms.TransformTimesW` | Mymath.h:506-523 | each coordinate of the result times `w` is the undivided homogeneous coordinate |
| `Transforms.TransformOperator` | Mymath.h:524-537 | `operator*(Vector3, Matrix4x4)` agrees with `Transform` |
| `Transforms.TransformNormal` | Mymath.h:89-98 | the upper-left 3x3 block applied to a direction; `TransformNormalIsDifference` shows row 3 is ignored, and `TransformNormalAdditive`/`TransformNormalHomogeneous` prove it linear for every matrix |
| `Transforms.TransformNormalIsDifference` | Mymath.h:89-98 | `TransformNormal(v, m)` is the undivided image of `v` minus that of the origin: the translation row is ignored |
| `Transforms.TransformNormalAdditive` | Mymath.h:89-98 | for every matrix, the image of `v1 + v2` is the sum of the images |
| `Transforms.TransformNormalHomogeneous` | Mymath.h:89-98 | for every matrix, the image of `k * v` is `k` times the image of `v` |
| `Transforms.AffineW` | Mymath.h:506-523 | for a matrix whose column 3 is `(0, 0, 0, 1)`, `w` is 1 and `Transform` does no division |
| `Transforms.AffineDifference` | Mymath.h:89-98 | under an affine matrix, `Transform(p + d) - Transform(p)` is `TransformNormal(d)` |
| `Transforms.TransformIdentity` | Mymath.h:506-523 | the identity maps every point and every direction to itself |
| `Transforms.AffineProduct` | Mymath.h:216-254 | the product of two affine matrices is affine |
| `Transforms.TransformProduct` | Mymath.h:506-523 | for affine `a` and `b`, transforming by `a * b` is transforming by `a` and then by `b` |
| `Transforms.MakeTranslateMatrix` | Mymath.h:458-481 | the matrix is affine, and the translation sits in row 3 |
| `Transforms.TransformTranslate` | Mymath.h:458-481 | a point goes to `p + t`; the origin goes to `t`; `TransformNormal` leaves a direction unchanged |
| `Transforms.TranslateCompose` | Mymath.h:458-481 | translating by `a` and then by `b` is translating by `a + b`; translating by `-a` undoes translating by `a` |
| `Transforms.MakeScaleMatrix` | Mymath.h:482-505 | the matrix is affine; scale `(1, 1, 1)` gives the identity |
| `Transforms.TransformScale` | Mymath.h:482-505 | points and directions are multiplied componentwise by the scale |
| `Transforms.ScaleCompose` | Mymath.h:482-505 | scaling by `a` and then `b` is scaling by the componentwise product |
| `Transforms.MakeRotateXMatrix` | Mymath.h:539-564 | the matrix is affine; sine 0 and cosine 1 give the identity |
| `Transforms.MakeRotateYMatrix` | Mymath.h:565-590 | the matrix is affine; sine 0 and cosine 1 give the identity |
| `Transforms.MakeRotateZMatrix` | Mymath.h:591-616 | the matrix is affine; sine 0 and cosine 1 give the identity |
| `Transforms.QuarterTurnX` | Mymath.h:539-564 | a quarter turn about X takes the y axis to the z axis |
| `Transforms.QuarterTurnY` | Mymath.h:565-590 | a quarter turn about Y takes the z axis to the x axis |
| `Transforms.QuarterTurnZ` | Mymath.h:591-616 | a quarter turn about Z takes the x axis to the y axis |
| `Transforms.RotateXAngleSum` | Mymath.h:539-564 | the product of two X rotations is the X rotation by the sum of the angles (angle-sum formulas) |
| `Transforms.RotateYAngleSum` | Mymath.h:565-590 | the product of two Y rotations is the Y rotation by the sum of the angles |
| `Transforms.RotateZAngleSum` | Mymath.h:591-616 | the product of two Z rotations is the Z rotation by the sum of the angles |
| `Transforms.RotateXOrthogonal` | Mymath.h:539-564 | when `s*s + c*c == 1`, the transpose is the rotation by the opposite angle and is its inverse |
| `Transforms.RotateYOrthogonal` | Mymath.h:565-590 | when `s*s + c*c == 1`, the transpose is the rotation by the opposite angle and is its inverse |
| `Transforms.RotateZOrthogonal` | Mymath.h:591-616 | when `s*s + c*c == 1`, the transpose is the rotation by the opposite angle and is its inverse |
| `Transforms.RotateXKeepsLength` | Mymath.h:539-564 | rotating a direction about X keeps its squared length |
| `Transforms.RotateYKeepsLength` | Mymath.h:565-590 | rotating a direction about Y keeps its squared length |
| `Transforms.RotateZKeepsLength` | Mymath.h:591-616 | rotating a direction about Z keeps its squared length |
| `Transforms.MakeAffineMatrix` | Mymath.h:617-628 | the product of scale, the three rotations and translate is affine |
| `Transforms.TransformAffine` | Mymath.h:617-628 | a point is scaled, rotated about X, then Y, then Z, and then translated |
| `Transforms.MakeViewportMatrix` | Mymath.h:683-703 | the viewport matrix is affine |
| `Transforms.TransformViewport` | Mymath.h:683-703 | x maps linearly from [-1, 1] onto [left, left + width]; y maps from [1, -1] onto [top, top + height] (the axis flips); z maps from [0, 1] onto [minDepth, maxDepth] |
| `Transforms.ViewportCorners` | Mymath.h:683-703 | device corner (-1, 1, 0) lands on (left, top, minDepth), and (1, -1, 1) lands on (left + width, top + height, maxDepth) |

## Left out

- Floating point: rounding, overflow, infinities and NaN are not modelled. Every `float` is an exact `real`.
- `Inverses.Inverse` requires a non-zero determinant. The library never checks `lal` and would divide by zero, producing infinities or NaN, which reals cannot represent. Each entry is written as the cofactor numerator times `1 / lal`; `Inverses.InverseEntry` proves this equals the library's quotient.
- `Transforms.Transform` and `Transforms.TransformOperator` require `w != 0`, which models the library's `assert(w != 0.0f)` as a precondition. A release build without asserts would divide by zero instead.
- `Length` and `Normalize` (Mymath.h:77-87) are left out. They use `sqrtf`, and Dafny's reals have no square root. `Vectors.MultiplyScalesLength` and the rotation lemmas speak of the squared length (`Dot(v, v)`) instead.
- `Slerp` (Mymath.h:108-132) and `LookAtOfEulerAngle` (Mymath.h:672-680) are left out. They use `acos`, `sin` and `atan2`, and they call `Normalize`.
- `Transforms.MakeRotateXMatrix`, `Transforms.MakeRotateYMatrix`, `Transforms.MakeRotateZMatrix`: these take the sine and cosine of the angle as parameters instead of the radian value. The trigonometric functions are not modelled, so only the sign layout and the algebra (given `s*s + c*c == 1`) are proved.
- `Transforms.MakeAffineMatrix` takes a sine vector and a cosine vector in place of the rotation angles, for the same reason.
- The `Vector3 * Vector3` operator (Mymath.h:73-75) is left out. It builds a vector from the one float of a dot product, and its meaning depends on `Vector3.h`, which is not part of this model. `Vectors.Dot` covers the arithmetic.
- `kColumnWidth` and `kRowHeight` (Mymath.h:99-100) are display constants with no logic, so they are left out.
- The commented-out unrolled body of `operator*=` (Mymath.h:632-668) is dead code and is left out.
- `Matrix4x4.h`, `Vector2.h` and `Vector4.h` are not part of this model. `Matrix4x4` and `Vector3` are defined here directly as value types with real fields.
- `Matrices.Multiply`: transpose of a product (`(a * b)^T == b^T * a^T`) is not stated.
