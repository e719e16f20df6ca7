/**
 * The 4x4 matrices of the transform library (Matrix_4x4 of 3d.h and the
 * matrix half of 3d.c).
 *
 * A Matrix_4x4 is a union of `float array[16]` and sixteen named fields;
 * the field `_ab` is element `a + 4 * b` of the array. Everything here is
 * stated in the flat view X[r][c] = array[4 * r + c], in which
 * matrix_4x4_mul_vector_4d computes X * v, matrix_4x4_mul_matrix the
 * ordinary product, and the translation sits in `_30, _31, _32`
 * (elements 3, 7, 11, the last column of X).
 *
 * Matrices the source updates through a pointer are `array<real>`s of
 * length 16; the value such an array holds is a `Mat`.
 */
module Matrices {
  import opened Scalar
  import opened Vectors

  type Mat = s: seq<real> | |s| == 16
    witness [0.0, 0.0, 0.0, 0.0, 0.0, 0.0, 0.0, 0.0, 0.0, 0.0, 0.0, 0.0, 0.0, 0.0, 0.0, 0.0]

  /** The matrix an array of 16 floats holds. */
  function Contents(a: array<real>): Mat
    requires a.Length == 16
    reads a
  {
    [a[0], a[1], a[2], a[3], a[4], a[5], a[6], a[7],
     a[8], a[9], a[10], a[11], a[12], a[13], a[14], a[15]]
  }

  /** X[r][c] in the flat view. */
  function At(m: Mat, r: int, c: int): real
    requires 0 <= r < 4 && 0 <= c < 4
  {
    m[4 * r + c]
  }

  /** identity_matrix_4x4. */
  const Identity: Mat := [
    1.0, 0.0, 0.0, 0.0,
    0.0, 1.0, 0.0, 0.0,
    0.0, 0.0, 1.0, 0.0,
    0.0, 0.0, 0.0, 1.0]

  /** Row r of `a` times column c of `b`. */
  function RowCol(a: Mat, b: Mat, r: int, c: int): real
    requires 0 <= r < 4 && 0 <= c < 4
  {
    a[4 * r] * b[c] + a[4 * r + 1] * b[4 + c] + a[4 * r + 2] * b[8 + c] + a[4 * r + 3] * b[12 + c]
  }

  /** The ordinary matrix product a * b in the flat view. */
  function Product(a: Mat, b: Mat): Mat
  {
    [RowCol(a, b, 0, 0), RowCol(a, b, 0, 1), RowCol(a, b, 0, 2), RowCol(a, b, 0, 3),
     RowCol(a, b, 1, 0), RowCol(a, b, 1, 1), RowCol(a, b, 1, 2), RowCol(a, b, 1, 3),
     RowCol(a, b, 2, 0), RowCol(a, b, 2, 1), RowCol(a, b, 2, 2), RowCol(a, b, 2, 3),
     RowCol(a, b, 3, 0), RowCol(a, b, 3, 1), RowCol(a, b, 3, 2), RowCol(a, b, 3, 3)]
  }

  /** Every entry of the product is the row-by-column sum. */
  lemma ProductEntries(a: Mat, b: Mat)
    ensures forall r, c | 0 <= r < 4 && 0 <= c < 4 :: At(Product(a, b), r, c) == RowCol(a, b, r, c)
  {
    var p := Product(a, b);
    forall r, c | 0 <= r < 4 && 0 <= c < 4
      ensures At(p, r, c) == RowCol(a, b, r, c)
    {
      assert r == 0 || r == 1 || r == 2 || r == 3;
      assert c == 0 || c == 1 || c == 2 || c == 3;
    }
  }

  /** identity_matrix_4x4 is a two-sided unit of the product. */
  lemma IdentityIsUnit(m: Mat)
    ensures Product(Identity, m) == m
    ensures Product(m, Identity) == m
  {
    assert Product(Identity, m) == m by {
      var p := Product(Identity, m);
      forall i | 0 <= i < 16 ensures p[i] == m[i] { }
    }
    assert Product(m, Identity) == m by {
      var p := Product(m, Identity);
      forall i | 0 <= i < 16 ensures p[i] == m[i] { }
    }
  }

  /** The value matrix_4x4_transpose writes when `out` is not `m`. */
  function Transposed(m: Mat): Mat
  {
    [m[0], m[4], m[8], m[12],
     m[1], m[5], m[9], m[13],
     m[2], m[6], m[10], m[14],
     m[3], m[7], m[11], m[15]]
  }

  /** Transposition swaps rows and columns. */
  lemma TransposedEntries(m: Mat)
    ensures forall r, c | 0 <= r < 4 && 0 <= c < 4 :: At(Transposed(m), r, c) == At(m, c, r)
  {
    var t := Transposed(m);
    forall r, c | 0 <= r < 4 && 0 <= c < 4
      ensures At(t, r, c) == At(m, c, r)
    {
      assert r == 0 || r == 1 || r == 2 || r == 3;
      assert c == 0 || c == 1 || c == 2 || c == 3;
    }
  }

  /** Transposition is an involution and fixes the diagonal. */
  lemma TransposeInvolution(m: Mat)
    ensures Transposed(Transposed(m)) == m
    ensures forall i | 0 <= i < 4 :: At(Transposed(m), i, i) == At(m, i, i)
  {
    TransposedEntries(m);
  }

  predicate Symmetric(m: Mat)
  {
    Transposed(m) == m
  }

  /**
   * The value matrix_4x4_transpose writes when `out` is `m`: it writes
   * `_01` from `_10` before it reads `_01` for `_10`, so for every pair
   * off the diagonal both entries end up with the value that was above
   * the diagonal (X[r][c] with r < c).
   */
  function MirroredUpper(m: Mat): Mat
  {
    [m[0], m[1], m[2], m[3],
     m[1], m[5], m[6], m[7],
     m[2], m[6], m[10], m[11],
     m[3], m[7], m[11], m[15]]
  }

  /** In-place transposition yields a symmetric matrix that keeps the diagonal and the upper triangle. */
  lemma MirroredUpperEntries(m: Mat)
    ensures Symmetric(MirroredUpper(m))
    ensures forall r, c | 0 <= r <= c < 4 :: At(MirroredUpper(m), r, c) == At(m, r, c)
  {
    var t := MirroredUpper(m);
    forall r, c | 0 <= r <= c < 4
      ensures At(t, r, c) == At(m, r, c)
    {
      assert r == 0 || r == 1 || r == 2 || r == 3;
      assert c == 0 || c == 1 || c == 2 || c == 3;
    }
  }

  /** Transposing in place gives the transpose exactly when `m` is symmetric. */
  lemma InPlaceTransposeCorrectIff(m: Mat)
    ensures MirroredUpper(m) == Transposed(m) <==> Symmetric(m)
  {
    if MirroredUpper(m) == Transposed(m) {
      assert forall i | 0 <= i < 16 :: MirroredUpper(m)[i] == Transposed(m)[i];
      assert Transposed(m) == m;
    }
  }

  /** matrix_4x4_mul_vector_3d: each row of the upper 3x3 block dotted with v. */
  function MulVector3(m: Mat, v: Vec3): Vec3
  {
    Vec3(v.x * m[0] + v.y * m[1] + v.z * m[2],
         v.x * m[4] + v.y * m[5] + v.z * m[6],
         v.x * m[8] + v.y * m[9] + v.z * m[10])
  }

  /** matrix_4x4_mul_vector_4d: X * v. */
  function MulVector4(m: Mat, v: Vec4): Vec4
  {
    Vec4(v.x * m[0] + v.y * m[1] + v.z * m[2] + v.w * m[3],
         v.x * m[4] + v.y * m[5] + v.z * m[6] + v.w * m[7],
         v.x * m[8] + v.y * m[9] + v.z * m[10] + v.w * m[11],
         v.x * m[12] + v.y * m[13] + v.z * m[14] + v.w * m[15])
  }

  /**
   * The 3-vector product is the 4-vector product of v taken as a direction
   * (w = 0): the translation column and the bottom row play no part.
   */
  lemma MulVector3IsDirection(m: Mat, v: Vec3, x: real, y: real, z: real, w: real)
    ensures var p := MulVector4(m, Vec4(v.x, v.y, v.z, 0.0));
      MulVector3(m, v) == Vec3(p.x, p.y, p.z)
    ensures MulVector3(m[3 := x][7 := y][11 := z][15 := w], v) == MulVector3(m, v)
  {
  }

  /** Each component of the 3-vector product as a row of the block dotted with v. */
  lemma MulVector3Rows(m: Mat, v: Vec3)
    ensures MulVector3(m, v) == Vec3(Dot(Vec3(m[0], m[1], m[2]), v), Dot(Vec3(m[4], m[5], m[6]), v), Dot(Vec3(m[8], m[9], m[10]), v))
  {
  }

  lemma MulVector4Identity(v: Vec4)
    ensures MulVector4(Identity, v) == v
  {
  }

  /** Applying a product is applying its factors in turn, the right one first. */
  lemma MulVector4Product(a: Mat, b: Mat, u: Vec4)
    ensures MulVector4(Product(a, b), u) == MulVector4(a, MulVector4(b, u))
  {
    var p := Product(a, b);
    var v := MulVector4(b, u);
    RowTimesProduct(a, b, u, 0);
    RowTimesProduct(a, b, u, 1);
    RowTimesProduct(a, b, u, 2);
    RowTimesProduct(a, b, u, 3);
  }

  /** Row r of a * b times u is row r of a times b * u. */
  lemma RowTimesProduct(a: Mat, b: Mat, u: Vec4, r: int)
    requires 0 <= r < 4
    ensures var v := MulVector4(b, u);
      RowCol(a, b, r, 0) * u.x + RowCol(a, b, r, 1) * u.y + RowCol(a, b, r, 2) * u.z + RowCol(a, b, r, 3) * u.w
      == a[4 * r] * v.x + a[4 * r + 1] * v.y + a[4 * r + 2] * v.z + a[4 * r + 3] * v.w
  {
  }

  /** A right inverse taken first is undone by the matrix it inverts. */
  lemma RightInverseUndoes(m: Mat, inv: Mat, u: Vec4)
    requires Product(m, inv) == Identity
    ensures MulVector4(m, MulVector4(inv, u)) == u
  {
    MulVector4Product(m, inv, u);
    MulVector4Identity(u);
  }

  /** The value matrix_4x4_set_translation_v leaves in `m`. */
  function WithTranslation(m: Mat, v: Vec3): Mat
  {
    m[3 := v.x][7 := v.y][11 := v.z]
  }

  /** set_translation_v puts v in the last column and changes nothing else. */
  lemma WithTranslationChangesOnlyTranslation(m: Mat, v: Vec3)
    ensures forall i | 0 <= i < 16 && i != 3 && i != 7 && i != 11 :: WithTranslation(m, v)[i] == m[i]
    ensures At(WithTranslation(m, v), 0, 3) == v.x && At(WithTranslation(m, v), 1, 3) == v.y
    ensures At(WithTranslation(m, v), 2, 3) == v.z
  {
  }

  /** The identity with a translation moves every point by that translation. */
  lemma TranslationMovesPoints(v: Vec3, p: Vec3)
    ensures MulVector4(WithTranslation(Identity, v), Vec4(p.x, p.y, p.z, 1.0))
         == Vec4(p.x + v.x, p.y + v.y, p.z + v.z, 1.0)
  {
  }

  /** A translation moves no direction. */
  lemma TranslationKeepsDirections(m: Mat, v: Vec3, d: Vec3)
    ensures MulVector3(WithTranslation(m, v), d) == MulVector3(m, d)
  {
  }

  /** The value matrix_4x4_set_scale leaves in `m`. */
  function WithScale(m: Mat, sx: real, sy: real, sz: real): Mat
  {
    m[0 := sx][5 := sy][10 := sz]
  }

  /** set_scale puts the factors on the diagonal and changes nothing else. */
  lemma WithScaleChangesOnlyDiagonal(m: Mat, sx: real, sy: real, sz: real)
    ensures forall i | 0 <= i < 16 && i != 0 && i != 5 && i != 10 :: WithScale(m, sx, sy, sz)[i] == m[i]
    ensures At(WithScale(m, sx, sy, sz), 0, 0) == sx && At(WithScale(m, sx, sy, sz), 1, 1) == sy
    ensures At(WithScale(m, sx, sy, sz), 2, 2) == sz
  {
  }

  /** The identity with a scale scales every direction component-wise. */
  lemma ScaleScalesDirections(sx: real, sy: real, sz: real, d: Vec3)
    ensures MulVector3(WithScale(Identity, sx, sy, sz), d) == Hadamard(Vec3(sx, sy, sz), d)
  {
  }

  /** matrix_4x4_set_translation_v: writes `_30, _31, _32` only. */
  method SetTranslation(m: array<real>, v: Vec3)
    requires m.Length == 16
    modifies m
    ensures Contents(m) == WithTranslation(old(Contents(m)), v)
  {
    m[3] := v.x;
    m[7] := v.y;
    m[11] := v.z;
  }

  /** matrix_4x4_set_neg_translation_v: writes the negated vector into `_30, _31, _32`. */
  method SetNegTranslation(m: array<real>, v: Vec3)
    requires m.Length == 16
    modifies m
    ensures Contents(m) == WithTranslation(old(Contents(m)), Scaled(v, -1.0))
  {
    m[3] := -v.x;
    m[7] := -v.y;
    m[11] := -v.z;
  }

  /** matrix_4x4_set_scale: writes `_00, _11, _22` only. */
  method SetScale(m: array<real>, sx: real, sy: real, sz: real)
    requires m.Length == 16
    modifies m
    ensures Contents(m) == WithScale(old(Contents(m)), sx, sy, sz)
  {
    m[0] := sx;
    m[5] := sy;
    m[10] := sz;
  }

  /**
   * Writes the four fields `_a0, _a1, _a2, _a3` of `out` (array elements
   * a, a + 4, a + 8, a + 12: column a of the flat view) and nothing else.
   * The source's whole-matrix writers assign their sixteen fields in four
   * such groups; the methods below pass each group's values here, which
   * reads the inputs of a group before writing it. Where that changes the
   * outcome under aliasing the method says so.
   */
  method SetFields(out: array<real>, a: int, x0: real, x1: real, x2: real, x3: real)
    requires out.Length == 16 && 0 <= a < 4
    modifies out
    ensures out[a] == x0 && out[a + 4] == x1 && out[a + 8] == x2 && out[a + 12] == x3
    ensures forall k | 0 <= k < 16 && k % 4 != a :: out[k] == old(out[k])
  {
    out[a] := x0;
    out[a + 4] := x1;
    out[a + 8] := x2;
    out[a + 12] := x3;
  }

  /**
   * matrix_4x4_mul_matrix, for an output distinct from both inputs: field
   * `_aj` of `out` is row j of `m` times column a of `n`, so the result is
   * the ordinary product in the flat view.
   */
  method MulMatrix(m: array<real>, n: array<real>, out: array<real>)
    requires m.Length == 16 && n.Length == 16 && out.Length == 16
    requires out != m && out != n
    modifies out
    ensures Contents(out) == Product(Contents(m), Contents(n))
  {
    var a := Contents(m);
    var b := Contents(n);
    SetFields(out, 0, RowCol(a, b, 0, 0), RowCol(a, b, 1, 0), RowCol(a, b, 2, 0), RowCol(a, b, 3, 0));
    SetFields(out, 1, RowCol(a, b, 0, 1), RowCol(a, b, 1, 1), RowCol(a, b, 2, 1), RowCol(a, b, 3, 1));
    SetFields(out, 2, RowCol(a, b, 0, 2), RowCol(a, b, 1, 2), RowCol(a, b, 2, 2), RowCol(a, b, 3, 2));
    SetFields(out, 3, RowCol(a, b, 0, 3), RowCol(a, b, 1, 3), RowCol(a, b, 2, 3), RowCol(a, b, 3, 3));
  }

  /**
   * matrix_4x4_transpose: field `_ab` of `out` receives field `_ba` of `m`,
   * in the source's order. No group reads a field it has itself written, so
   * the result is as written also when `out` is `m`: then the upper
   * triangle is mirrored onto the lower one.
   */
  method Transpose(m: array<real>, out: array<real>)
    requires m.Length == 16 && out.Length == 16
    modifies out
    ensures out != m ==> Contents(out) == Transposed(old(Contents(m)))
    ensures out == m ==> Contents(out) == MirroredUpper(old(Contents(m)))
  {
    SetFields(out, 0, m[0], m[1], m[2], m[3]);
    SetFields(out, 1, m[4], m[5], m[6], m[7]);
    SetFields(out, 2, m[8], m[9], m[10], m[11]);
    SetFields(out, 3, m[12], m[13], m[14], m[15]);
  }

  /**
   * The value matrix_4x4_invert_tr writes: the transposed upper 3x3 block,
   * zeros in `_03, _13, _23`, the translation `_30, _31, _32` of `m` mapped
   * through that transposed block (each column of the block dotted with the
   * translation) and negated, and 1 in `_33`. The bottom
   * row and `_33` of `m` are not read.
   */
  function RigidInverse(m: Mat): Mat
  {
    var t := Vec3(m[3], m[7], m[11]);
    var s := Vec3(Dot(Vec3(m[0], m[4], m[8]), t), Dot(Vec3(m[1], m[5], m[9]), t), Dot(Vec3(m[2], m[6], m[10]), t));
    [m[0], m[4], m[8], -s.x,
     m[1], m[5], m[9], -s.y,
     m[2], m[6], m[10], -s.z,
     0.0, 0.0, 0.0, 1.0]
  }

  /**
   * matrix_4x4_invert_tr. The translation is read before anything is
   * written; the product with the transposed block reads the entries just
   * written to `out`. When `out` is `m`, the second and third groups read
   * fields the first groups overwrote, so the block that gets inverted is
   * the upper triangle of `m` mirrored.
   */
  method InvertTR(m: array<real>, out: array<real>)
    requires m.Length == 16 && out.Length == 16
    modifies out
    ensures out != m ==> Contents(out) == RigidInverse(old(Contents(m)))
    ensures out == m ==> Contents(out) == RigidInverse(MirroredUpper(old(Contents(m))))
  {
    var t := Vec3(m[3], m[7], m[11]);
    SetFields(out, 0, m[0], m[1], m[2], 0.0);
    SetFields(out, 1, m[4], m[5], m[6], 0.0);
    SetFields(out, 2, m[8], m[9], m[10], 0.0);
    var s := MulVector3(Contents(out), t);
    MulVector3Rows(Contents(out), t);
    SetFields(out, 3, -s.x, -s.y, -s.z, 1.0);
  }

  /** invert_tr transposes the upper 3x3 block and writes 0 0 0 1 as the bottom row. */
  lemma RigidInverseShape(m: Mat)
    ensures var r := RigidInverse(m);
      At(r, 3, 0) == 0.0 && At(r, 3, 1) == 0.0 && At(r, 3, 2) == 0.0 && At(r, 3, 3) == 1.0
    ensures forall i, j | 0 <= i < 3 && 0 <= j < 3 :: At(RigidInverse(m), i, j) == At(m, j, i)
  {
    var r := RigidInverse(m);
    forall i, j | 0 <= i < 3 && 0 <= j < 3
      ensures At(r, i, j) == At(m, j, i)
    {
      assert i == 0 || i == 1 || i == 2;
      assert j == 0 || j == 1 || j == 2;
    }
  }

  /** The upper 3x3 block has orthonormal rows. */
  predicate OrthonormalBlock(m: Mat)
  {
    var r0 := Vec3(m[0], m[1], m[2]);
    var r1 := Vec3(m[4], m[5], m[6]);
    var r2 := Vec3(m[8], m[9], m[10]);
    Dot(r0, r0) == 1.0 && Dot(r1, r1) == 1.0 && Dot(r2, r2) == 1.0 &&
    Dot(r0, r1) == 0.0 && Dot(r0, r2) == 0.0 && Dot(r1, r2) == 0.0
  }

  /** A rotation followed by a translation: orthonormal block, bottom row 0 0 0 1. */
  predicate RigidTransform(m: Mat)
  {
    OrthonormalBlock(m) && m[12] == 0.0 && m[13] == 0.0 && m[14] == 0.0 && m[15] == 1.0
  }

  /** For a rotation-plus-translation, invert_tr gives a right inverse. */
  lemma RigidInverseIsInverse(m: Mat)
    requires RigidTransform(m)
    ensures Product(m, RigidInverse(m)) == Identity
  {
    var p := Product(m, RigidInverse(m));
    RigidInverseRow0(m);
    RigidInverseRow1(m);
    RigidInverseRow2(m);
    assert p[12] == 0.0 && p[13] == 0.0 && p[14] == 0.0 && p[15] == 1.0;
    assert p == Identity;
  }

  /** Row 0 of m * RigidInverse(m) is row 0 of the identity. */
  lemma RigidInverseRow0(m: Mat)
    requires OrthonormalBlock(m)
    ensures var p := Product(m, RigidInverse(m));
      p[0] == Identity[0] && p[1] == Identity[1] && p[2] == Identity[2] && p[3] == Identity[3]
  {
    var r0 := Vec3(m[0], m[1], m[2]);
    var r1 := Vec3(m[4], m[5], m[6]);
    var r2 := Vec3(m[8], m[9], m[10]);
    var t := Vec3(m[3], m[7], m[11]);
    TranslationColumn(r0, r1, r2, t);
  }

  /** Row 1 of m * RigidInverse(m) is row 1 of the identity. */
  lemma RigidInverseRow1(m: Mat)
    requires OrthonormalBlock(m)
    ensures var p := Product(m, RigidInverse(m));
      p[4] == Identity[4] && p[5] == Identity[5] && p[6] == Identity[6] && p[7] == Identity[7]
  {
    var r0 := Vec3(m[0], m[1], m[2]);
    var r1 := Vec3(m[4], m[5], m[6]);
    var r2 := Vec3(m[8], m[9], m[10]);
    var t := Vec3(m[3], m[7], m[11]);
    TranslationColumn(r1, r0, r2, Vec3(t.y, t.x, t.z));
  }

  /** Row 2 of m * RigidInverse(m) is row 2 of the identity. */
  lemma RigidInverseRow2(m: Mat)
    requires OrthonormalBlock(m)
    ensures var p := Product(m, RigidInverse(m));
      p[8] == Identity[8] && p[9] == Identity[9] && p[10] == Identity[10] && p[11] == Identity[11]
  {
    var r0 := Vec3(m[0], m[1], m[2]);
    var r1 := Vec3(m[4], m[5], m[6]);
    var r2 := Vec3(m[8], m[9], m[10]);
    var t := Vec3(m[3], m[7], m[11]);
    TranslationColumn(r2, r0, r1, Vec3(t.z, t.x, t.y));
  }

  /** One entry of the translation column of m * RigidInverse(m). */
  lemma TranslationColumn(a: Vec3, b: Vec3, c: Vec3, t: Vec3)
    requires Dot(a, a) == 1.0 && Dot(a, b) == 0.0 && Dot(a, c) == 0.0
    ensures a.x * (t.x * a.x + t.y * b.x + t.z * c.x)
          + a.y * (t.x * a.y + t.y * b.y + t.z * c.y)
          + a.z * (t.x * a.z + t.y * b.z + t.z * c.z) == t.x
  {
    calc {
      a.x * (t.x * a.x + t.y * b.x + t.z * c.x)
        + a.y * (t.x * a.y + t.y * b.y + t.z * c.y)
        + a.z * (t.x * a.z + t.y * b.z + t.z * c.z);
      t.x * Dot(a, a) + t.y * Dot(a, b) + t.z * Dot(a, c);
      t.x;
    }
  }

  /** invert_tr reads nothing from the bottom row of its input. */
  lemma RigidInverseIgnoresBottomRow(m: Mat, x: real, y: real, z: real, w: real)
    ensures RigidInverse(m[12 := x][13 := y][14 := z][15 := w]) == RigidInverse(m)
  {
  }
}
