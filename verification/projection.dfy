/**
 * Projection and camera matrices of the transform library (3d.c):
 * matrix_4x4_project_frustum, matrix_4x4_perspective_projection,
 * matrix_4x4_set_orthographic_projection, clip_to_eye_coordinates,
 * eye_to_world_coordinates, look_at_r and look_at_l.
 *
 * Divisions by zero, which C evaluates to infinities or NaN, are excluded by
 * preconditions: `real` has no such values.
 */
module Projection {
  import opened Scalar
  import opened Vectors
  import opened Matrices
  import opened Inverse

  /** Perspective of 3d.h; `kind` is the struct's `type` field. */
  datatype Perspective = Perspective(
    kind: int,
    fov: real,
    near: real,
    far: real,
    viewAspect: real,
    viewOoAspect: real,
    orthoScaleX: real,
    orthoScaleY: real)

  /**
   * A matrix with the eight elements matrix_4x4_project_frustum writes
   * (`_00, _11, _20, _21, _22, _23, _32, _33`: elements 0, 5, 2, 6, 10, 14, 11,
   * 15) set, `_23` to -1 and `_33` to 0, and the other eight as in `m`.
   */
  function FrustumWritten(m: Mat, x00: real, x11: real, x20: real, x21: real, x22: real, x32: real): (x: Mat)
    ensures forall i | 0 <= i < 16 && i != 0 && i != 5 && i != 2 && i != 6 && i != 10 && i != 14 && i != 11 && i != 15 ::
      x[i] == m[i]
  {
    [x00, m[1], x20, m[3],
     m[4], x11, x21, m[7],
     m[8], m[9], x22, x32,
     m[12], m[13], -1.0, 0.0]
  }

  /**
   * The value matrix_4x4_project_frustum leaves in `m`: the eight entries
   * it does not write keep their values.
   */
  function WithFrustum(m: Mat, l: real, r: real, b: real, t: real, n: real, f: real): (x: Mat)
    requires r != l && t != b && f != n
    ensures forall i | 0 <= i < 16 && i != 0 && i != 5 && i != 2 && i != 6 && i != 10 && i != 14 && i != 11 && i != 15 ::
      x[i] == m[i]
  {
    FrustumWritten(m, 2.0 * n / (r - l), 2.0 * n / (t - b), (r + l) / (r - l), (t + b) / (t - b),
      -(f + n) / (f - n), -(f * (2.0 * n)) / (f - n))
  }

  /** matrix_4x4_project_frustum, in the source's order of writes. */
  method ProjectFrustum(m: array<real>, l: real, r: real, b: real, t: real, n: real, f: real)
    requires m.Length == 16
    requires r != l && t != b && f != n
    modifies m
    ensures Contents(m) == WithFrustum(old(Contents(m)), l, r, b, t, n, f)
  {
    // The source names r - l, t - b, f - n and 2 n; they are written out here
    // so that the values match WithFrustum term for term.
    WriteFrustum(m, 2.0 * n / (r - l), 2.0 * n / (t - b), (r + l) / (r - l), (t + b) / (t - b),
      -(f + n) / (f - n), -(f * (2.0 * n)) / (f - n));
  }

  /** The eight assignments of matrix_4x4_project_frustum, given their values. */
  method WriteFrustum(m: array<real>, x00: real, x11: real, x20: real, x21: real, x22: real, x32: real)
    requires m.Length == 16
    modifies m
    ensures Contents(m) == FrustumWritten(old(Contents(m)), x00, x11, x20, x21, x22, x32)
  {
    SetEntries(m, 0, x00, 5, x11, 2, x20, 6, x21);
    SetEntries(m, 10, x22, 14, -1.0, 11, x32, 15, 0.0);
  }

  /** Four assignments to distinct elements, in the order given. */
  method SetEntries(m: array<real>, i0: int, x0: real, i1: int, x1: real, i2: int, x2: real, i3: int, x3: real)
    requires m.Length == 16
    requires 0 <= i0 < 16 && 0 <= i1 < 16 && 0 <= i2 < 16 && 0 <= i3 < 16
    requires i0 != i1 && i0 != i2 && i0 != i3 && i1 != i2 && i1 != i3 && i2 != i3
    modifies m
    ensures m[i0] == x0 && m[i1] == x1 && m[i2] == x2 && m[i3] == x3
    ensures forall k | 0 <= k < 16 && k != i0 && k != i1 && k != i2 && k != i3 :: m[k] == old(m[k])
  {
    m[i0] := x0;
    m[i1] := x1;
    m[i2] := x2;
    m[i3] := x3;
  }

  /**
   * Whatever the eight entries matrix_4x4_project_frustum leaves alone hold,
   * the point straight ahead on the near plane goes to clip depth -n with
   * w = n and the one on the far plane to depth f with w = f, so their
   * normalized depths are -1 and 1: the depth mapping of glFrustum (section
   * 2.11.2 of the OpenGL 2.1 specification).
   */
  lemma FrustumDepth(m: Mat, l: real, r: real, b: real, t: real, n: real, f: real)
    requires r != l && t != b && f != n
    ensures var p := MulVector4(WithFrustum(m, l, r, b, t, n, f), Vec4(0.0, 0.0, -n, 1.0)); p.z == -n && p.w == n
    ensures var p := MulVector4(WithFrustum(m, l, r, b, t, n, f), Vec4(0.0, 0.0, -f, 1.0)); p.z == f && p.w == f
  {
    FrustumDepthTerms(n, f);
  }

  /** The two depth values of the frustum's third row, simplified. */
  lemma FrustumDepthTerms(n: real, f: real)
    requires f != n
    ensures (-n) * (-(f + n) / (f - n)) + -(f * (2.0 * n)) / (f - n) == -n
    ensures (-f) * (-(f + n) / (f - n)) + -(f * (2.0 * n)) / (f - n) == f
  {
    var zd := f - n;
    assert (-n) * (-(f + n) / zd) + -(f * (2.0 * n)) / zd == (n * (f + n) - 2.0 * f * n) / zd;
    assert n * (f + n) - 2.0 * f * n == -n * zd;
    assert (-f) * (-(f + n) / zd) + -(f * (2.0 * n)) / zd == (f * (f + n) - 2.0 * f * n) / zd;
    assert f * (f + n) - 2.0 * f * n == f * zd;
  }

  /**
   * Built on the identity, as setup_perspective does, the frustum maps the
   * whole near plane to clip depth -n with w = n and the whole far plane to
   * depth f with w = f: normalized depths -1 and 1 at every x and y.
   */
  lemma FrustumDepthPlanes(l: real, r: real, b: real, t: real, n: real, f: real, x: real, y: real)
    requires r != l && t != b && f != n
    ensures var p := MulVector4(WithFrustum(Identity, l, r, b, t, n, f), Vec4(x, y, -n, 1.0));
      p.z == -n && p.w == n
    ensures var p := MulVector4(WithFrustum(Identity, l, r, b, t, n, f), Vec4(x, y, -f, 1.0));
      p.z == f && p.w == f
  {
    var m := WithFrustum(Identity, l, r, b, t, n, f);
    assert m[8] == 0.0 && m[9] == 0.0 && m[12] == 0.0 && m[13] == 0.0;
    FrustumDepthTerms(n, f);
  }

  /**
   * Built on the identity, as setup_perspective does, the frustum maps the
   * lower-left and upper-right corners of the near rectangle to x, y = -n
   * and x, y = n with w = n: normalized coordinates -1 and 1.
   */
  lemma FrustumNearCorners(l: real, r: real, b: real, t: real, n: real, f: real)
    requires r != l && t != b && f != n
    ensures var p := MulVector4(WithFrustum(Identity, l, r, b, t, n, f), Vec4(l, b, -n, 1.0));
      p.x == -n && p.y == -n && p.w == n
    ensures var p := MulVector4(WithFrustum(Identity, l, r, b, t, n, f), Vec4(r, t, -n, 1.0));
      p.x == n && p.y == n && p.w == n
  {
    var xd := r - l;
    var yd := t - b;
    var x := WithFrustum(Identity, l, r, b, t, n, f);
    assert x[0] == 2.0 * n / xd && x[1] == 0.0 && x[2] == (r + l) / xd && x[3] == 0.0;
    assert x[4] == 0.0 && x[5] == 2.0 * n / yd && x[6] == (t + b) / yd && x[7] == 0.0;
    assert l * (2.0 * n / xd) + (-n) * ((r + l) / xd) == n * (l - r) / xd;
    assert r * (2.0 * n / xd) + (-n) * ((r + l) / xd) == n * (r - l) / xd;
    assert b * (2.0 * n / yd) + (-n) * ((t + b) / yd) == n * (b - t) / yd;
    assert t * (2.0 * n / yd) + (-n) * ((t + b) / yd) == n * (t - b) / yd;
  }

  /** The half-width of the near rectangle: near * tan(fov / 2). */
  function HalfWidth(lib: MathLib, p: Perspective): real
  {
    p.near * lib.tan(0.5 * p.fov)
  }

  /** Whether matrix_4x4_perspective_projection divides only by non-zero values. */
  predicate PerspectiveDefined(lib: MathLib, p: Perspective)
  {
    p.viewAspect != 0.0 && HalfWidth(lib, p) != 0.0 && p.far != p.near
  }

  /**
   * The value matrix_4x4_perspective_projection leaves in `m`: the frustum
   * with r = near * tan(fov / 2), l = -r, b = l / aspect, t = r / aspect.
   * The rectangle is centred, so `_20` and `_21` are always 0.
   */
  function PerspectiveMatrix(lib: MathLib, p: Perspective, m: Mat): (x: Mat)
    requires PerspectiveDefined(lib, p)
    ensures x[2] == 0.0 && x[6] == 0.0
    ensures x[14] == -1.0 && x[15] == 0.0
  {
    var r := HalfWidth(lib, p);
    var l := -r;
    var b := l / p.viewAspect;
    var t := r / p.viewAspect;
    assert t - b == 2.0 * r / p.viewAspect;
    assert r + l == 0.0 && t + b == 0.0;
    WithFrustum(m, l, r, b, t, p.near, p.far)
  }

  /** matrix_4x4_perspective_projection. */
  method PerspectiveProjection(lib: MathLib, p: Perspective, m: array<real>)
    requires m.Length == 16
    requires PerspectiveDefined(lib, p)
    modifies m
    ensures Contents(m) == PerspectiveMatrix(lib, p, old(Contents(m)))
  {
    var r := HalfWidth(lib, p);
    var l := -r;
    var b := l / p.viewAspect;
    var t := r / p.viewAspect;
    assert t - b == 2.0 * r / p.viewAspect;
    ProjectFrustum(m, l, r, b, t, p.near, p.far);
  }

  /**
   * The value matrix_4x4_set_orthographic_projection writes: all sixteen
   * fields, with the scale factors on the diagonal and the offsets in
   * `_03, _13, _23` (elements 12, 13, 14, the bottom row of the flat view).
   */
  function Orthographic(near: real, far: real, left: real, right: real, top: real, bottom: real): Mat
    requires right != left && top != bottom && far != near
  {
    [2.0 / (right - left), 0.0, 0.0, 0.0,
     0.0, 2.0 / (top - bottom), 0.0, 0.0,
     0.0, 0.0, -2.0 / (far - near), 0.0,
     -((right + left) / (right - left)), -((top + bottom) / (top - bottom)), -((far + near) / (far - near)), 1.0]
  }

  /** matrix_4x4_set_orthographic_projection: sets every field of `out`. */
  method SetOrthographic(out: array<real>, near: real, far: real, left: real, right: real, top: real, bottom: real)
    requires out.Length == 16
    requires right != left && top != bottom && far != near
    modifies out
    ensures Contents(out) == Orthographic(near, far, left, right, top, bottom)
  {
    SetFields(out, 0, 2.0 / (right - left), 0.0, 0.0, -((right + left) / (right - left)));
    SetFields(out, 1, 0.0, 2.0 / (top - bottom), 0.0, -((top + bottom) / (top - bottom)));
    SetFields(out, 2, 0.0, 0.0, -2.0 / (far - near), -((far + near) / (far - near)));
    SetFields(out, 3, 0.0, 0.0, 0.0, 1.0);
  }

  /**
   * With its offsets in the bottom row, the orthographic matrix is the
   * transpose of glOrtho's: it is the transpose that maps the corners of
   * the box (left, bottom, -near) and (right, top, -far) to the corners of
   * the unit cube.
   */
  lemma OrthographicTransposeMapsBox(near: real, far: real, left: real, right: real, top: real, bottom: real)
    requires right != left && top != bottom && far != near
    ensures MulVector4(Transposed(Orthographic(near, far, left, right, top, bottom)), Vec4(left, bottom, -near, 1.0))
         == Vec4(-1.0, -1.0, -1.0, 1.0)
    ensures MulVector4(Transposed(Orthographic(near, far, left, right, top, bottom)), Vec4(right, top, -far, 1.0))
         == Vec4(1.0, 1.0, 1.0, 1.0)
  {
    var xd := right - left;
    var yd := top - bottom;
    var zd := far - near;
    assert left * (2.0 / xd) - (right + left) / xd == (left - right) / xd;
    assert right * (2.0 / xd) - (right + left) / xd == (right - left) / xd;
    assert bottom * (2.0 / yd) - (top + bottom) / yd == (bottom - top) / yd;
    assert top * (2.0 / yd) - (top + bottom) / yd == (top - bottom) / yd;
    assert (-near) * (-2.0 / zd) - (far + near) / zd == (near - far) / zd;
    assert (-far) * (-2.0 / zd) - (far + near) / zd == (far - near) / zd;
  }

  /**
   * Applied as it stands (X * v), the orthographic matrix moves no point:
   * its translation column is 0 and the offsets only reach w.
   */
  lemma OrthographicKeepsOrigin(near: real, far: real, left: real, right: real, top: real, bottom: real)
    requires right != left && top != bottom && far != near
    ensures MulVector4(Orthographic(near, far, left, right, top, bottom), Vec4(0.0, 0.0, 0.0, 1.0))
         == Vec4(0.0, 0.0, 0.0, 1.0)
  {
  }

  /** The xyz part of a 4-vector. */
  function Xyz(v: Vec4): Vec3
  {
    Vec3(v.x, v.y, v.z)
  }

  /**
   * clip_to_eye_coordinates: `u` through the rigid-body inverse of the
   * projection, then pointed into the screen as a direction (z = -1,
   * w = 0). Only the upper 3x3 block and the translation column of the
   * projection are read.
   */
  function ClipToEye(projection: Mat, u: Vec4): Vec4
  {
    var v := MulVector4(RigidInverse(projection), u);
    Vec4(v.x, v.y, -1.0, 0.0)
  }

  /**
   * clip_to_eye_coordinates ignores the projection's bottom row, where a
   * perspective projection keeps its -1 (`_23`).
   */
  lemma ClipToEyeIgnoresBottomRow(projection: Mat, u: Vec4, x: real, y: real, z: real, w: real)
    ensures ClipToEye(projection[12 := x][13 := y][14 := z][15 := w], u) == ClipToEye(projection, u)
  {
    RigidInverseIgnoresBottomRow(projection, x, y, z, w);
  }

  /**
   * When the matrix passed in is a rotation plus a translation, the x and y
   * clip_to_eye_coordinates returns are those of the point the matrix maps
   * to `u`: invert_tr undoes exactly such matrices.
   */
  lemma ClipToEyeUndoesRigid(projection: Mat, u: Vec4)
    requires RigidTransform(projection)
    ensures var r := ClipToEye(projection, u);
      var v := MulVector4(RigidInverse(projection), u);
      MulVector4(projection, Vec4(r.x, r.y, v.z, v.w)) == u
  {
    RigidInverseIsInverse(projection);
    RightInverseUndoes(projection, RigidInverse(projection), u);
  }

  /**
   * The shape matrix_4x4_project_frustum gives the identity when the near
   * rectangle is centred left to right (l = -r): `_00` is the only entry of
   * the x row, the bottom row is 0 0 -1 0, and the x column and the
   * translation column hold nothing else.
   */
  predicate CentredFrustum(p: Mat)
  {
    p[1] == 0.0 && p[2] == 0.0 && p[3] == 0.0 && p[4] == 0.0 && p[7] == 0.0 &&
    p[8] == 0.0 && p[9] == 0.0 && p[12] == 0.0 && p[13] == 0.0 && p[14] == -1.0 && p[15] == 0.0
  }

  /**
   * A frustum with l = -r built on the identity has that shape, its x scale
   * `_00` is n / r, and with non-zero near and far distances `_00`, `_11`
   * and `_32` are all non-zero.
   */
  lemma CentredFrustumShape(l: real, r: real, b: real, t: real, n: real, f: real)
    requires r != l && t != b && f != n && l == -r
    ensures var p := WithFrustum(Identity, l, r, b, t, n, f);
      CentredFrustum(p) && p[0] == n / r &&
      (n != 0.0 && f != 0.0 ==> p[0] != 0.0 && p[5] != 0.0 && p[11] != 0.0)
  {
    var p := WithFrustum(Identity, l, r, b, t, n, f);
    assert p[0] == 2.0 * n / (r - l);
    assert p[11] == -(f * (2.0 * n)) / (f - n);
    if n != 0.0 && f != 0.0 {
      MulNonZero(f, 2.0 * n);
    }
  }

  /**
   * A perspective projection is not a rotation plus a translation, and
   * invert_tr does not undo it. On a centred frustum the x that
   * clip_to_eye_coordinates returns is the clip x times the x scale `_00`,
   * where undoing the projection divides by it, and the projection takes
   * that point to the clip x times the square of the scale. With l = -0.5,
   * r = 0.5 and n = 1 the scale is 2, and the right edge of the near plane,
   * clip x = 1, comes back as 2 and is projected to 4.
   */
  lemma ClipToEyeMultipliesScale(p: Mat, u: Vec4)
    requires CentredFrustum(p)
    ensures ClipToEye(p, u).x == p[0] * u.x
    ensures MulVector4(p, MulVector4(RigidInverse(p), u)).x == p[0] * p[0] * u.x
  {
    var v := MulVector4(RigidInverse(p), u);
    assert v.x == p[0] * u.x;
  }

  /**
   * clip_to_eye_coordinates as evidently intended: `u` through the general
   * inverse of the projection (the adjugate over the determinant, as
   * matrix_4x4_invert computes it), so that the projection maps the point
   * it keeps x and y of back to `u`.
   */
  function ClipToEyeIntended(projection: Mat, u: Vec4): (r: Vec4)
    requires Det(projection) != 0.0
    ensures r.z == -1.0 && r.w == 0.0
    ensures var v := MulVector4(ScaledMat(Adjugate(projection), 1.0 / Det(projection)), u);
      MulVector4(projection, v) == u && r.x == v.x && r.y == v.y
  {
    var inv := ScaledMat(Adjugate(projection), 1.0 / Det(projection));
    InverseIsInverse(projection);
    RightInverseUndoes(projection, inv, u);
    var v := MulVector4(inv, u);
    Vec4(v.x, v.y, -1.0, 0.0)
  }

  /**
   * On a centred frustum with non-zero `_00`, `_11` and `_32` the intended
   * version divides the x scale out: with the frustum of
   * ClipToEyeMultipliesScale the right edge of the near plane comes back as
   * x = 0.5, which is r / n, the edge of the frustum one unit in front of
   * the eye.
   */
  lemma ClipToEyeIntendedDividesScale(p: Mat, u: Vec4)
    requires CentredFrustum(p) && p[0] != 0.0 && p[5] != 0.0 && p[11] != 0.0
    ensures Det(p) != 0.0 && p[0] * ClipToEyeIntended(p, u).x == u.x
  {
    CentredFrustumDet(p);
    MulNonZero(p[0], p[5]);
    MulNonZero(p[0] * p[5], p[11]);
  }

  /**
   * The input of the finding: the frustum l = b = -0.5, r = t = 0.5, n = 1,
   * f = 3 on the identity, whose x scale is 2, and the clip point
   * (1, 0, -1, 1) at the right edge of its near plane.
   * clip_to_eye_coordinates returns x = 2.
   */
  lemma ClipToEyeSample()
    ensures var p := WithFrustum(Identity, -0.5, 0.5, -0.5, 0.5, 1.0, 3.0);
      p[0] == 2.0 && ClipToEye(p, Vec4(1.0, 0.0, -1.0, 1.0)).x == 2.0
  {
    var p := WithFrustum(Identity, -0.5, 0.5, -0.5, 0.5, 1.0, 3.0);
    CentredFrustumShape(-0.5, 0.5, -0.5, 0.5, 1.0, 3.0);
    ClipToEyeMultipliesScale(p, Vec4(1.0, 0.0, -1.0, 1.0));
  }

  /** On the same input the intended version returns x = 0.5, which is r / n. */
  lemma ClipToEyeIntendedSample()
    ensures var p := WithFrustum(Identity, -0.5, 0.5, -0.5, 0.5, 1.0, 3.0);
      Det(p) != 0.0 && ClipToEyeIntended(p, Vec4(1.0, 0.0, -1.0, 1.0)).x == 0.5
  {
    var p := WithFrustum(Identity, -0.5, 0.5, -0.5, 0.5, 1.0, 3.0);
    CentredFrustumShape(-0.5, 0.5, -0.5, 0.5, 1.0, 3.0);
    ClipToEyeIntendedDividesScale(p, Vec4(1.0, 0.0, -1.0, 1.0));
  }

  /** The determinant of a centred frustum: the product of `_00`, `_11` and `_32`. */
  lemma CentredFrustumDet(p: Mat)
    requires CentredFrustum(p)
    ensures Det(p) == p[0] * p[5] * p[11]
  {
  }

  /**
   * eye_to_world_coordinates: `u` through the rigid-body inverse of the
   * view, its xyz part normalized.
   */
  function EyeToWorld(lib: MathLib, view: Mat, u: Vec4): Vec3
  {
    Normalized(lib, Xyz(MulVector4(RigidInverse(view), u)))
  }

  /**
   * A direction (w = 0) taken through the transposed block keeps its
   * squared length when the block's rows are orthonormal, and the block
   * maps it back.
   */
  lemma TransposedBlockDirection(view: Mat, e: Vec3)
    requires OrthonormalBlock(view)
    ensures var d := Xyz(MulVector4(RigidInverse(view), Vec4(e.x, e.y, e.z, 0.0)));
      Dot(d, d) == Dot(e, e) && MulVector3(view, d) == e
  {
    var r0 := Vec3(view[0], view[1], view[2]);
    var r1 := Vec3(view[4], view[5], view[6]);
    var r2 := Vec3(view[8], view[9], view[10]);
    var d := Xyz(MulVector4(RigidInverse(view), Vec4(e.x, e.y, e.z, 0.0)));
    assert d == Add(Add(Scaled(r0, e.x), Scaled(r1, e.y)), Scaled(r2, e.z));
    DirectionCombination(r0, r1, r2, e);
  }

  /** The combination x r0 + y r1 + z r2 of orthonormal rows. */
  lemma DirectionCombination(r0: Vec3, r1: Vec3, r2: Vec3, e: Vec3)
    requires Dot(r0, r0) == 1.0 && Dot(r1, r1) == 1.0 && Dot(r2, r2) == 1.0
    requires Dot(r0, r1) == 0.0 && Dot(r0, r2) == 0.0 && Dot(r1, r2) == 0.0
    ensures var d := Add(Add(Scaled(r0, e.x), Scaled(r1, e.y)), Scaled(r2, e.z));
      Dot(d, d) == Dot(e, e) && Dot(r0, d) == e.x && Dot(r1, d) == e.y && Dot(r2, d) == e.z
  {
    var d := Add(Add(Scaled(r0, e.x), Scaled(r1, e.y)), Scaled(r2, e.z));
    CombinationDot(r0, r1, r2, r0, e, d);
    CombinationDot(r0, r1, r2, r1, e, d);
    CombinationDot(r0, r1, r2, r2, e, d);
    CombinationDot(r0, r1, r2, d, e, d);
  }

  /** Dotting a combination of three vectors distributes over it. */
  lemma CombinationDot(r0: Vec3, r1: Vec3, r2: Vec3, u: Vec3, e: Vec3, d: Vec3)
    requires d == Add(Add(Scaled(r0, e.x), Scaled(r1, e.y)), Scaled(r2, e.z))
    ensures Dot(u, d) == e.x * Dot(u, r0) + e.y * Dot(u, r1) + e.z * Dot(u, r2)
  {
    DistributeDot(u.x, u.y, u.z, r0.x, r0.y, r0.z, r1.x, r1.y, r1.z, r2.x, r2.y, r2.z, e.x, e.y, e.z, d.x, d.y, d.z);
  }

  lemma DistributeDot(
    u0: real, u1: real, u2: real, a0: real, a1: real, a2: real, b0: real, b1: real, b2: real,
    c0: real, c1: real, c2: real, x: real, y: real, z: real, d0: real, d1: real, d2: real)
    requires d0 == a0 * x + b0 * y + c0 * z
    requires d1 == a1 * x + b1 * y + c1 * z
    requires d2 == a2 * x + b2 * y + c2 * z
    ensures u0 * d0 + u1 * d1 + u2 * d2
         == x * (u0 * a0 + u1 * a1 + u2 * a2) + y * (u0 * b0 + u1 * b1 + u2 * b2) + z * (u0 * c0 + u1 * c1 + u2 * c2)
  {
  }

  /**
   * For a view whose block has orthonormal rows, eye_to_world_coordinates
   * turns an eye-space direction into the world direction that the view
   * maps back onto the normalized eye direction.
   */
  lemma EyeToWorldInvertsView(lib: MathLib, view: Mat, e: Vec3)
    requires OrthonormalBlock(view)
    ensures MulVector3(view, EyeToWorld(lib, view, Vec4(e.x, e.y, e.z, 0.0))) == Normalized(lib, e)
  {
    var d := Xyz(MulVector4(RigidInverse(view), Vec4(e.x, e.y, e.z, 0.0)));
    TransposedBlockDirection(view, e);
    NormalizedImage(lib, view, d, e);
  }

  /** A block that maps `d` to `e` of the same length maps their normalized forms likewise. */
  lemma NormalizedImage(lib: MathLib, view: Mat, d: Vec3, e: Vec3)
    requires Dot(d, d) == Dot(e, e) && MulVector3(view, d) == e
    ensures MulVector3(view, Normalized(lib, d)) == Normalized(lib, e)
  {
    var len := Length(lib, e);
    assert Length(lib, d) == len;
    if len != 0.0 {
      MulVector3Divided(view, d, len);
    }
  }

  /** The block product commutes with dividing the vector by a non-zero scalar. */
  lemma MulVector3Divided(m: Mat, v: Vec3, s: real)
    requires s != 0.0
    ensures var w := MulVector3(m, v);
      MulVector3(m, Vec3(v.x / s, v.y / s, v.z / s)) == Vec3(w.x / s, w.y / s, w.z / s)
  {
    DivideSum(v.x, v.y, v.z, m[0], m[1], m[2], s);
    DivideSum(v.x, v.y, v.z, m[4], m[5], m[6], s);
    DivideSum(v.x, v.y, v.z, m[8], m[9], m[10], s);
  }

  lemma DivideSum(x: real, y: real, z: real, a: real, b: real, c: real, s: real)
    requires s != 0.0
    ensures (x / s) * a + (y / s) * b + (z / s) * c == (x * a + y * b + z * c) / s
  {
  }
}
