/**
 * The two view-matrix builders of the transform library (3d.c): look_at_r,
 * which fills a rotation from a view direction and inverts it with
 * matrix_4x4_invert_tr, and look_at_l, which writes a left-handed view
 * matrix directly from an eye point and a target point.
 */
module LookAt {
  import opened Scalar
  import opened Vectors
  import opened Matrices

  /**
   * The matrix `rot` that look_at_r fills before inverting it. `at` is used
   * as a direction: the rows of the flat view are the right vector, the
   * up axis and -at, each with a 0 in the translation column, and `eye`
   * goes to the bottom row (`_03, _13, _23`).
   */
  function LookAtRotation(lib: MathLib, eye: Vec3, at: Vec3, up: Vec3): Mat
  {
    var right := Normalized(lib, Cross(at, up));
    BasisRotation(eye, right, Cross(right, at), at)
  }

  /** `rot` for given right and axis vectors. */
  function BasisRotation(eye: Vec3, right: Vec3, axis: Vec3, at: Vec3): Mat
  {
    [right.x, right.y, right.z, 0.0,
     axis.x, axis.y, axis.z, 0.0,
     -at.x, -at.y, -at.z, 0.0,
     eye.x, eye.y, eye.z, 1.0]
  }

  /** look_at_r: fills `rot` and writes its rigid-body inverse to `out`. */
  method LookAtR(lib: MathLib, eye: Vec3, at: Vec3, up: Vec3, out: array<real>)
    requires out.Length == 16
    modifies out
    ensures Contents(out) == RigidInverse(LookAtRotation(lib, eye, at, up))
  {
    var right := Cross(at, up);
    right := Normalized(lib, right);
    var axis := Cross(right, at);
    var rot := new real[16];
    FillRotation(rot, eye, right, axis, at);
    InvertTR(rot, out);
  }

  /** The sixteen assignments to `rot` in look_at_r. */
  method FillRotation(rot: array<real>, eye: Vec3, right: Vec3, axis: Vec3, at: Vec3)
    requires rot.Length == 16
    modifies rot
    ensures Contents(rot) == BasisRotation(eye, right, axis, at)
  {
    SetFields(rot, 0, right.x, axis.x, -at.x, eye.x);
    SetFields(rot, 1, right.y, axis.y, -at.y, eye.y);
    SetFields(rot, 2, right.z, axis.z, -at.z, eye.z);
    SetFields(rot, 3, 0.0, 0.0, 0.0, 1.0);
  }

  /**
   * matrix_4x4_invert_tr reads the translation from `_30, _31, _32`, which
   * look_at_r set to 0, so the result has no translation either.
   */
  lemma LookAtRHasNoTranslation(lib: MathLib, eye: Vec3, at: Vec3, up: Vec3)
    ensures var v := RigidInverse(LookAtRotation(lib, eye, at, up));
      v[3] == 0.0 && v[7] == 0.0 && v[11] == 0.0
  {
    var right := Normalized(lib, Cross(at, up));
    ZeroTranslationInverse(BasisRotation(eye, right, Cross(right, at), at));
  }

  lemma ZeroTranslationInverse(m: Mat)
    requires m[3] == 0.0 && m[7] == 0.0 && m[11] == 0.0
    ensures var v := RigidInverse(m); v[3] == 0.0 && v[7] == 0.0 && v[11] == 0.0
  {
  }

  /** look_at_r's result does not depend on the eye point. */
  lemma LookAtRIgnoresEye(lib: MathLib, eye: Vec3, eye': Vec3, at: Vec3, up: Vec3)
    ensures RigidInverse(LookAtRotation(lib, eye, at, up)) == RigidInverse(LookAtRotation(lib, eye', at, up))
  {
    var m := LookAtRotation(lib, eye, at, up);
    assert LookAtRotation(lib, eye', at, up) == m[12 := eye'.x][13 := eye'.y][14 := eye'.z][15 := 1.0];
    RigidInverseIgnoresBottomRow(m, eye'.x, eye'.y, eye'.z, 1.0);
  }

  /**
   * For a unit direction `at` not parallel to `up`, with a square root
   * exact on |at x up|^2, the rows right, axis and -at are orthonormal, so
   * look_at_r returns the inverse of the rotation they form (the rotation
   * with the eye at the origin).
   */
  lemma LookAtRInvertsRotation(lib: MathLib, eye: Vec3, at: Vec3, up: Vec3)
    requires Dot(at, at) == 1.0
    requires Cross(at, up) != Zero3 && SqrtExactAt(lib, Dot(Cross(at, up), Cross(at, up)))
    ensures OrthonormalBlock(LookAtRotation(lib, eye, at, up))
    ensures Product(LookAtRotation(lib, Zero3, at, up), RigidInverse(LookAtRotation(lib, eye, at, up))) == Identity
  {
    var c := Cross(at, up);
    var right := Normalized(lib, c);
    NormalizedIsUnit(lib, c);
    NormalizedOrthogonal(lib, c, at);
    assert Dot(right, at) == 0.0 && Dot(at, right) == 0.0;
    var axis := Cross(right, at);
    CrossOfOrthonormal(right, at);
    var m0 := LookAtRotation(lib, Zero3, at, up);
    OrthonormalRows(right, axis, at);
    assert OrthonormalBlock(m0);
    RigidInverseIsInverse(m0);
    LookAtRIgnoresEye(lib, Zero3, eye, at, up);
  }

  /** Rows right, axis and -at are orthonormal once their dot products are known. */
  lemma OrthonormalRows(right: Vec3, axis: Vec3, at: Vec3)
    requires Dot(right, right) == 1.0 && Dot(axis, axis) == 1.0 && Dot(at, at) == 1.0
    requires Dot(right, axis) == 0.0 && Dot(right, at) == 0.0 && Dot(axis, at) == 0.0
    ensures var f := Vec3(-at.x, -at.y, -at.z);
      Dot(f, f) == 1.0 && Dot(right, f) == 0.0 && Dot(axis, f) == 0.0
  {
  }

  /**
   * The value look_at_l writes: with fwd the normalized eye - at, left the
   * normalized up x fwd and axis = fwd x left, column r of the flat view
   * holds (left, axis, fwd)'s r-th components, and the bottom row holds
   * minus the dot products of left, axis and fwd with the eye.
   */
  function LookAtLView(lib: MathLib, eye: Vec3, at: Vec3, up: Vec3): Mat
  {
    var fwd := Normalized(lib, Sub(eye, at));
    var left := Normalized(lib, Cross(up, fwd));
    BasisView(eye, left, Cross(fwd, left), fwd)
  }

  /** The matrix look_at_l writes for given left, axis and fwd vectors. */
  function BasisView(eye: Vec3, left: Vec3, axis: Vec3, fwd: Vec3): Mat
  {
    [left.x, axis.x, fwd.x, 0.0,
     left.y, axis.y, fwd.y, 0.0,
     left.z, axis.z, fwd.z, 0.0,
     NegDot(left, eye),
     NegDot(axis, eye),
     NegDot(fwd, eye),
     1.0]
  }

  /** The translation look_at_l writes for a basis vector `u`, as the source sums it. */
  function NegDot(u: Vec3, eye: Vec3): real
  {
    -u.x * eye.x - u.y * eye.y - u.z * eye.z
  }

  /** The source's sum is the negated dot product. */
  lemma NegDotIsDot(u: Vec3, eye: Vec3)
    ensures NegDot(u, eye) == -Dot(u, eye)
  {
  }

  /** look_at_l: writes all sixteen fields of `out`. */
  method LookAtL(lib: MathLib, eye: Vec3, at: Vec3, up: Vec3, out: array<real>)
    requires out.Length == 16
    modifies out
    ensures Contents(out) == LookAtLView(lib, eye, at, up)
  {
    var fwd := Sub(eye, at);
    fwd := Normalized(lib, fwd);
    var left := Cross(up, fwd);
    left := Normalized(lib, left);
    var axis := Cross(fwd, left);
    FillView(out, eye, left, axis, fwd);
  }

  /** The sixteen assignments to `out` in look_at_l. */
  method FillView(out: array<real>, eye: Vec3, left: Vec3, axis: Vec3, fwd: Vec3)
    requires out.Length == 16
    modifies out
    ensures Contents(out) == BasisView(eye, left, axis, fwd)
  {
    SetFields(out, 0, left.x, left.y, left.z, NegDot(left, eye));
    SetFields(out, 1, axis.x, axis.y, axis.z, NegDot(axis, eye));
    SetFields(out, 2, fwd.x, fwd.y, fwd.z, NegDot(fwd, eye));
    SetFields(out, 3, 0.0, 0.0, 0.0, 1.0);
  }

  /**
   * The transpose of the view matrix has rows left, axis and fwd, each
   * with minus its dot product with the eye in the translation column.
   */
  lemma BasisViewTransposed(eye: Vec3, left: Vec3, axis: Vec3, fwd: Vec3)
    ensures Transposed(BasisView(eye, left, axis, fwd))
         == [left.x, left.y, left.z, -Dot(left, eye),
             axis.x, axis.y, axis.z, -Dot(axis, eye),
             fwd.x, fwd.y, fwd.z, -Dot(fwd, eye),
             0.0, 0.0, 0.0, 1.0]
  {
  }

  /**
   * Read through its transpose, the view matrix takes the eye to the
   * origin, whatever its basis vectors are.
   */
  lemma LookAtLMovesEyeToOrigin(lib: MathLib, eye: Vec3, at: Vec3, up: Vec3)
    ensures MulVector4(Transposed(LookAtLView(lib, eye, at, up)), Vec4(eye.x, eye.y, eye.z, 1.0))
         == Vec4(0.0, 0.0, 0.0, 1.0)
  {
    var fwd := Normalized(lib, Sub(eye, at));
    var left := Normalized(lib, Cross(up, fwd));
    BasisViewMovesEye(eye, left, Cross(fwd, left), fwd);
  }

  lemma BasisViewMovesEye(eye: Vec3, left: Vec3, axis: Vec3, fwd: Vec3)
    ensures MulVector4(Transposed(BasisView(eye, left, axis, fwd)), Vec4(eye.x, eye.y, eye.z, 1.0))
         == Vec4(0.0, 0.0, 0.0, 1.0)
  {
    BasisViewTransposed(eye, left, axis, fwd);
  }

  /**
   * For a target distinct from the eye and an up vector not parallel to
   * the line of sight (with square roots exact where they are taken), the
   * transposed view matrix is a rigid transform, and it puts the target
   * straight ahead on the negative z axis at its distance from the eye.
   */
  lemma LookAtLSeesTarget(lib: MathLib, eye: Vec3, at: Vec3, up: Vec3)
    requires Sub(eye, at) != Zero3 && SqrtExactAt(lib, Dot(Sub(eye, at), Sub(eye, at)))
    requires var fwd := Normalized(lib, Sub(eye, at));
      Cross(up, fwd) != Zero3 && SqrtExactAt(lib, Dot(Cross(up, fwd), Cross(up, fwd)))
    ensures RigidTransform(Transposed(LookAtLView(lib, eye, at, up)))
    ensures MulVector4(Transposed(LookAtLView(lib, eye, at, up)), Vec4(at.x, at.y, at.z, 1.0))
         == Vec4(0.0, 0.0, -Length(lib, Sub(eye, at)), 1.0)
  {
    var d := Sub(eye, at);
    var fwd := Normalized(lib, d);
    var c := Cross(up, fwd);
    var left := Normalized(lib, c);
    var axis := Cross(fwd, left);
    LookAtBasis(lib, d, up);
    TargetAhead(lib, eye, at, left, axis, fwd);
    BasisViewRigid(eye, at, left, axis, fwd, Length(lib, d));
  }

  /** fwd, left and axis as look_at_l builds them form an orthonormal basis. */
  lemma LookAtBasis(lib: MathLib, d: Vec3, up: Vec3)
    requires d != Zero3 && SqrtExactAt(lib, Dot(d, d))
    requires var fwd := Normalized(lib, d);
      Cross(up, fwd) != Zero3 && SqrtExactAt(lib, Dot(Cross(up, fwd), Cross(up, fwd)))
    ensures var fwd := Normalized(lib, d);
      var left := Normalized(lib, Cross(up, fwd));
      var axis := Cross(fwd, left);
      Dot(left, left) == 1.0 && Dot(axis, axis) == 1.0 && Dot(fwd, fwd) == 1.0 &&
      Dot(fwd, left) == 0.0 && Dot(fwd, axis) == 0.0 && Dot(left, axis) == 0.0 &&
      Dot(left, fwd) == 0.0 && Dot(axis, fwd) == 0.0
  {
    var fwd := Normalized(lib, d);
    var c := Cross(up, fwd);
    var left := Normalized(lib, c);
    var axis := Cross(fwd, left);
    NormalizedIsUnit(lib, d);
    NormalizedIsUnit(lib, c);
    CrossOrthogonal(up, fwd);
    DotCommutes(fwd, c);
    NormalizedOrthogonal(lib, c, fwd);
    DotCommutes(left, fwd);
    CrossOfOrthonormal(fwd, left);
    CrossOrthogonal(fwd, left);
    DotCommutes(fwd, axis);
    DotCommutes(left, axis);
  }

  /** The transposed view matrix of an orthonormal basis, applied to a point. */
  lemma BasisViewRigid(eye: Vec3, at: Vec3, left: Vec3, axis: Vec3, fwd: Vec3, len: real)
    requires Dot(left, left) == 1.0 && Dot(axis, axis) == 1.0 && Dot(fwd, fwd) == 1.0
    requires Dot(fwd, left) == 0.0 && Dot(fwd, axis) == 0.0 && Dot(left, axis) == 0.0
    requires Dot(left, at) - Dot(left, eye) == 0.0 && Dot(axis, at) - Dot(axis, eye) == 0.0
    requires Dot(fwd, at) - Dot(fwd, eye) == -len
    ensures RigidTransform(Transposed(BasisView(eye, left, axis, fwd)))
    ensures MulVector4(Transposed(BasisView(eye, left, axis, fwd)), Vec4(at.x, at.y, at.z, 1.0))
         == Vec4(0.0, 0.0, -len, 1.0)
  {
    BasisViewTransposed(eye, left, axis, fwd);
    var p := MulVector4(Transposed(BasisView(eye, left, axis, fwd)), Vec4(at.x, at.y, at.z, 1.0));
    assert p.x == Dot(left, at) - Dot(left, eye);
    assert p.y == Dot(axis, at) - Dot(axis, eye);
    assert p.z == Dot(fwd, at) - Dot(fwd, eye);
  }

  /** The target seen through rows left, axis, fwd with translation -row . eye. */
  lemma TargetAhead(lib: MathLib, eye: Vec3, at: Vec3, left: Vec3, axis: Vec3, fwd: Vec3)
    requires Sub(eye, at) != Zero3 && SqrtExactAt(lib, Dot(Sub(eye, at), Sub(eye, at)))
    requires fwd == Normalized(lib, Sub(eye, at))
    requires Dot(fwd, fwd) == 1.0 && Dot(left, fwd) == 0.0 && Dot(axis, fwd) == 0.0
    ensures Dot(left, at) - Dot(left, eye) == 0.0
    ensures Dot(axis, at) - Dot(axis, eye) == 0.0
    ensures Dot(fwd, at) - Dot(fwd, eye) == -Length(lib, Sub(eye, at))
  {
    var d := Sub(eye, at);
    var len := Length(lib, d);
    assert Scaled(fwd, len) == d;
    DotScaledLeft(fwd, left, len);
    DotScaledLeft(fwd, axis, len);
    DotScaledLeft(fwd, fwd, len);
    DotDifference(left, eye, at);
    DotDifference(axis, eye, at);
    DotDifference(fwd, eye, at);
  }

  lemma DotDifference(u: Vec3, a: Vec3, b: Vec3)
    ensures Dot(u, b) - Dot(u, a) == -Dot(Sub(a, b), u)
  {
  }
}
