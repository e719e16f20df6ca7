/**
 * The quaternion half of the transform library (3d.c). A Quaternion is the
 * 4-component record (x, y, z, w) with the scalar part in `w`.
 *
 * Routines that read their inputs before writing their out-pointer are
 * functions on `Vec4` values. quaternion_normalize updates its argument in
 * place and quaternion_mul_quaternion writes its output field by field
 * while still reading its inputs, so both are methods on `QuatCell`
 * objects, and the second is modelled with its behaviour under aliasing.
 */
module Quaternions {
  import opened Scalar
  import opened Vectors
  import opened Matrices

  /** The quaternion (0, 0, 0, 1): no rotation. */
  const Unit := Vec4(0.0, 0.0, 0.0, 1.0)

  /** x^2 + y^2 + z^2 + w^2. */
  function NormSq(q: Vec4): real
  {
    q.x * q.x + q.y * q.y + q.z * q.z + q.w * q.w
  }

  /** quaternion_length. */
  function QuatLength(lib: MathLib, q: Vec4): real
  {
    lib.sqrt(NormSq(q))
  }

  /**
   * The value quaternion_normalize leaves behind: every component divided
   * by the length. The source has no guard, so the length must not be 0.
   */
  function QuatNormalized(lib: MathLib, q: Vec4): (r: Vec4)
    requires QuatLength(lib, q) != 0.0
    ensures var len := QuatLength(lib, q);
      r.x * len == q.x && r.y * len == q.y && r.z * len == q.z && r.w * len == q.w
  {
    var len := QuatLength(lib, q);
    Vec4(q.x / len, q.y / len, q.z / len, q.w / len)
  }

  /** With an exact square root, a normalized quaternion has norm 1. */
  lemma QuatNormalizedIsUnit(lib: MathLib, q: Vec4)
    requires QuatLength(lib, q) != 0.0 && SqrtExactAt(lib, NormSq(q))
    ensures NormSq(QuatNormalized(lib, q)) == 1.0
  {
    var len := QuatLength(lib, q);
    var r := QuatNormalized(lib, q);
    NormSqScaled(r, len, q);
    CancelFactor(NormSq(r), Square(len));
  }

  lemma NormSqScaled(r: Vec4, s: real, q: Vec4)
    requires r.x * s == q.x && r.y * s == q.y && r.z * s == q.z && r.w * s == q.w
    ensures Mul(NormSq(r), Square(s)) == NormSq(q)
  {
  }

  /** quaternion_conjugate: each field is read just before it is written. */
  function Conjugate(q: Vec4): (r: Vec4)
    ensures NormSq(r) == NormSq(q)
  {
    Vec4(-q.x, -q.y, -q.z, q.w)
  }

  /** Conjugation is an involution. */
  lemma ConjugateInvolution(q: Vec4)
    ensures Conjugate(Conjugate(q)) == q
  {
  }

  /** The Hamilton product q r that quaternion_mul_quaternion computes. */
  function QuatMul(q: Vec4, r: Vec4): Vec4
  {
    Vec4( q.x * r.w + q.y * r.z - q.z * r.y + q.w * r.x,
         -q.x * r.z + q.y * r.w + q.z * r.x + q.w * r.y,
          q.x * r.y - q.y * r.x + q.z * r.w + q.w * r.z,
         -q.x * r.x - q.y * r.y - q.z * r.z + q.w * r.w)
  }

  /** (0, 0, 0, 1) is a two-sided identity of the product. */
  lemma QuatMulUnit(q: Vec4)
    ensures QuatMul(q, Unit) == q && QuatMul(Unit, q) == q
  {
  }

  /** A quaternion times its conjugate is the real quaternion |q|^2. */
  lemma QuatMulConjugate(q: Vec4)
    ensures QuatMul(q, Conjugate(q)) == Vec4(0.0, 0.0, 0.0, NormSq(q))
    ensures QuatMul(Conjugate(q), q) == Vec4(0.0, 0.0, 0.0, NormSq(q))
  {
  }

  /**
   * What quaternion_mul_quaternion stores in `out`. It writes x, y, z and w
   * in that order, each from the current fields of `q` and `r`; when `out`
   * is `q` (aliasQ) or `r` (aliasR), the later components read the
   * components already written.
   */
  function AliasedMul(q: Vec4, r: Vec4, aliasQ: bool, aliasR: bool): (p: Vec4)
    ensures !aliasQ && !aliasR ==> p == QuatMul(q, r)
  {
    var x := QuatMul(q, r).x;
    var q1 := if aliasQ then q.(x := x) else q;
    var r1 := if aliasR then r.(x := x) else r;
    var y := QuatMul(q1, r1).y;
    var q2 := if aliasQ then q1.(y := y) else q1;
    var r2 := if aliasR then r1.(y := y) else r1;
    var z := QuatMul(q2, r2).z;
    var q3 := if aliasQ then q2.(z := z) else q2;
    var r3 := if aliasR then r2.(z := z) else r2;
    Vec4(x, y, z, QuatMul(q3, r3).w)
  }

  /**
   * Aliasing changes the result: with q = (0, 0, 0, 1) and r = (1, 0, 0, 0),
   * storing into `q` gives (1, 0, 0, -1) where the product is (1, 0, 0, 0).
   */
  lemma AliasedMulDiffers()
    ensures QuatMul(Unit, Vec4(1.0, 0.0, 0.0, 0.0)) == Vec4(1.0, 0.0, 0.0, 0.0)
    ensures AliasedMul(Unit, Vec4(1.0, 0.0, 0.0, 0.0), true, false) == Vec4(1.0, 0.0, 0.0, -1.0)
  {
    QuatMulUnit(Vec4(1.0, 0.0, 0.0, 0.0));
    AliasedStepX();
    AliasedStepYZW();
  }

  /**
   * The same with the output stored into `r`: (1, 0, 0, 0) times
   * (0, 0, 0, 1) should be (1, 0, 0, 0) but comes out as (1, 0, 0, -1).
   */
  lemma AliasedMulIntoSecondDiffers()
    ensures QuatMul(Vec4(1.0, 0.0, 0.0, 0.0), Unit) == Vec4(1.0, 0.0, 0.0, 0.0)
    ensures AliasedMul(Vec4(1.0, 0.0, 0.0, 0.0), Unit, false, true) == Vec4(1.0, 0.0, 0.0, -1.0)
  {
    QuatMulUnit(Vec4(1.0, 0.0, 0.0, 0.0));
    AliasedStepXSecond();
    AliasedStepYZWSecond();
  }

  lemma AliasedStepXSecond()
    ensures Unit.(x := QuatMul(Vec4(1.0, 0.0, 0.0, 0.0), Unit).x) == Vec4(1.0, 0.0, 0.0, 1.0)
  {
  }

  lemma AliasedStepYZWSecond()
    ensures QuatMul(Vec4(1.0, 0.0, 0.0, 0.0), Vec4(1.0, 0.0, 0.0, 1.0)) == Vec4(1.0, 0.0, 0.0, -1.0)
  {
  }

  lemma AliasedStepX()
    ensures Unit.(x := QuatMul(Unit, Vec4(1.0, 0.0, 0.0, 0.0)).x) == Vec4(1.0, 0.0, 0.0, 1.0)
  {
  }

  lemma AliasedStepYZW()
    ensures QuatMul(Vec4(1.0, 0.0, 0.0, 1.0), Vec4(1.0, 0.0, 0.0, 0.0)) == Vec4(1.0, 0.0, 0.0, -1.0)
  {
  }

  /** A Quaternion a pointer refers to: read and written field by field. */
  class QuatCell {
    var x: real
    var y: real
    var z: real
    var w: real

    constructor (q: Vec4)
      ensures Value() == q
    {
      x, y, z, w := q.x, q.y, q.z, q.w;
    }

    function Value(): Vec4
      reads this
    {
      Vec4(x, y, z, w)
    }

    /** quaternion_normalize: divides this quaternion by its length. */
    method Normalize(lib: MathLib)
      requires QuatLength(lib, Value()) != 0.0
      modifies this
      ensures Value() == QuatNormalized(lib, old(Value()))
    {
      var len := QuatLength(lib, Value());
      x := x / len;
      y := y / len;
      z := z / len;
      w := w / len;
    }

    /** quaternion_from_euler_v, storing the result in this quaternion. */
    method SetFromEuler(lib: MathLib, v: Vec3)
      modifies this
      ensures Value() == FromEuler(lib, v)
    {
      var e := FromEuler(lib, v);
      w := e.w;
      x := e.x;
      y := e.y;
      z := e.z;
    }
  }

  /**
   * quaternion_mul_quaternion(q, r, out). With `out` distinct from both
   * inputs it stores the product; in general it stores AliasedMul.
   */
  method MulQuaternion(q: QuatCell, r: QuatCell, out: QuatCell)
    modifies out
    ensures out.Value() == AliasedMul(old(q.Value()), old(r.Value()), out == q, out == r)
    ensures out != q && out != r ==> out.Value() == QuatMul(old(q.Value()), old(r.Value()))
  {
    out.x := QuatMul(q.Value(), r.Value()).x;
    out.y := QuatMul(q.Value(), r.Value()).y;
    out.z := QuatMul(q.Value(), r.Value()).z;
    out.w := QuatMul(q.Value(), r.Value()).w;
  }

  /**
   * quaternion_mul_vector: v + 2 w (a x v) + a x (2 a x v) with a the
   * vector part, the rotation of v by a unit quaternion.
   */
  function MulVector(q: Vec4, v: Vec3): Vec3
  {
    var a := Vec3(q.x, q.y, q.z);
    var b := Scaled(Cross(a, v), 2.0);
    var d := Cross(a, b);
    var c := Add(Scaled(b, q.w), d);
    Add(v, c)
  }

  /** The identity quaternion leaves every vector where it is. */
  lemma MulVectorUnit(v: Vec3)
    ensures MulVector(Unit, v) == v
  {
    assert Cross(Zero3, v) == Zero3;
    assert Cross(Zero3, Zero3) == Zero3;
  }

  /**
   * The value quaternion_to_matrix writes: the rotation block in the flat
   * view, zeros in `_30, _31, _32` and `_03, _13, _23`, and 1 in `_33`.
   */
  function ToMatrix(q: Vec4): (m: Mat)
    ensures m[3] == 0.0 && m[7] == 0.0 && m[11] == 0.0
    ensures m[12] == 0.0 && m[13] == 0.0 && m[14] == 0.0 && m[15] == 1.0
  {
    var sqw := q.w * q.w;
    var sqx := q.x * q.x;
    var sqy := q.y * q.y;
    var sqz := q.z * q.z;
    [sqx - sqy - sqz + sqw, 2.0 * (q.x * q.y - q.z * q.w), 2.0 * (q.x * q.z + q.y * q.w), 0.0,
     2.0 * (q.x * q.y + q.z * q.w), -sqx + sqy - sqz + sqw, 2.0 * (q.y * q.z - q.x * q.w), 0.0,
     2.0 * (q.x * q.z - q.y * q.w), 2.0 * (q.y * q.z + q.x * q.w), -sqx - sqy + sqz + sqw, 0.0,
     0.0, 0.0, 0.0, 1.0]
  }

  /** quaternion_to_matrix: writes all sixteen fields of `m`. */
  method QuaternionToMatrix(q: Vec4, m: array<real>)
    requires m.Length == 16
    modifies m
    ensures Contents(m) == ToMatrix(q)
  {
    var v := ToMatrix(q);
    SetFields(m, 0, v[0], v[4], v[8], v[12]);
    SetFields(m, 1, v[1], v[5], v[9], v[13]);
    SetFields(m, 2, v[2], v[6], v[10], v[14]);
    SetFields(m, 3, v[3], v[7], v[11], v[15]);
  }

  /** The matrix of the conjugate is the transpose. */
  lemma ToMatrixConjugate(q: Vec4)
    ensures ToMatrix(Conjugate(q)) == Transposed(ToMatrix(q))
  {
    var c := ToMatrix(Conjugate(q));
    var t := Transposed(ToMatrix(q));
    ConjugateXX(q);
    ConjugateYY(q);
    ConjugateZZ(q);
    ConjugateXY(q);
    ConjugateXZ(q);
    ConjugateYZ(q);
    assert forall i | 0 <= i < 16 :: c[i] == t[i];
  }

  lemma ConjugateXX(q: Vec4)
    ensures var c, m := ToMatrix(Conjugate(q)), ToMatrix(q);
      c[0] == m[0]
  {
    var c := Conjugate(q);
    assert c.x * c.x == q.x * q.x;
  }

  lemma ConjugateYY(q: Vec4)
    ensures var c, m := ToMatrix(Conjugate(q)), ToMatrix(q);
      c[5] == m[5]
  {
    var c := Conjugate(q);
    assert c.y * c.y == q.y * q.y;
  }

  lemma ConjugateZZ(q: Vec4)
    ensures var c, m := ToMatrix(Conjugate(q)), ToMatrix(q);
      c[10] == m[10]
  {
    var c := Conjugate(q);
    assert c.z * c.z == q.z * q.z;
  }

  lemma ConjugateXY(q: Vec4)
    ensures var c, m := ToMatrix(Conjugate(q)), ToMatrix(q);
      c[1] == m[4] && c[4] == m[1]
  {
    var c := Conjugate(q);
    assert c.x * c.y == q.x * q.y && c.z * c.w == -(q.z * q.w);
  }

  lemma ConjugateXZ(q: Vec4)
    ensures var c, m := ToMatrix(Conjugate(q)), ToMatrix(q);
      c[2] == m[8] && c[8] == m[2]
  {
    var c := Conjugate(q);
    assert c.x * c.z == q.x * q.z && c.y * c.w == -(q.y * q.w);
  }

  lemma ConjugateYZ(q: Vec4)
    ensures var c, m := ToMatrix(Conjugate(q)), ToMatrix(q);
      c[6] == m[9] && c[9] == m[6]
  {
    var c := Conjugate(q);
    assert c.y * c.z == q.y * q.z && c.x * c.w == -(q.x * q.w);
  }

  /**
   * For a unit quaternion the matrix rotates vectors as
   * quaternion_mul_vector does.
   */
  lemma ToMatrixRotates(q: Vec4, v: Vec3)
    requires NormSq(q) == 1.0
    ensures MulVector3(ToMatrix(q), v) == MulVector(q, v)
  {
    ToMatrixRotatesX(q, v);
    ToMatrixRotatesY(q, v);
    ToMatrixRotatesZ(q, v);
  }

  /** The vector b = 2 (a x v) that quaternion_mul_vector builds. */
  function Doubled(q: Vec4, v: Vec3): Vec3
  {
    Scaled(Cross(Vec3(q.x, q.y, q.z), v), 2.0)
  }

  /** quaternion_mul_vector as `v + w b + a x b`, with b = Doubled(q, v). */
  lemma DoubledExpandsMulVector(q: Vec4, v: Vec3)
    ensures var b := Doubled(q, v);
      MulVector(q, v) == Add(v, Add(Scaled(b, q.w), Cross(Vec3(q.x, q.y, q.z), b)))
  {
  }

  lemma ToMatrixRotatesX(q: Vec4, v: Vec3)
    requires NormSq(q) == 1.0
    ensures MulVector3(ToMatrix(q), v).x == MulVector(q, v).x
  {
    MatrixRowX(q, v);
    RotatedX(q, v);
    RotationRow(q, v);
  }

  lemma ToMatrixRotatesY(q: Vec4, v: Vec3)
    requires NormSq(q) == 1.0
    ensures MulVector3(ToMatrix(q), v).y == MulVector(q, v).y
  {
    MatrixRowY(q, v);
    RotatedY(q, v);
    CycledNorm(q);
    RotationRow(Cycled(q), Cycled3(v));
  }

  lemma ToMatrixRotatesZ(q: Vec4, v: Vec3)
    requires NormSq(q) == 1.0
    ensures MulVector3(ToMatrix(q), v).z == MulVector(q, v).z
  {
    MatrixRowZ(q, v);
    RotatedZ(q, v);
    CycledNorm(q);
    CycledNorm(Cycled(q));
    RotationRow(Cycled(Cycled(q)), Cycled3(Cycled3(v)));
  }

  /** The roles of x, y, z moved one place round; w stays. */
  function Cycled(q: Vec4): Vec4
  {
    Vec4(q.y, q.z, q.x, q.w)
  }

  function Cycled3(v: Vec3): Vec3
  {
    Vec3(v.y, v.z, v.x)
  }

  lemma CycledNorm(q: Vec4)
    ensures NormSq(Cycled(q)) == NormSq(q)
  {
  }

  /** Row 0 of ToMatrix(q) dotted with v, written out. */
  function RowDot(q: Vec4, v: Vec3): real
  {
    v.x * (q.x * q.x - q.y * q.y - q.z * q.z + q.w * q.w) + v.y * (2.0 * (q.x * q.y - q.z * q.w)) + v.z * (2.0 * (q.x * q.z + q.y * q.w))
  }

  /** Component x of v + w b + a x b, where b = 2 (a x v), written out. */
  function RotatedComponent(q: Vec4, v: Vec3): real
  {
    v.x + ((q.y * v.z - q.z * v.y) * 2.0 * q.w + (q.y * ((q.x * v.y - q.y * v.x) * 2.0) - q.z * ((q.z * v.x - q.x * v.z) * 2.0)))
  }

  lemma MatrixRowX(q: Vec4, v: Vec3)
    ensures MulVector3(ToMatrix(q), v).x == RowDot(q, v)
  {
    MulVector3Rows(ToMatrix(q), v);
  }

  lemma MatrixRowY(q: Vec4, v: Vec3)
    ensures MulVector3(ToMatrix(q), v).y == RowDot(Cycled(q), Cycled3(v))
  {
    MulVector3Rows(ToMatrix(q), v);
  }

  lemma MatrixRowZ(q: Vec4, v: Vec3)
    ensures MulVector3(ToMatrix(q), v).z == RowDot(Cycled(Cycled(q)), Cycled3(Cycled3(v)))
  {
    MulVector3Rows(ToMatrix(q), v);
  }

  lemma RotatedX(q: Vec4, v: Vec3)
    ensures MulVector(q, v).x == RotatedComponent(q, v)
  {
    DoubledExpandsMulVector(q, v);
  }

  lemma RotatedY(q: Vec4, v: Vec3)
    ensures MulVector(q, v).y == RotatedComponent(Cycled(q), Cycled3(v))
  {
    DoubledExpandsMulVector(q, v);
  }

  lemma RotatedZ(q: Vec4, v: Vec3)
    ensures MulVector(q, v).z == RotatedComponent(Cycled(Cycled(q)), Cycled3(Cycled3(v)))
  {
    DoubledExpandsMulVector(q, v);
  }

  /**
   * One component of the rotation: for a unit quaternion, the first row of
   * the matrix against v equals the first component of v + w b + a x b,
   * where b = 2 (a x v). The other two components are this one with the
   * roles of x, y, z cycled.
   */
  lemma RotationRow(q: Vec4, v: Vec3)
    requires NormSq(q) == 1.0
    ensures RowDot(q, v) == RotatedComponent(q, v)
  {
    assert q.x * q.x - q.y * q.y - q.z * q.z + q.w * q.w == 1.0 - 2.0 * (q.y * q.y) - 2.0 * (q.z * q.z);
  }

  /**
   * quaternion_from_axis_angle: the rotation by `angle` about `axis`, built
   * from the sine and cosine of the half angle. About a unit axis, and with
   * sin^2 + cos^2 = 1 at the half angle, the result is a unit quaternion; a
   * zero angle gives the identity rotation when sin 0 = 0 and cos 0 = 1.
   */
  function FromAxisAngle(lib: MathLib, axis: Vec3, angle: real): (q: Vec4)
    ensures Dot(axis, axis) == 1.0 && Square(lib.sin(angle * 0.5)) + Square(lib.cos(angle * 0.5)) == 1.0 ==>
      NormSq(q) == 1.0
    ensures ExactAtZero(lib) && angle == 0.0 ==> q == Unit
  {
    var a := angle * 0.5;
    var s := lib.sin(a);
    var q := Vec4(axis.x * s, axis.y * s, axis.z * s, lib.cos(a));
    DotScaled(axis, s);
    assert NormSq(q) == Dot(Scaled(axis, s), Scaled(axis, s)) + Square(q.w);
    q
  }

  /**
   * quaternion_from_euler_v with heading v.x, attitude v.y and bank v.z:
   * the product of the three half-angle rotations.
   */
  function FromEuler(lib: MathLib, v: Vec3): Vec4
  {
    var c1 := lib.cos(v.y * 0.5);
    var s1 := lib.sin(v.y * 0.5);
    var c2 := lib.cos(v.z * 0.5);
    var s2 := lib.sin(v.z * 0.5);
    var c3 := lib.cos(v.x * 0.5);
    var s3 := lib.sin(v.x * 0.5);
    var c := Mul(c1, c2);
    var s := Mul(s1, s2);
    Vec4(c * s3 + s * c3,
         s1 * c2 * c3 - c1 * s2 * s3,
         c1 * s2 * c3 - s1 * c2 * s3,
         c * c3 + s * s3)
  }

  /**
   * All three angles zero give the identity rotation, so normalizing it
   * (with sqrt 1 = 1) leaves it unchanged.
   */
  lemma FromEulerZero(lib: MathLib)
    requires ExactAtZero(lib)
    ensures FromEuler(lib, Zero3) == Unit
    ensures QuatLength(lib, Unit) == 1.0 && QuatNormalized(lib, Unit) == Unit
  {
    assert Mul(1.0, 1.0) == 1.0 && Mul(0.0, 0.0) == 0.0;
  }

  /**
   * The Euler quaternion is the product of three axis-angle rotations:
   * attitude about y, then heading about x, then bank about z.
   */
  lemma FromEulerIsAxisAngleProduct(lib: MathLib, v: Vec3)
    ensures FromEuler(lib, v) ==
      QuatMul(QuatMul(FromAxisAngle(lib, YAxis, v.y), FromAxisAngle(lib, XAxis, v.x)), FromAxisAngle(lib, ZAxis, v.z))
  {
    FromEulerComponents(lib, v);
    AxisAngleFactors(lib, v);
    EulerProduct(HalfCos(lib, v.y), HalfSin(lib, v.y), HalfCos(lib, v.z), HalfSin(lib, v.z), HalfCos(lib, v.x), HalfSin(lib, v.x));
  }

  /** The cosine and sine of half an angle, as every rotation here takes them. */
  function HalfCos(lib: MathLib, angle: real): real
  {
    lib.cos(angle * 0.5)
  }

  function HalfSin(lib: MathLib, angle: real): real
  {
    lib.sin(angle * 0.5)
  }

  /** The components quaternion_from_euler_v writes, from the six half-angle values. */
  function EulerFormula(c1: real, s1: real, c2: real, s2: real, c3: real, s3: real): Vec4
  {
    Vec4(Mul(c1, c2) * s3 + Mul(s1, s2) * c3,
         s1 * c2 * c3 - c1 * s2 * s3,
         c1 * s2 * c3 - s1 * c2 * s3,
         Mul(c1, c2) * c3 + Mul(s1, s2) * s3)
  }

  /** The rotations about y, x and z multiplied in that order, from the six half-angle values. */
  function AxisProduct(c1: real, s1: real, c2: real, s2: real, c3: real, s3: real): Vec4
  {
    QuatMul(QuatMul(Vec4(0.0, s1, 0.0, c1), Vec4(s3, 0.0, 0.0, c3)), Vec4(0.0, 0.0, s2, c2))
  }

  lemma FromEulerComponents(lib: MathLib, v: Vec3)
    ensures FromEuler(lib, v) ==
      EulerFormula(HalfCos(lib, v.y), HalfSin(lib, v.y), HalfCos(lib, v.z), HalfSin(lib, v.z), HalfCos(lib, v.x), HalfSin(lib, v.x))
  {
  }

  lemma AxisAngleFactors(lib: MathLib, v: Vec3)
    ensures QuatMul(QuatMul(FromAxisAngle(lib, YAxis, v.y), FromAxisAngle(lib, XAxis, v.x)), FromAxisAngle(lib, ZAxis, v.z)) ==
      AxisProduct(HalfCos(lib, v.y), HalfSin(lib, v.y), HalfCos(lib, v.z), HalfSin(lib, v.z), HalfCos(lib, v.x), HalfSin(lib, v.x))
  {
    AxisAngleComponents(lib, YAxis, v.y);
    AxisAngleComponents(lib, XAxis, v.x);
    AxisAngleComponents(lib, ZAxis, v.z);
    assert FromAxisAngle(lib, YAxis, v.y) == Vec4(0.0, HalfSin(lib, v.y), 0.0, HalfCos(lib, v.y));
    assert FromAxisAngle(lib, XAxis, v.x) == Vec4(HalfSin(lib, v.x), 0.0, 0.0, HalfCos(lib, v.x));
    assert FromAxisAngle(lib, ZAxis, v.z) == Vec4(0.0, 0.0, HalfSin(lib, v.z), HalfCos(lib, v.z));
  }

  /** The components FromAxisAngle writes. */
  lemma AxisAngleComponents(lib: MathLib, axis: Vec3, angle: real)
    ensures FromAxisAngle(lib, axis, angle) ==
      Vec4(axis.x * HalfSin(lib, angle), axis.y * HalfSin(lib, angle), axis.z * HalfSin(lib, angle), HalfCos(lib, angle))
  {
  }

  /** Multiplying out the three rotations gives the Euler formula. */
  lemma EulerProduct(c1: real, s1: real, c2: real, s2: real, c3: real, s3: real)
    ensures AxisProduct(c1, s1, c2, s2, c3, s3) == EulerFormula(c1, s1, c2, s2, c3, s3)
  {
    var yx := QuatMul(Vec4(0.0, s1, 0.0, c1), Vec4(s3, 0.0, 0.0, c3));
    assert yx == Vec4(c1 * s3, s1 * c3, -(s1 * s3), c1 * c3);
    var q := QuatMul(yx, Vec4(0.0, 0.0, s2, c2));
    assert q.x == (c1 * s3) * c2 + (s1 * c3) * s2;
    assert q.y == (s1 * c3) * c2 - (c1 * s3) * s2;
    assert q.z == (c1 * c3) * s2 - (s1 * s3) * c2;
    assert q.w == (c1 * c3) * c2 + (s1 * s3) * s2;
    assert Mul(c1, c2) == c1 * c2 && Mul(s1, s2) == s1 * s2;
  }

  /** 0.499f, the pole threshold of quaternion_to_euler, widened exactly. */
  const PoleTest: real := 0.499000012874603271484375

  /** The value quaternion_to_euler tests against the pole threshold. */
  function EulerTest(q: Vec4): real
  {
    q.x * q.y + q.z * q.w
  }

  /**
   * quaternion_to_euler: heading, attitude and bank. Near the poles
   * (|test| > 0.499f) the attitude is +-pi/2, the bank is 0 and the heading
   * is +-2 atan2(x, w); elsewhere all three come from the general formulas.
   */
  function ToEuler(lib: MathLib, q: Vec4): (v: Vec3)
    ensures EulerTest(q) > PoleTest ==> v == Vec3(2.0 * lib.atan2(q.x, q.w), lib.pi / 2.0, 0.0)
    ensures EulerTest(q) < -PoleTest ==> v == Vec3(-2.0 * lib.atan2(q.x, q.w), -lib.pi / 2.0, 0.0)
    ensures -PoleTest <= EulerTest(q) <= PoleTest ==> v.y == lib.asin(2.0 * EulerTest(q))
  {
    var test := EulerTest(q);
    if test > PoleTest then
      Vec3(2.0 * lib.atan2(q.x, q.w), lib.pi / 2.0, 0.0)
    else if test < -PoleTest then
      Vec3(-2.0 * lib.atan2(q.x, q.w), -lib.pi / 2.0, 0.0)
    else
      var sqx := q.x * q.x;
      var sqy := q.y * q.y;
      var sqz := q.z * q.z;
      Vec3(lib.atan2(2.0 * q.y * q.w - 2.0 * q.x * q.z, 1.0 - 2.0 * (sqy + sqz)),
           lib.asin(2.0 * test),
           lib.atan2(2.0 * q.x * q.w - 2.0 * q.y * q.z, 1.0 - 2.0 * (sqx + sqz)))
  }
}
