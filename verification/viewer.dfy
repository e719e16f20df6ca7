/**
 * The camera state of the viewer (main.c): the selected Euler angle, the
 * mouse deltas, the six speed slots, the camera's rotation and position,
 * the perspective parameters and the view and projection matrices, and the
 * routines that set them up and advance them once per frame.
 *
 * The file-scope globals of main.c become the fields of one `Viewer`
 * object. The matrices and the speed table are fixed-size buffers the
 * routines write element by element, so they are arrays; the rotation is a
 * `QuatCell` because quaternion_mul_quaternion writes into it while still
 * reading it.
 */
module Viewer {
  import opened Scalar
  import opened Vectors
  import opened Matrices
  import opened Quaternions
  import opened Projection

  /** dt_f: the float 0.01f widened exactly to double. */
  const DtF: real := 0.00999999977648258209228515625

  /**
   * upd_cur_angle: the index of the Euler angle after stepping `dir` from
   * `curAngle` (the global it reads), wrapping below 0 to 2 and above 2 to
   * 0. Whatever the inputs, the result indexes cam_angles; a step of one
   * either way moves round the three angles cyclically.
   */
  function UpdCurAngle(curAngle: int, dir: int): (a: int)
    ensures 0 <= a <= 2
    ensures 0 <= curAngle + dir <= 2 ==> a == curAngle + dir
    ensures 0 <= curAngle <= 2 && (dir == 1 || dir == -1) ==> a == (curAngle + dir) % 3
  {
    var a := curAngle + dir;
    if a < 0 then 2
    else if a > 2 then 0
    else a
  }

  /** A step one way undoes a step the other way; three steps come back. */
  lemma UpdCurAngleInverse(curAngle: int, dir: int)
    requires 0 <= curAngle <= 2 && (dir == 1 || dir == -1)
    ensures UpdCurAngle(UpdCurAngle(curAngle, dir), -dir) == curAngle
    ensures UpdCurAngle(UpdCurAngle(UpdCurAngle(curAngle, dir), dir), dir) == curAngle
  {
  }

  /**
   * The speed table after translate_camera: the forward speed (slot 0)
   * approaches its target (slot 1) and the sideways speed (slot 2) its
   * target (slot 3), each by at most dt * dt_f, without overshooting.
   */
  function TranslationSpeeds(s: seq<real>, dt: real): (r: seq<real>)
    requires |s| == 6
    ensures |r| == 6 && r[1] == s[1] && r[3..] == s[3..]
    ensures dt >= 0.0 ==> Abs(r[0] - s[0]) <= dt * DtF && Abs(r[2] - s[2]) <= dt * DtF
    ensures dt >= 0.0 ==> (r[0] == s[1] <==> Abs(s[1] - s[0]) <= dt * DtF)
    ensures dt >= 0.0 ==> (r[2] == s[3] <==> Abs(s[3] - s[2]) <= dt * DtF)
  {
    s[0 := Approach(s[1], s[0], dt * DtF)][2 := Approach(s[3], s[2], dt * DtF)]
  }

  /**
   * The new turn speed rotate_camera stores in slot 4: dt times the
   * current turn speed approached towards its target by at most dt * dt_f.
   */
  function TurnSpeed(goal: real, current: real, dt: real): real
  {
    dt * Approach(goal, current, dt * DtF)
  }

  /**
   * The speed table after rotate_camera: slot 4 becomes the TurnSpeed, and
   * the target (slot 5) drops to 0 once the new turn speed exceeds it.
   */
  function RotationSpeeds(s: seq<real>, dt: real): (r: seq<real>)
    requires |s| == 6
    ensures |r| == 6 && r[..4] == s[..4]
    ensures r[4] == TurnSpeed(s[5], s[4], dt)
    ensures r[5] == 0.0 || r[5] == s[5]
    ensures r[5] == s[5] <==> r[4] <= s[5] || s[5] == 0.0
  {
    var s4 := TurnSpeed(s[5], s[4], dt);
    s[4 := s4][5 := if s4 > s[5] then 0.0 else s[5]]
  }

  /**
   * The step translate_camera takes for the new speed table `s`: sideways
   * speed * dt along the camera's x axis, forward speed * dt along its y
   * axis.
   */
  function Step(s: seq<real>, dt: real): Vec3
    requires |s| == 6
  {
    Vec3(s[2] * dt, s[0] * dt, 0.0)
  }

  /**
   * The position after translate_camera: the camera moves by `step` turned
   * from its own axes into the world by the conjugate of its rotation.
   */
  function Translated(rot: Vec4, position: Vec3, step: Vec3): Vec3
  {
    Add(position, MulVector(Conjugate(rot), step))
  }

  lemma ConjugateUnit()
    ensures Conjugate(Unit) == Unit
  {
  }

  /** With the identity rotation the camera moves by exactly the step. */
  lemma TranslatedUnrotated(position: Vec3, step: Vec3)
    ensures Translated(Unit, position, step) == Add(position, step)
  {
    ConjugateUnit();
    MulVectorUnit(step);
  }

  /** A zero step leaves the camera where it is, whatever its rotation. */
  lemma TranslatedAtRest(rot: Vec4, position: Vec3)
    ensures Translated(rot, position, Zero3) == position
  {
    var a := Vec3(-rot.x, -rot.y, -rot.z);
    assert Cross(a, Zero3) == Zero3;
    assert Scaled(Zero3, 2.0) == Zero3 && Scaled(Zero3, rot.w) == Zero3;
  }

  /**
   * The rotation rotate_camera computes before normalizing: q (a turn of
   * -my * s4 about the x axis) times r (a turn of -mx * s4 about the y
   * axis) stored into q, then q times the camera rotation stored into the
   * camera rotation. Both products write into one of their own inputs, so
   * they are AliasedMul and not QuatMul.
   */
  function Turned(lib: MathLib, rot: Vec4, mx: real, my: real, s4: real): Vec4
  {
    var r := FromAxisAngle(lib, YAxis, -mx * s4);
    var q := FromAxisAngle(lib, XAxis, -my * s4);
    AliasedMul(AliasedMul(q, r, true, false), rot, false, true)
  }

  /**
   * Without mouse movement, and with sin 0 = 0 and cos 0 = 1, the turn
   * leaves the rotation as it was, and normalizing then keeps a unit
   * rotation as it is.
   */
  lemma TurnedWithoutMouse(lib: MathLib, rot: Vec4, s4: real)
    requires ExactAtZero(lib)
    ensures Turned(lib, rot, 0.0, 0.0, s4) == rot
    ensures NormSq(rot) == 1.0 ==> QuatNormalized(lib, Turned(lib, rot, 0.0, 0.0, s4)) == rot
  {
    assert -0.0 * s4 == 0.0;
    assert FromAxisAngle(lib, YAxis, 0.0) == Unit;
    assert FromAxisAngle(lib, XAxis, 0.0) == Unit;
    AliasedMulUnitFirst(rot);
  }

  /** Unit times Unit stored into the first, then times rot stored into rot. */
  lemma AliasedMulUnitFirst(rot: Vec4)
    ensures AliasedMul(AliasedMul(Unit, Unit, true, false), rot, false, true) == rot
  {
    QuatMulUnit(Unit);
    assert AliasedMul(Unit, Unit, true, false) == Unit;
    QuatMulUnit(rot);
  }

  /**
   * The perspective setup_perspective stores for a window of the given
   * size: a 75 degree field of view, near plane 1, far plane 20, the aspect
   * ratio and its reciprocal, and the scale factors from pixels to
   * normalized coordinates. The `type` field is left as it was.
   */
  function CameraPerspective(lib: MathLib, kind: int, width: real, height: real): (p: Perspective)
    requires width != 0.0 && height != 0.0
    ensures p.kind == kind && p.fov == Radians(lib, 75.0) && p.near == 1.0 && p.far == 20.0
    ensures p.viewAspect * height == width && p.viewAspect * p.viewOoAspect == 1.0
    ensures p.orthoScaleX * width == 2.0 && p.orthoScaleY * height == -2.0
  {
    var aspect := width / height;
    Perspective(kind, Radians(lib, 75.0), 1.0, 20.0, aspect, 1.0 / aspect, 2.0 / width, -2.0 / height)
  }

  /**
   * The projection setup_perspective builds on the identity: the frustum
   * leaves the identity's zeros in the eight entries it does not write, the
   * centred rectangle puts 0 in `_20` and `_21`, and the vertical scale is
   * the horizontal scale times the aspect ratio.
   */
  lemma CameraProjectionShape(lib: MathLib, p: Perspective)
    requires PerspectiveDefined(lib, p)
    ensures var x := PerspectiveMatrix(lib, p, Identity);
      x[1] == 0.0 && x[3] == 0.0 && x[4] == 0.0 && x[7] == 0.0 &&
      x[8] == 0.0 && x[9] == 0.0 && x[12] == 0.0 && x[13] == 0.0
    ensures var x := PerspectiveMatrix(lib, p, Identity);
      x[2] == 0.0 && x[6] == 0.0 && x[14] == -1.0 && x[15] == 0.0
    ensures var x := PerspectiveMatrix(lib, p, Identity);
      x[5] == x[0] * p.viewAspect
  {
    var r := HalfWidth(lib, p);
    var a := p.viewAspect;
    var x := PerspectiveMatrix(lib, p, Identity);
    assert x[0] == 2.0 * p.near / (r - -r);
    assert x[5] == 2.0 * p.near / (r / a - -r / a);
    assert r / a - -r / a == (r - -r) / a;
  }

  /**
   * The view matrix update_camera builds: the rotation matrix of the camera
   * with the negated position in `_30, _31, _32`. For a unit rotation it
   * maps a point x to rot(x) - position.
   */
  lemma ViewMatrixMapsPoints(q: Vec4, position: Vec3, x: Vec3)
    requires NormSq(q) == 1.0
    ensures var v := MulVector4(WithTranslation(ToMatrix(q), Scaled(position, -1.0)), Vec4(x.x, x.y, x.z, 1.0));
      Vec3(v.x, v.y, v.z) == Add(MulVector(q, x), Scaled(position, -1.0)) && v.w == 1.0
  {
    ToMatrixRotates(q, x);
  }

  /** The camera globals of main.c. */
  class Viewer {
    var cameraChanged: int
    var curAngle: int
    var mx: real
    var my: real
    const speeds: array<real>
    const viewMatrix: array<real>
    const projectionMatrix: array<real>
    /** camera.rotation */
    const rotation: QuatCell
    /** camera.position */
    var position: Vec3
    var perspective: Perspective

    /** The buffers have their C sizes and are separate objects. */
    predicate Valid()
      reads this
    {
      speeds.Length == 6 && viewMatrix.Length == 16 && projectionMatrix.Length == 16 &&
      speeds != viewMatrix && speeds != projectionMatrix && viewMatrix != projectionMatrix
    }

    /** The state at program start: every static is zero. */
    constructor ()
      ensures Valid()
      ensures cameraChanged == 0 && curAngle == 0 && mx == 0.0 && my == 0.0
      ensures speeds[..] == [0.0, 0.0, 0.0, 0.0, 0.0, 0.0]
      ensures rotation.Value() == Vec4(0.0, 0.0, 0.0, 0.0) && position == Zero3
    {
      cameraChanged, curAngle, mx, my := 0, 0, 0.0, 0.0;
      speeds := new real[6](_ => 0.0);
      viewMatrix := new real[16](_ => 0.0);
      projectionMatrix := new real[16](_ => 0.0);
      rotation := new QuatCell(Vec4(0.0, 0.0, 0.0, 0.0));
      position := Zero3;
      perspective := Perspective(0, 0.0, 0.0, 0.0, 0.0, 0.0, 0.0, 0.0);
    }

    /**
     * setup_perspective: both matrices reset to the identity, the camera
     * perspective for the window, the projection built from it, the camera
     * at (0, 0, 6) with the normalized rotation of Euler angles (0, 0, 0),
     * and the camera marked as changed.
     */
    method SetupPerspective(lib: MathLib, width: real, height: real)
      requires Valid()
      requires width != 0.0 && height != 0.0
      requires PerspectiveDefined(lib, CameraPerspective(lib, perspective.kind, width, height))
      requires QuatLength(lib, FromEuler(lib, Zero3)) != 0.0
      modifies this, viewMatrix, projectionMatrix, rotation
      ensures Valid()
      ensures Contents(viewMatrix) == Identity
      ensures perspective == CameraPerspective(lib, old(perspective.kind), width, height)
      ensures Contents(projectionMatrix) == PerspectiveMatrix(lib, perspective, Identity)
      ensures position == Vec3(0.0, 0.0, 6.0)
      ensures rotation.Value() == QuatNormalized(lib, FromEuler(lib, Zero3))
      ensures ExactAtZero(lib) ==> rotation.Value() == Unit
      ensures cameraChanged == 1
      ensures curAngle == old(curAngle) && mx == old(mx) && my == old(my)
    {
      CopyMatrix(viewMatrix, Identity);
      CopyMatrix(projectionMatrix, Identity);
      perspective := CameraPerspective(lib, perspective.kind, width, height);
      PerspectiveProjection(lib, perspective, projectionMatrix);
      position := Vec3(0.0, 0.0, 6.0);
      ResetRotation(lib, rotation);
      cameraChanged := 1;
    }

    /**
     * translate_camera: the speeds ramp as TranslationSpeeds says and the
     * camera moves as Translated says, with the new speeds.
     */
    method TranslateCamera(dt: real)
      requires Valid()
      modifies this, speeds
      ensures Valid()
      ensures speeds[..] == TranslationSpeeds(old(speeds[..]), dt)
      ensures position == Translated(rotation.Value(), old(position), Step(speeds[..], dt))
      ensures cameraChanged == old(cameraChanged) && curAngle == old(curAngle)
      ensures mx == old(mx) && my == old(my) && perspective == old(perspective)
    {
      speeds[0] := Approach(speeds[1], speeds[0], dt * DtF);
      speeds[2] := Approach(speeds[3], speeds[2], dt * DtF);
      var v := Vec3(speeds[2] * dt, speeds[0] * dt, 0.0);
      assert v == Step(speeds[..], dt);
      var conj := Conjugate(rotation.Value());
      v := MulVector(conj, v);
      position := Add(position, v);
    }

    /**
     * rotate_camera: the speeds change as RotationSpeeds says, the camera
     * rotation becomes the normalized Turned value for the mouse deltas
     * and the new slot-4 speed, and the deltas are cleared.
     */
    method RotateCamera(lib: MathLib, dt: real)
      requires Valid()
      requires QuatLength(lib, Turned(lib, rotation.Value(), mx, my, TurnSpeed(speeds[5], speeds[4], dt))) != 0.0
      modifies this, speeds, rotation
      ensures Valid()
      ensures speeds[..] == RotationSpeeds(old(speeds[..]), dt) && speeds[4] == TurnSpeed(old(speeds[5]), old(speeds[4]), dt)
      ensures rotation.Value() == QuatNormalized(lib, Turned(lib, old(rotation.Value()), old(mx), old(my), speeds[4]))
      ensures mx == 0.0 && my == 0.0
      ensures cameraChanged == old(cameraChanged) && curAngle == old(curAngle)
      ensures position == old(position) && perspective == old(perspective)
    {
      speeds[4] := TurnSpeed(speeds[5], speeds[4], dt);
      TurnCamera(lib, rotation, mx, my, speeds[4]);
      if speeds[4] > speeds[5] {
        speeds[5] := 0.0;
      }
      mx, my := 0.0, 0.0;
    }

    /**
     * update_camera: when the camera is marked as changed, rotate it,
     * translate it, rebuild the view matrix from the new rotation and
     * position, and clear the mark; otherwise change nothing.
     */
    method UpdateCamera(lib: MathLib, dt: real)
      requires Valid()
      requires cameraChanged != 0 ==>
        QuatLength(lib, Turned(lib, rotation.Value(), mx, my, TurnSpeed(speeds[5], speeds[4], dt))) != 0.0
      modifies this, speeds, rotation, viewMatrix
      ensures Valid() && cameraChanged == 0
      ensures old(cameraChanged) == 0 ==>
        unchanged(this) && unchanged(speeds) && unchanged(rotation) && unchanged(viewMatrix)
      ensures old(cameraChanged) != 0 ==>
        speeds[..] == TranslationSpeeds(RotationSpeeds(old(speeds[..]), dt), dt) &&
        rotation.Value() == QuatNormalized(lib, Turned(lib, old(rotation.Value()), old(mx), old(my), speeds[4])) &&
        position == Translated(rotation.Value(), old(position), Step(speeds[..], dt)) &&
        mx == 0.0 && my == 0.0
      ensures old(cameraChanged) != 0 ==>
        Contents(viewMatrix) == WithTranslation(ToMatrix(rotation.Value()), Scaled(position, -1.0))
      ensures curAngle == old(curAngle) && perspective == old(perspective)
    {
      if cameraChanged != 0 {
        RotateCamera(lib, dt);
        TranslateCamera(dt);
        QuaternionToMatrix(rotation.Value(), viewMatrix);
        SetNegTranslation(viewMatrix, position);
        cameraChanged := 0;
      }
    }
  }

  /**
   * The quaternion steps of rotate_camera: r and q from the two axis-angle
   * turns, q * r stored into q, q * rotation stored into rotation, then
   * rotation normalized.
   */
  method TurnCamera(lib: MathLib, rotation: QuatCell, mx: real, my: real, s4: real)
    requires QuatLength(lib, Turned(lib, rotation.Value(), mx, my, s4)) != 0.0
    modifies rotation
    ensures rotation.Value() == QuatNormalized(lib, Turned(lib, old(rotation.Value()), mx, my, s4))
  {
    var r := new QuatCell(FromAxisAngle(lib, YAxis, -mx * s4));
    var q := new QuatCell(FromAxisAngle(lib, XAxis, -my * s4));
    MulQuaternion(q, r, q);
    MulQuaternion(q, rotation, rotation);
    rotation.Normalize(lib);
  }

  /**
   * The rotation steps of setup_perspective: the quaternion of Euler angles
   * (0, 0, 0), normalized; the identity rotation when the library is exact
   * at 0.
   */
  method ResetRotation(lib: MathLib, rotation: QuatCell)
    requires QuatLength(lib, FromEuler(lib, Zero3)) != 0.0
    modifies rotation
    ensures rotation.Value() == QuatNormalized(lib, FromEuler(lib, Zero3))
    ensures ExactAtZero(lib) ==> rotation.Value() == Unit
  {
    rotation.SetFromEuler(lib, Zero3);
    rotation.Normalize(lib);
    if ExactAtZero(lib) {
      FromEulerZero(lib);
    }
  }

  /** The whole-struct assignment `*m = value` of a Matrix_4x4. */
  method CopyMatrix(m: array<real>, value: Mat)
    requires m.Length == 16
    modifies m
    ensures Contents(m) == value
  {
    forall i | 0 <= i < 16 {
      m[i] := value[i];
    }
  }
}
