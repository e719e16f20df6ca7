/**
 * Spherical linear interpolation between two quaternions
 * (quaternion_slerp in 3d.c), as the source writes it and as it is
 * evidently meant.
 *
 * The source takes the 4-D dot product of the endpoints and, when it is
 * negative, moves to the antipode of the far endpoint so that the shorter
 * arc is used. It negates only the `w` of its copy `r`, though: the
 * blend reads x, y and z from the un-negated vector part `b`. `Slerp`
 * models that; `SlerpIntended` negates all four components.
 */
module Slerp {
  import opened Scalar
  import opened Vectors
  import opened Quaternions

  /** 0.9999f widened exactly: above it the blend is linear. */
  const LinearThreshold: real := 0.99989998340606689453125

  /** cos_omega as the source computes it: o.w r.w + dot(b, a). */
  function CosOmega(o: Vec4, p: Vec4): real
  {
    o.w * p.w + Dot(Vec3(p.x, p.y, p.z), Vec3(o.x, o.y, o.z))
  }

  /** The antipode -p, which stands for the same rotation as p. */
  function Neg(p: Vec4): Vec4
  {
    Vec4(-p.x, -p.y, -p.z, -p.w)
  }

  /** The far endpoint after the source's flip: only `w` changes sign. */
  function FlipW(p: Vec4): Vec4
  {
    Vec4(p.x, p.y, p.z, -p.w)
  }

  /** The pair (k0, k1) of interpolation weights. */
  datatype Weights = Weights(k0: real, k1: real)

  /**
   * Outside the linear band the source divides by sin omega =
   * sqrtf(1 - cos^2) with no guard, so that must not be 0.
   */
  predicate WeightsDefined(lib: MathLib, c: real)
  {
    c > LinearThreshold || lib.sqrt(1.0 - c * c) != 0.0
  }

  /**
   * The weights for a (non-negative) cos omega: 1 - theta and theta in the
   * linear band, sin((1 - theta) omega) / sin omega and
   * sin(theta omega) / sin omega elsewhere.
   */
  function SlerpWeights(lib: MathLib, c: real, theta: real): Weights
    requires WeightsDefined(lib, c)
  {
    if c > LinearThreshold then
      Weights(1.0 - theta, theta)
    else
      var sinOmega := lib.sqrt(1.0 - c * c);
      var omega := lib.atan2(sinOmega, c);
      var ooSinOmega := 1.0 / sinOmega;
      Weights(lib.sin((1.0 - theta) * omega) * ooSinOmega, lib.sin(theta * omega) * ooSinOmega)
  }

  /** k0 o + k1 r, component by component. */
  function Blend(o: Vec4, r: Vec4, k: Weights): Vec4
  {
    Vec4(o.x * k.k0 + r.x * k.k1, o.y * k.k0 + r.y * k.k1, o.z * k.k0 + r.z * k.k1, o.w * k.k0 + r.w * k.k1)
  }

  /** The inputs for which quaternion_slerp never divides by zero. */
  predicate SlerpDefined(lib: MathLib, o: Vec4, p: Vec4)
  {
    WeightsDefined(lib, Abs(CosOmega(o, p)))
  }

  /**
   * quaternion_slerp as written: a negative cos omega flips only p's `w`.
   * In the linear band theta = 0 yields the start point o, and theta = 1
   * the end point p or, after a flip, (p.x, p.y, p.z, -p.w).
   */
  function Slerp(lib: MathLib, o: Vec4, p: Vec4, theta: real): (q: Vec4)
    requires SlerpDefined(lib, o, p)
    ensures Abs(CosOmega(o, p)) > LinearThreshold && theta == 0.0 ==> q == o
    ensures Abs(CosOmega(o, p)) > LinearThreshold && theta == 1.0 ==>
      q == (if CosOmega(o, p) >= 0.0 then p else FlipW(p))
  {
    var c := CosOmega(o, p);
    if c < 0.0 then
      Blend(o, FlipW(p), SlerpWeights(lib, -c, theta))
    else
      Blend(o, p, SlerpWeights(lib, c, theta))
  }

  /**
   * The intended interpolation: a negative cos omega flips all of p. It
   * agrees with the source whenever no flip happens; in the linear band
   * theta = 0 yields o and theta = 1 the end point p or its antipode -p,
   * which stand for the same rotation.
   */
  function SlerpIntended(lib: MathLib, o: Vec4, p: Vec4, theta: real): (q: Vec4)
    requires SlerpDefined(lib, o, p)
    ensures CosOmega(o, p) >= 0.0 ==> q == Slerp(lib, o, p, theta)
    ensures Abs(CosOmega(o, p)) > LinearThreshold && theta == 0.0 ==> q == o
    ensures Abs(CosOmega(o, p)) > LinearThreshold && theta == 1.0 ==>
      q == (if CosOmega(o, p) >= 0.0 then p else Neg(p))
  {
    var c := CosOmega(o, p);
    if c < 0.0 then
      Blend(o, Neg(p), SlerpWeights(lib, -c, theta))
    else
      Blend(o, p, SlerpWeights(lib, c, theta))
  }

  /**
   * Interpolating a unit quaternion with itself gives it back, at every
   * theta, in both versions.
   */
  lemma SlerpOfSame(lib: MathLib, q: Vec4, theta: real)
    requires NormSq(q) == 1.0
    ensures SlerpDefined(lib, q, q)
    ensures Slerp(lib, q, q, theta) == q
    ensures SlerpIntended(lib, q, q, theta) == q
  {
    assert CosOmega(q, q) == NormSq(q);
    var k := SlerpWeights(lib, 1.0, theta);
    assert k == Weights(1.0 - theta, theta);
    BlendSame(q, k);
  }

  lemma BlendSame(q: Vec4, k: Weights)
    requires k.k0 + k.k1 == 1.0
    ensures Blend(q, q, k) == q
  {
    assert q.x * k.k0 + q.x * k.k1 == q.x * (k.k0 + k.k1);
    assert q.y * k.k0 + q.y * k.k1 == q.y * (k.k0 + k.k1);
    assert q.z * k.k0 + q.z * k.k1 == q.z * (k.k0 + k.k1);
    assert q.w * k.k0 + q.w * k.k1 == q.w * (k.k0 + k.k1);
  }

  /**
   * Interpolating from a unit quaternion o to its antipode -o, which is the
   * same rotation, the source at theta = 1 returns (-o.x, -o.y, -o.z, o.w):
   * whenever o.x and o.w are non-zero that is neither o nor -o, and so a
   * different rotation. The intended version returns o.
   */
  lemma SlerpFlipWrong(lib: MathLib, o: Vec4)
    requires NormSq(o) == 1.0 && o.x != 0.0 && o.w != 0.0
    ensures SlerpDefined(lib, o, Neg(o))
    ensures Slerp(lib, o, Neg(o), 1.0) == Vec4(-o.x, -o.y, -o.z, o.w)
    ensures Slerp(lib, o, Neg(o), 1.0) != o && Slerp(lib, o, Neg(o), 1.0) != Neg(o)
    ensures SlerpIntended(lib, o, Neg(o), 1.0) == o
  {
    var p := Neg(o);
    CosOmegaAntipode(o);
    assert Neg(p) == o;
  }

  /** The 4-D dot product of o with its antipode is -|o|^2. */
  lemma CosOmegaAntipode(o: Vec4)
    ensures CosOmega(o, Neg(o)) == -NormSq(o)
  {
  }

  /**
   * A concrete input for SlerpFlipWrong: o = (0.6, 0, 0, 0.8) is a unit
   * quaternion with non-zero x and w, so from o to -o = (-0.6, 0, 0, -0.8)
   * the source returns (-0.6, 0, 0, 0.8).
   */
  lemma SlerpFlipInstance()
    ensures var o := Vec4(0.6, 0.0, 0.0, 0.8);
      NormSq(o) == 1.0 && o.x != 0.0 && o.w != 0.0
  {
  }
}
