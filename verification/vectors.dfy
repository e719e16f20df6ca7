/**
 * The 3-vector part of the transform library (3d.c, struct vector3f of
 * 3d.h) and the 4-component record struct vector4f that the library uses
 * for 4-vectors, quaternions and colours alike.
 *
 * Operations that take their inputs by value and write a fresh result
 * through an out-pointer are functions; vector_3d_scale and
 * vector_3d_normalize, which update the vector they point at, are methods
 * on a `Vec3Cell`.
 */
module Vectors {
  import opened Scalar

  /** Vector_3d. */
  datatype Vec3 = Vec3(x: real, y: real, z: real)

  /** Vector_4d, Quaternion and Color (one C struct, three roles). */
  datatype Vec4 = Vec4(x: real, y: real, z: real, w: real)

  const Zero3 := Vec3(0.0, 0.0, 0.0)

  /** The unit vectors along the three axes. */
  const XAxis := Vec3(1.0, 0.0, 0.0)
  const YAxis := Vec3(0.0, 1.0, 0.0)
  const ZAxis := Vec3(0.0, 0.0, 1.0)

  /** vector_3d_add. */
  function Add(u: Vec3, v: Vec3): Vec3
  {
    Vec3(u.x + v.x, u.y + v.y, u.z + v.z)
  }

  /** vector_3d_add_scaled: with scale 1 it is plain addition. */
  function AddScaled(u: Vec3, v: Vec3, scale: real): (r: Vec3)
    ensures scale == 1.0 ==> r == Add(u, v)
    ensures scale == 0.0 ==> r == u
    ensures r == Add(u, Scaled(v, scale))
  {
    Vec3(u.x + v.x * scale, u.y + v.y * scale, u.z + v.z * scale)
  }

  /** vector_3d_sub: the inverse of addition. */
  function Sub(u: Vec3, v: Vec3): (r: Vec3)
    ensures Add(r, v) == u
    ensures r == AddScaled(u, v, -1.0)
  {
    Vec3(u.x - v.x, u.y - v.y, u.z - v.z)
  }

  /** The value vector_3d_scale leaves behind. */
  function Scaled(u: Vec3, s: real): Vec3
  {
    Vec3(u.x * s, u.y * s, u.z * s)
  }

  /** vector_3d_dot. */
  function Dot(u: Vec3, v: Vec3): real
  {
    u.x * v.x + u.y * v.y + u.z * v.z
  }

  /** vector_3d_cross, right-handed. */
  function Cross(u: Vec3, v: Vec3): Vec3
  {
    Vec3(u.y * v.z - u.z * v.y, u.z * v.x - u.x * v.z, u.x * v.y - u.y * v.x)
  }

  /** The cross product is orthogonal to both inputs. */
  lemma CrossOrthogonal(u: Vec3, v: Vec3)
    ensures Dot(u, Cross(u, v)) == 0.0 && Dot(v, Cross(u, v)) == 0.0
  {
  }

  /** The cross product is anti-commutative. */
  lemma CrossAntiCommutative(u: Vec3, v: Vec3)
    ensures Cross(u, v) == Scaled(Cross(v, u), -1.0)
  {
  }

  /** vector_3d_hadamard: the component-wise product. */
  function Hadamard(u: Vec3, v: Vec3): (r: Vec3)
    ensures Dot(r, Vec3(1.0, 1.0, 1.0)) == Dot(u, v)
  {
    Vec3(u.x * v.x, u.y * v.y, u.z * v.z)
  }

  /** vector_3d_length. */
  function Length(lib: MathLib, u: Vec3): real
  {
    lib.sqrt(Dot(u, u))
  }

  /** vector_3d_sub_length: the length of the difference. */
  function SubLength(lib: MathLib, u: Vec3, v: Vec3): (r: real)
    ensures r == Length(lib, Sub(u, v))
    ensures r == Length(lib, Sub(v, u))
  {
    var w := u.x - v.x;
    var h := u.y - v.y;
    var l := u.z - v.z;
    assert Sub(u, v) == Vec3(w, h, l);
    assert Sub(v, u) == Vec3(-w, -h, -l);
    assert (-w) * (-w) == w * w && (-h) * (-h) == h * h && (-l) * (-l) == l * l;
    assert Dot(Sub(u, v), Sub(u, v)) == w * w + h * h + l * l;
    assert Dot(Sub(v, u), Sub(v, u)) == w * w + h * h + l * l;
    lib.sqrt(w * w + h * h + l * l)
  }

  /**
   * The value vector_3d_normalize leaves behind: the vector divided by its
   * length, or the vector unchanged when its length is 0.
   */
  function Normalized(lib: MathLib, u: Vec3): (r: Vec3)
    ensures u == Zero3 ==> r == u
    ensures Length(lib, u) == 0.0 ==> r == u
    ensures Length(lib, u) != 0.0 ==> Scaled(r, Length(lib, u)) == u
  {
    var len := Length(lib, u);
    if 0.0 != len then Vec3(u.x / len, u.y / len, u.z / len) else u
  }

  /** Scaling a vector by `s` scales its squared length by `s * s`. */
  lemma DotScaled(u: Vec3, s: real)
    ensures Dot(Scaled(u, s), Scaled(u, s)) == Dot(u, u) * Square(s)
  {
  }

  /** Normalizing a non-zero vector with an exact square root gives a unit vector. */
  lemma NormalizedIsUnit(lib: MathLib, u: Vec3)
    requires u != Zero3
    requires SqrtExactAt(lib, Dot(u, u))
    ensures Dot(Normalized(lib, u), Normalized(lib, u)) == 1.0
  {
    var len := Length(lib, u);
    assert Dot(u, u) == Square(u.x) + Square(u.y) + Square(u.z);
    assert Square(len) == Dot(u, u);
    var n := Normalized(lib, u);
    assert Scaled(n, len) == u;
    DotScaled(n, len);
    CancelFactor(Dot(n, n), Square(len));
  }

  /**
   * vector_3d_normal: the cross product divided by its length, with no
   * guard against a zero length (the caller must pass non-parallel
   * vectors): the normalized cross product.
   */
  function Normal(lib: MathLib, u: Vec3, v: Vec3): (r: Vec3)
    requires Length(lib, Cross(u, v)) != 0.0
    ensures r == Normalized(lib, Cross(u, v))
  {
    var c := Cross(u, v);
    var len := Length(lib, c);
    Vec3(c.x / len, c.y / len, c.z / len)
  }

  /** The normal is orthogonal to both inputs. */
  lemma NormalOrthogonal(lib: MathLib, u: Vec3, v: Vec3)
    requires Length(lib, Cross(u, v)) != 0.0
    ensures Dot(u, Normal(lib, u, v)) == 0.0 && Dot(v, Normal(lib, u, v)) == 0.0
  {
    CrossOrthogonal(u, v);
    DotCommutes(u, Cross(u, v));
    DotCommutes(v, Cross(u, v));
    NormalizedOrthogonal(lib, Cross(u, v), u);
    NormalizedOrthogonal(lib, Cross(u, v), v);
    DotCommutes(u, Normal(lib, u, v));
    DotCommutes(v, Normal(lib, u, v));
  }

  lemma DotCommutes(u: Vec3, v: Vec3)
    ensures Dot(u, v) == Dot(v, u)
  {
  }

  /**
   * Lagrange's identity: the squared length of a cross product is
   * |u|^2 |v|^2 - (u . v)^2, so the cross product of two orthogonal unit
   * vectors is a unit vector.
   */
  lemma CrossOfOrthonormal(u: Vec3, v: Vec3)
    requires Dot(u, u) == 1.0 && Dot(v, v) == 1.0 && Dot(u, v) == 0.0
    ensures Dot(Cross(u, v), Cross(u, v)) == 1.0
  {
    var c := Cross(u, v);
    Lagrange(u.x, u.y, u.z, v.x, v.y, v.z, c.x, c.y, c.z);
  }

  lemma Lagrange(a: real, b: real, c: real, d: real, e: real, f: real, x: real, y: real, z: real)
    requires x == b * f - c * e && y == c * d - a * f && z == a * e - b * d
    ensures x * x + y * y + z * z
         == (a * a + b * b + c * c) * (d * d + e * e + f * f) - (a * d + b * e + c * f) * (a * d + b * e + c * f)
  {
  }

  /** Normalizing keeps a vector orthogonal to whatever it was orthogonal to. */
  lemma NormalizedOrthogonal(lib: MathLib, u: Vec3, w: Vec3)
    requires Dot(u, w) == 0.0
    ensures Dot(Normalized(lib, u), w) == 0.0
  {
    var len := Length(lib, u);
    if len != 0.0 {
      var n := Normalized(lib, u);
      DotScaledLeft(n, w, len);
      ZeroFactor(Dot(n, w), len);
    }
  }

  lemma DotScaledLeft(u: Vec3, w: Vec3, s: real)
    ensures Dot(Scaled(u, s), w) == Dot(u, w) * s
  {
  }

  /** A Vector_3d that a pointer refers to and that is updated in place. */
  class Vec3Cell {
    var x: real
    var y: real
    var z: real

    constructor (v: Vec3)
      ensures Value() == v
    {
      x, y, z := v.x, v.y, v.z;
    }

    function Value(): Vec3
      reads this
    {
      Vec3(x, y, z)
    }

    /** vector_3d_scale: scales this vector and nothing else. */
    method Scale(scalar: real)
      modifies this
      ensures Value() == Scaled(old(Value()), scalar)
    {
      x := x * scalar;
      y := y * scalar;
      z := z * scalar;
    }

    /**
     * vector_3d_normalize: divides this vector by its length unless the
     * length is 0, in which case it is left as it is.
     */
    method Normalize(lib: MathLib)
      modifies this
      ensures Value() == Normalized(lib, old(Value()))
      ensures old(Value()) == Zero3 ==> Value() == Zero3
    {
      ghost var u := Value();
      assert Dot(u, u) == x * x + y * y + z * z;
      var len := lib.sqrt(x * x + y * y + z * z);
      if 0.0 != len {
        x := x / len;
        y := y / len;
        z := z / len;
      }
    }
  }
}
