/**
 * Scalar utilities of the transform library (3d.c): the step-limited
 * approach towards a goal, degree-to-radian conversion, and the C math
 * library calls the library depends on.
 *
 * All arithmetic is over `real`: IEEE-754 rounding, -0.0, NaN and
 * infinities are not part of the model.
 */
module Scalar {

  /**
   * The math-library routines the source calls (sqrtf, sinf, cosf, tanf,
   * atan2f, asinf) and the constant M_PI. Their code is not part of this
   * model, so they are passed in as parameters; any fact about them that a
   * proof needs is stated where it is used.
   */
  datatype MathLib = MathLib(
    sqrt: real -> real,
    sin: real -> real,
    cos: real -> real,
    tan: real -> real,
    atan2: (real, real) -> real,
    asin: real -> real,
    pi: real)

  /** `lib.sqrt` returns the non-negative square root of `x`. */
  predicate SqrtExactAt(lib: MathLib, x: real)
  {
    lib.sqrt(x) >= 0.0 && lib.sqrt(x) * lib.sqrt(x) == x
  }

  /** `lib` is exact at the arguments the camera set-up evaluates. */
  predicate ExactAtZero(lib: MathLib)
  {
    lib.sin(0.0) == 0.0 && lib.cos(0.0) == 1.0 && lib.sqrt(1.0) == 1.0
  }

  /** radians(): degrees to radians with the library's value of pi. */
  function Radians(lib: MathLib, degrees: real): real
  {
    (lib.pi / 180.0) * degrees
  }

  function Abs(x: real): real
  {
    if x < 0.0 then -x else x
  }

  /**
   * approach(): move `current` towards `goal` by at most `dt`. For a
   * non-negative step the result lies between the two, moves at most `dt`,
   * and is the goal itself exactly when the goal is within reach, so it
   * never overshoots.
   */
  function Approach(goal: real, current: real, dt: real): (r: real)
    ensures dt >= 0.0 ==> Abs(r - current) <= dt
    ensures dt >= 0.0 ==> (current <= goal ==> current <= r <= goal)
    ensures dt >= 0.0 ==> (goal <= current ==> goal <= r <= current)
    ensures dt >= 0.0 ==> (r == goal <==> Abs(goal - current) <= dt)
    ensures dt >= 0.0 && Abs(goal - current) > dt ==> Abs(goal - r) == Abs(goal - current) - dt
  {
    var diff := goal - current;
    if diff > dt then current + dt
    else if diff < -dt then current - dt
    else goal
  }

  // Small facts of real arithmetic that the solver does not find unaided.

  lemma MulNonZero(a: real, b: real)
    requires a != 0.0 && b != 0.0
    ensures a * b != 0.0
  {
  }

  lemma ZeroFactor(a: real, b: real)
    requires b != 0.0 && a * b == 0.0
    ensures a == 0.0
  {
  }

  lemma DivUnique(x: real, y: real, z: real)
    requires z != 0.0
    requires x * z == y
    ensures x == y / z
  {
  }

  /** A product, kept as a function so that its sign facts travel with it. */
  function Mul(a: real, b: real): (r: real)
    ensures (a > 0.0 && b > 0.0) || (a < 0.0 && b < 0.0) ==> r > 0.0
  {
    a * b
  }

  /** A square is non-negative, and positive away from 0. */
  function Square(x: real): (r: real)
    ensures r >= 0.0
    ensures x != 0.0 ==> r > 0.0
    ensures r == x * x
  {
    Mul(x, x)
  }

  lemma CancelFactor(x: real, d: real)
    requires d != 0.0 && Mul(x, d) == d
    ensures x == 1.0
  {
    assert (x - 1.0) * d == 0.0;
  }
}
