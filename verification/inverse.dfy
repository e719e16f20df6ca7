/**
 * matrix_4x4_invert (3d.c): the general inverse by cofactors. The source
 * fills a local matrix `inv` with the sixteen signed 3x3 minors of `m`
 * (the adjugate), takes the determinant as the first row of `m` times the
 * first column of `inv`, and, when that is non-zero, writes `inv` scaled by
 * the reciprocal of the determinant into `out` in a loop over the raw
 * array.
 */
module Inverse {
  import opened Matrices

  /**
   * The sixteen cofactor expressions matrix_4x4_invert writes into
   * `inv.array[0]` .. `inv.array[15]`, over the array elements `m0 .. m15`
   * of its input. They take plain reals so that the identities below are
   * stated about polynomials in sixteen variables.
   */
  function Cofactors(
    m0: real, m1: real, m2: real, m3: real, m4: real, m5: real,
    m6: real, m7: real, m8: real, m9: real, m10: real, m11: real,
    m12: real, m13: real, m14: real, m15: real): Mat
  {
    [
      // inv[0]
      m5 * m10 * m15 - m5 * m11 * m14 - m9 * m6 * m15
        + m9 * m7 * m14 + m13 * m6 * m11 - m13 * m7 * m10,
      // inv[1]
      -m1 * m10 * m15 + m1 * m11 * m14 + m9 * m2 * m15
        - m9 * m3 * m14 - m13 * m2 * m11 + m13 * m3 * m10,
      // inv[2]
      m1 * m6 * m15 - m1 * m7 * m14 - m5 * m2 * m15
        + m5 * m3 * m14 + m13 * m2 * m7 - m13 * m3 * m6,
      // inv[3]
      -m1 * m6 * m11 + m1 * m7 * m10 + m5 * m2 * m11
        - m5 * m3 * m10 - m9 * m2 * m7 + m9 * m3 * m6,
      // inv[4]
      -m4 * m10 * m15 + m4 * m11 * m14 + m8 * m6 * m15
        - m8 * m7 * m14 - m12 * m6 * m11 + m12 * m7 * m10,
      // inv[5]
      m0 * m10 * m15 - m0 * m11 * m14 - m8 * m2 * m15
        + m8 * m3 * m14 + m12 * m2 * m11 - m12 * m3 * m10,
      // inv[6]
      -m0 * m6 * m15 + m0 * m7 * m14 + m4 * m2 * m15
        - m4 * m3 * m14 - m12 * m2 * m7 + m12 * m3 * m6,
      // inv[7]
      m0 * m6 * m11 - m0 * m7 * m10 - m4 * m2 * m11
        + m4 * m3 * m10 + m8 * m2 * m7 - m8 * m3 * m6,
      // inv[8]
      m4 * m9 * m15 - m4 * m11 * m13 - m8 * m5 * m15
        + m8 * m7 * m13 + m12 * m5 * m11 - m12 * m7 * m9,
      // inv[9]
      -m0 * m9 * m15 + m0 * m11 * m13 + m8 * m1 * m15
        - m8 * m3 * m13 - m12 * m1 * m11 + m12 * m3 * m9,
      // inv[10]
      m0 * m5 * m15 - m0 * m7 * m13 - m4 * m1 * m15
        + m4 * m3 * m13 + m12 * m1 * m7 - m12 * m3 * m5,
      // inv[11]
      -m0 * m5 * m11 + m0 * m7 * m9 + m4 * m1 * m11
        - m4 * m3 * m9 - m8 * m1 * m7 + m8 * m3 * m5,
      // inv[12]
      -m4 * m9 * m14 + m4 * m10 * m13 + m8 * m5 * m14
        - m8 * m6 * m13 - m12 * m5 * m10 + m12 * m6 * m9,
      // inv[13]
      m0 * m9 * m14 - m0 * m10 * m13 - m8 * m1 * m14
        + m8 * m2 * m13 + m12 * m1 * m10 - m12 * m2 * m9,
      // inv[14]
      -m0 * m5 * m14 + m0 * m6 * m13 + m4 * m1 * m14
        - m4 * m2 * m13 - m12 * m1 * m6 + m12 * m2 * m5,
      // inv[15]
      m0 * m5 * m10 - m0 * m6 * m9 - m4 * m1 * m10
        + m4 * m2 * m9 + m8 * m1 * m6 - m8 * m2 * m5
    ]
  }

  /** The `inv` matrix matrix_4x4_invert computes from `m`: the adjugate. */
  function Adjugate(m: Mat): Mat
  {
    Cofactors(m[0], m[1], m[2], m[3], m[4], m[5], m[6], m[7], m[8], m[9], m[10], m[11], m[12], m[13], m[14], m[15])
  }

  /** The determinant matrix_4x4_invert tests: row 0 of `m` times column 0 of `inv`. */
  function Det(m: Mat): real
  {
    var inv := Adjugate(m);
    m[0] * inv[0] + m[1] * inv[4] + m[2] * inv[8] + m[3] * inv[12]
  }

  /** Every element of `m` times `s`, as the copy loop of matrix_4x4_invert writes it. */
  function ScaledMat(m: Mat, s: real): Mat
  {
    seq(16, i requires 0 <= i < 16 => m[i] * s)
  }

  // Cofactor expansion, one entry of m * inv at a time: row r of m against
  // column c of the cofactors is the determinant when r == c and 0
  // otherwise (a matrix with two equal rows has determinant 0). Each is a
  // polynomial identity in the sixteen elements.

  lemma Expansion01(
    m0: real, m1: real, m2: real, m3: real, m4: real, m5: real,
    m6: real, m7: real, m8: real, m9: real, m10: real, m11: real,
    m12: real, m13: real, m14: real, m15: real,
    a1: real, a5: real, a9: real, a13: real)
    requires a1 == -m1 * m10 * m15 + m1 * m11 * m14 + m9 * m2 * m15
      - m9 * m3 * m14 - m13 * m2 * m11 + m13 * m3 * m10
    requires a5 == m0 * m10 * m15 - m0 * m11 * m14 - m8 * m2 * m15
      + m8 * m3 * m14 + m12 * m2 * m11 - m12 * m3 * m10
    requires a9 == -m0 * m9 * m15 + m0 * m11 * m13 + m8 * m1 * m15
      - m8 * m3 * m13 - m12 * m1 * m11 + m12 * m3 * m9
    requires a13 == m0 * m9 * m14 - m0 * m10 * m13 - m8 * m1 * m14
      + m8 * m2 * m13 + m12 * m1 * m10 - m12 * m2 * m9
    ensures m0 * a1 + m1 * a5 + m2 * a9 + m3 * a13 == 0.0
  {
  }

  lemma Expansion02(
    m0: real, m1: real, m2: real, m3: real, m4: real, m5: real,
    m6: real, m7: real, m8: real, m9: real, m10: real, m11: real,
    m12: real, m13: real, m14: real, m15: real,
    a2: real, a6: real, a10: real, a14: real)
    requires a2 == m1 * m6 * m15 - m1 * m7 * m14 - m5 * m2 * m15
      + m5 * m3 * m14 + m13 * m2 * m7 - m13 * m3 * m6
    requires a6 == -m0 * m6 * m15 + m0 * m7 * m14 + m4 * m2 * m15
      - m4 * m3 * m14 - m12 * m2 * m7 + m12 * m3 * m6
    requires a10 == m0 * m5 * m15 - m0 * m7 * m13 - m4 * m1 * m15
      + m4 * m3 * m13 + m12 * m1 * m7 - m12 * m3 * m5
    requires a14 == -m0 * m5 * m14 + m0 * m6 * m13 + m4 * m1 * m14
      - m4 * m2 * m13 - m12 * m1 * m6 + m12 * m2 * m5
    ensures m0 * a2 + m1 * a6 + m2 * a10 + m3 * a14 == 0.0
  {
  }

  lemma Expansion03(
    m0: real, m1: real, m2: real, m3: real, m4: real, m5: real,
    m6: real, m7: real, m8: real, m9: real, m10: real, m11: real,
    m12: real, m13: real, m14: real, m15: real,
    a3: real, a7: real, a11: real, a15: real)
    requires a3 == -m1 * m6 * m11 + m1 * m7 * m10 + m5 * m2 * m11
      - m5 * m3 * m10 - m9 * m2 * m7 + m9 * m3 * m6
    requires a7 == m0 * m6 * m11 - m0 * m7 * m10 - m4 * m2 * m11
      + m4 * m3 * m10 + m8 * m2 * m7 - m8 * m3 * m6
    requires a11 == -m0 * m5 * m11 + m0 * m7 * m9 + m4 * m1 * m11
      - m4 * m3 * m9 - m8 * m1 * m7 + m8 * m3 * m5
    requires a15 == m0 * m5 * m10 - m0 * m6 * m9 - m4 * m1 * m10
      + m4 * m2 * m9 + m8 * m1 * m6 - m8 * m2 * m5
    ensures m0 * a3 + m1 * a7 + m2 * a11 + m3 * a15 == 0.0
  {
  }

  lemma Expansion10(
    m0: real, m1: real, m2: real, m3: real, m4: real, m5: real,
    m6: real, m7: real, m8: real, m9: real, m10: real, m11: real,
    m12: real, m13: real, m14: real, m15: real,
    a0: real, a4: real, a8: real, a12: real)
    requires a0 == m5 * m10 * m15 - m5 * m11 * m14 - m9 * m6 * m15
      + m9 * m7 * m14 + m13 * m6 * m11 - m13 * m7 * m10
    requires a4 == -m4 * m10 * m15 + m4 * m11 * m14 + m8 * m6 * m15
      - m8 * m7 * m14 - m12 * m6 * m11 + m12 * m7 * m10
    requires a8 == m4 * m9 * m15 - m4 * m11 * m13 - m8 * m5 * m15
      + m8 * m7 * m13 + m12 * m5 * m11 - m12 * m7 * m9
    requires a12 == -m4 * m9 * m14 + m4 * m10 * m13 + m8 * m5 * m14
      - m8 * m6 * m13 - m12 * m5 * m10 + m12 * m6 * m9
    ensures m4 * a0 + m5 * a4 + m6 * a8 + m7 * a12 == 0.0
  {
  }

  lemma Expansion11(
    m0: real, m1: real, m2: real, m3: real, m4: real, m5: real,
    m6: real, m7: real, m8: real, m9: real, m10: real, m11: real,
    m12: real, m13: real, m14: real, m15: real,
    a0: real, a1: real, a4: real, a5: real, a8: real, a9: real, a12: real, a13: real)
    requires a0 == m5 * m10 * m15 - m5 * m11 * m14 - m9 * m6 * m15
      + m9 * m7 * m14 + m13 * m6 * m11 - m13 * m7 * m10
    requires a1 == -m1 * m10 * m15 + m1 * m11 * m14 + m9 * m2 * m15
      - m9 * m3 * m14 - m13 * m2 * m11 + m13 * m3 * m10
    requires a4 == -m4 * m10 * m15 + m4 * m11 * m14 + m8 * m6 * m15
      - m8 * m7 * m14 - m12 * m6 * m11 + m12 * m7 * m10
    requires a5 == m0 * m10 * m15 - m0 * m11 * m14 - m8 * m2 * m15
      + m8 * m3 * m14 + m12 * m2 * m11 - m12 * m3 * m10
    requires a8 == m4 * m9 * m15 - m4 * m11 * m13 - m8 * m5 * m15
      + m8 * m7 * m13 + m12 * m5 * m11 - m12 * m7 * m9
    requires a9 == -m0 * m9 * m15 + m0 * m11 * m13 + m8 * m1 * m15
      - m8 * m3 * m13 - m12 * m1 * m11 + m12 * m3 * m9
    requires a12 == -m4 * m9 * m14 + m4 * m10 * m13 + m8 * m5 * m14
      - m8 * m6 * m13 - m12 * m5 * m10 + m12 * m6 * m9
    requires a13 == m0 * m9 * m14 - m0 * m10 * m13 - m8 * m1 * m14
      + m8 * m2 * m13 + m12 * m1 * m10 - m12 * m2 * m9
    ensures m4 * a1 + m5 * a5 + m6 * a9 + m7 * a13 == m0 * a0 + m1 * a4 + m2 * a8 + m3 * a12
  {
  }

  lemma Expansion12(
    m0: real, m1: real, m2: real, m3: real, m4: real, m5: real,
    m6: real, m7: real, m8: real, m9: real, m10: real, m11: real,
    m12: real, m13: real, m14: real, m15: real,
    a2: real, a6: real, a10: real, a14: real)
    requires a2 == m1 * m6 * m15 - m1 * m7 * m14 - m5 * m2 * m15
      + m5 * m3 * m14 + m13 * m2 * m7 - m13 * m3 * m6
    requires a6 == -m0 * m6 * m15 + m0 * m7 * m14 + m4 * m2 * m15
      - m4 * m3 * m14 - m12 * m2 * m7 + m12 * m3 * m6
    requires a10 == m0 * m5 * m15 - m0 * m7 * m13 - m4 * m1 * m15
      + m4 * m3 * m13 + m12 * m1 * m7 - m12 * m3 * m5
    requires a14 == -m0 * m5 * m14 + m0 * m6 * m13 + m4 * m1 * m14
      - m4 * m2 * m13 - m12 * m1 * m6 + m12 * m2 * m5
    ensures m4 * a2 + m5 * a6 + m6 * a10 + m7 * a14 == 0.0
  {
  }

  lemma Expansion13(
    m0: real, m1: real, m2: real, m3: real, m4: real, m5: real,
    m6: real, m7: real, m8: real, m9: real, m10: real, m11: real,
    m12: real, m13: real, m14: real, m15: real,
    a3: real, a7: real, a11: real, a15: real)
    requires a3 == -m1 * m6 * m11 + m1 * m7 * m10 + m5 * m2 * m11
      - m5 * m3 * m10 - m9 * m2 * m7 + m9 * m3 * m6
    requires a7 == m0 * m6 * m11 - m0 * m7 * m10 - m4 * m2 * m11
      + m4 * m3 * m10 + m8 * m2 * m7 - m8 * m3 * m6
    requires a11 == -m0 * m5 * m11 + m0 * m7 * m9 + m4 * m1 * m11
      - m4 * m3 * m9 - m8 * m1 * m7 + m8 * m3 * m5
    requires a15 == m0 * m5 * m10 - m0 * m6 * m9 - m4 * m1 * m10
      + m4 * m2 * m9 + m8 * m1 * m6 - m8 * m2 * m5
    ensures m4 * a3 + m5 * a7 + m6 * a11 + m7 * a15 == 0.0
  {
  }

  lemma Expansion20(
    m0: real, m1: real, m2: real, m3: real, m4: real, m5: real,
    m6: real, m7: real, m8: real, m9: real, m10: real, m11: real,
    m12: real, m13: real, m14: real, m15: real,
    a0: real, a4: real, a8: real, a12: real)
    requires a0 == m5 * m10 * m15 - m5 * m11 * m14 - m9 * m6 * m15
      + m9 * m7 * m14 + m13 * m6 * m11 - m13 * m7 * m10
    requires a4 == -m4 * m10 * m15 + m4 * m11 * m14 + m8 * m6 * m15
      - m8 * m7 * m14 - m12 * m6 * m11 + m12 * m7 * m10
    requires a8 == m4 * m9 * m15 - m4 * m11 * m13 - m8 * m5 * m15
      + m8 * m7 * m13 + m12 * m5 * m11 - m12 * m7 * m9
    requires a12 == -m4 * m9 * m14 + m4 * m10 * m13 + m8 * m5 * m14
      - m8 * m6 * m13 - m12 * m5 * m10 + m12 * m6 * m9
    ensures m8 * a0 + m9 * a4 + m10 * a8 + m11 * a12 == 0.0
  {
  }

  lemma Expansion21(
    m0: real, m1: real, m2: real, m3: real, m4: real, m5: real,
    m6: real, m7: real, m8: real, m9: real, m10: real, m11: real,
    m12: real, m13: real, m14: real, m15: real,
    a1: real, a5: real, a9: real, a13: real)
    requires a1 == -m1 * m10 * m15 + m1 * m11 * m14 + m9 * m2 * m15
      - m9 * m3 * m14 - m13 * m2 * m11 + m13 * m3 * m10
    requires a5 == m0 * m10 * m15 - m0 * m11 * m14 - m8 * m2 * m15
      + m8 * m3 * m14 + m12 * m2 * m11 - m12 * m3 * m10
    requires a9 == -m0 * m9 * m15 + m0 * m11 * m13 + m8 * m1 * m15
      - m8 * m3 * m13 - m12 * m1 * m11 + m12 * m3 * m9
    requires a13 == m0 * m9 * m14 - m0 * m10 * m13 - m8 * m1 * m14
      + m8 * m2 * m13 + m12 * m1 * m10 - m12 * m2 * m9
    ensures m8 * a1 + m9 * a5 + m10 * a9 + m11 * a13 == 0.0
  {
  }

  lemma Expansion22(
    m0: real, m1: real, m2: real, m3: real, m4: real, m5: real,
    m6: real, m7: real, m8: real, m9: real, m10: real, m11: real,
    m12: real, m13: real, m14: real, m15: real,
    a0: real, a2: real, a4: real, a6: real, a8: real, a10: real, a12: real, a14: real)
    requires a0 == m5 * m10 * m15 - m5 * m11 * m14 - m9 * m6 * m15
      + m9 * m7 * m14 + m13 * m6 * m11 - m13 * m7 * m10
    requires a2 == m1 * m6 * m15 - m1 * m7 * m14 - m5 * m2 * m15
      + m5 * m3 * m14 + m13 * m2 * m7 - m13 * m3 * m6
    requires a4 == -m4 * m10 * m15 + m4 * m11 * m14 + m8 * m6 * m15
      - m8 * m7 * m14 - m12 * m6 * m11 + m12 * m7 * m10
    requires a6 == -m0 * m6 * m15 + m0 * m7 * m14 + m4 * m2 * m15
      - m4 * m3 * m14 - m12 * m2 * m7 + m12 * m3 * m6
    requires a8 == m4 * m9 * m15 - m4 * m11 * m13 - m8 * m5 * m15
      + m8 * m7 * m13 + m12 * m5 * m11 - m12 * m7 * m9
    requires a10 == m0 * m5 * m15 - m0 * m7 * m13 - m4 * m1 * m15
      + m4 * m3 * m13 + m12 * m1 * m7 - m12 * m3 * m5
    requires a12 == -m4 * m9 * m14 + m4 * m10 * m13 + m8 * m5 * m14
      - m8 * m6 * m13 - m12 * m5 * m10 + m12 * m6 * m9
    requires a14 == -m0 * m5 * m14 + m0 * m6 * m13 + m4 * m1 * m14
      - m4 * m2 * m13 - m12 * m1 * m6 + m12 * m2 * m5
    ensures m8 * a2 + m9 * a6 + m10 * a10 + m11 * a14 == m0 * a0 + m1 * a4 + m2 * a8 + m3 * a12
  {
  }

  lemma Expansion23(
    m0: real, m1: real, m2: real, m3: real, m4: real, m5: real,
    m6: real, m7: real, m8: real, m9: real, m10: real, m11: real,
    m12: real, m13: real, m14: real, m15: real,
    a3: real, a7: real, a11: real, a15: real)
    requires a3 == -m1 * m6 * m11 + m1 * m7 * m10 + m5 * m2 * m11
      - m5 * m3 * m10 - m9 * m2 * m7 + m9 * m3 * m6
    requires a7 == m0 * m6 * m11 - m0 * m7 * m10 - m4 * m2 * m11
      + m4 * m3 * m10 + m8 * m2 * m7 - m8 * m3 * m6
    requires a11 == -m0 * m5 * m11 + m0 * m7 * m9 + m4 * m1 * m11
      - m4 * m3 * m9 - m8 * m1 * m7 + m8 * m3 * m5
    requires a15 == m0 * m5 * m10 - m0 * m6 * m9 - m4 * m1 * m10
      + m4 * m2 * m9 + m8 * m1 * m6 - m8 * m2 * m5
    ensures m8 * a3 + m9 * a7 + m10 * a11 + m11 * a15 == 0.0
  {
  }

  lemma Expansion30(
    m0: real, m1: real, m2: real, m3: real, m4: real, m5: real,
    m6: real, m7: real, m8: real, m9: real, m10: real, m11: real,
    m12: real, m13: real, m14: real, m15: real,
    a0: real, a4: real, a8: real, a12: real)
    requires a0 == m5 * m10 * m15 - m5 * m11 * m14 - m9 * m6 * m15
      + m9 * m7 * m14 + m13 * m6 * m11 - m13 * m7 * m10
    requires a4 == -m4 * m10 * m15 + m4 * m11 * m14 + m8 * m6 * m15
      - m8 * m7 * m14 - m12 * m6 * m11 + m12 * m7 * m10
    requires a8 == m4 * m9 * m15 - m4 * m11 * m13 - m8 * m5 * m15
      + m8 * m7 * m13 + m12 * m5 * m11 - m12 * m7 * m9
    requires a12 == -m4 * m9 * m14 + m4 * m10 * m13 + m8 * m5 * m14
      - m8 * m6 * m13 - m12 * m5 * m10 + m12 * m6 * m9
    ensures m12 * a0 + m13 * a4 + m14 * a8 + m15 * a12 == 0.0
  {
  }

  lemma Expansion31(
    m0: real, m1: real, m2: real, m3: real, m4: real, m5: real,
    m6: real, m7: real, m8: real, m9: real, m10: real, m11: real,
    m12: real, m13: real, m14: real, m15: real,
    a1: real, a5: real, a9: real, a13: real)
    requires a1 == -m1 * m10 * m15 + m1 * m11 * m14 + m9 * m2 * m15
      - m9 * m3 * m14 - m13 * m2 * m11 + m13 * m3 * m10
    requires a5 == m0 * m10 * m15 - m0 * m11 * m14 - m8 * m2 * m15
      + m8 * m3 * m14 + m12 * m2 * m11 - m12 * m3 * m10
    requires a9 == -m0 * m9 * m15 + m0 * m11 * m13 + m8 * m1 * m15
      - m8 * m3 * m13 - m12 * m1 * m11 + m12 * m3 * m9
    requires a13 == m0 * m9 * m14 - m0 * m10 * m13 - m8 * m1 * m14
      + m8 * m2 * m13 + m12 * m1 * m10 - m12 * m2 * m9
    ensures m12 * a1 + m13 * a5 + m14 * a9 + m15 * a13 == 0.0
  {
  }

  lemma Expansion32(
    m0: real, m1: real, m2: real, m3: real, m4: real, m5: real,
    m6: real, m7: real, m8: real, m9: real, m10: real, m11: real,
    m12: real, m13: real, m14: real, m15: real,
    a2: real, a6: real, a10: real, a14: real)
    requires a2 == m1 * m6 * m15 - m1 * m7 * m14 - m5 * m2 * m15
      + m5 * m3 * m14 + m13 * m2 * m7 - m13 * m3 * m6
    requires a6 == -m0 * m6 * m15 + m0 * m7 * m14 + m4 * m2 * m15
      - m4 * m3 * m14 - m12 * m2 * m7 + m12 * m3 * m6
    requires a10 == m0 * m5 * m15 - m0 * m7 * m13 - m4 * m1 * m15
      + m4 * m3 * m13 + m12 * m1 * m7 - m12 * m3 * m5
    requires a14 == -m0 * m5 * m14 + m0 * m6 * m13 + m4 * m1 * m14
      - m4 * m2 * m13 - m12 * m1 * m6 + m12 * m2 * m5
    ensures m12 * a2 + m13 * a6 + m14 * a10 + m15 * a14 == 0.0
  {
  }

  lemma Expansion33(
    m0: real, m1: real, m2: real, m3: real, m4: real, m5: real,
    m6: real, m7: real, m8: real, m9: real, m10: real, m11: real,
    m12: real, m13: real, m14: real, m15: real,
    a0: real, a3: real, a4: real, a7: real, a8: real, a11: real, a12: real, a15: real)
    requires a0 == m5 * m10 * m15 - m5 * m11 * m14 - m9 * m6 * m15
      + m9 * m7 * m14 + m13 * m6 * m11 - m13 * m7 * m10
    requires a3 == -m1 * m6 * m11 + m1 * m7 * m10 + m5 * m2 * m11
      - m5 * m3 * m10 - m9 * m2 * m7 + m9 * m3 * m6
    requires a4 == -m4 * m10 * m15 + m4 * m11 * m14 + m8 * m6 * m15
      - m8 * m7 * m14 - m12 * m6 * m11 + m12 * m7 * m10
    requires a7 == m0 * m6 * m11 - m0 * m7 * m10 - m4 * m2 * m11
      + m4 * m3 * m10 + m8 * m2 * m7 - m8 * m3 * m6
    requires a8 == m4 * m9 * m15 - m4 * m11 * m13 - m8 * m5 * m15
      + m8 * m7 * m13 + m12 * m5 * m11 - m12 * m7 * m9
    requires a11 == -m0 * m5 * m11 + m0 * m7 * m9 + m4 * m1 * m11
      - m4 * m3 * m9 - m8 * m1 * m7 + m8 * m3 * m5
    requires a12 == -m4 * m9 * m14 + m4 * m10 * m13 + m8 * m5 * m14
      - m8 * m6 * m13 - m12 * m5 * m10 + m12 * m6 * m9
    requires a15 == m0 * m5 * m10 - m0 * m6 * m9 - m4 * m1 * m10
      + m4 * m2 * m9 + m8 * m1 * m6 - m8 * m2 * m5
    ensures m12 * a3 + m13 * a7 + m14 * a11 + m15 * a15 == m0 * a0 + m1 * a4 + m2 * a8 + m3 * a12
  {
  }

  /** Entry (0, 0) of m * Adjugate(m) is the determinant, by the definition of Det. */
  lemma AdjugateEntry00(
    m0: real, m1: real, m2: real, m3: real, m4: real, m5: real,
    m6: real, m7: real, m8: real, m9: real, m10: real, m11: real,
    m12: real, m13: real, m14: real, m15: real)
    ensures RowCol([m0, m1, m2, m3, m4, m5, m6, m7, m8, m9, m10, m11, m12, m13, m14, m15], Cofactors(m0, m1, m2, m3, m4, m5, m6, m7, m8, m9, m10, m11, m12, m13, m14, m15), 0, 0)
         == Det([m0, m1, m2, m3, m4, m5, m6, m7, m8, m9, m10, m11, m12, m13, m14, m15])
  {
  }

  /** Entry (0, 1) of m * Adjugate(m), for m given element by element. */
  lemma AdjugateEntry01(
    m0: real, m1: real, m2: real, m3: real, m4: real, m5: real,
    m6: real, m7: real, m8: real, m9: real, m10: real, m11: real,
    m12: real, m13: real, m14: real, m15: real)
    ensures RowCol([m0, m1, m2, m3, m4, m5, m6, m7, m8, m9, m10, m11, m12, m13, m14, m15], Cofactors(m0, m1, m2, m3, m4, m5, m6, m7, m8, m9, m10, m11, m12, m13, m14, m15), 0, 1)
         == 0.0
  {
    var a := Cofactors(m0, m1, m2, m3, m4, m5, m6, m7, m8, m9, m10, m11, m12, m13, m14, m15);
    Expansion01(m0, m1, m2, m3, m4, m5, m6, m7, m8, m9, m10, m11, m12, m13, m14, m15, a[1], a[5], a[9], a[13]);
  }

  /** Entry (0, 2) of m * Adjugate(m), for m given element by element. */
  lemma AdjugateEntry02(
    m0: real, m1: real, m2: real, m3: real, m4: real, m5: real,
    m6: real, m7: real, m8: real, m9: real, m10: real, m11: real,
    m12: real, m13: real, m14: real, m15: real)
    ensures RowCol([m0, m1, m2, m3, m4, m5, m6, m7, m8, m9, m10, m11, m12, m13, m14, m15], Cofactors(m0, m1, m2, m3, m4, m5, m6, m7, m8, m9, m10, m11, m12, m13, m14, m15), 0, 2)
         == 0.0
  {
    var a := Cofactors(m0, m1, m2, m3, m4, m5, m6, m7, m8, m9, m10, m11, m12, m13, m14, m15);
    Expansion02(m0, m1, m2, m3, m4, m5, m6, m7, m8, m9, m10, m11, m12, m13, m14, m15, a[2], a[6], a[10], a[14]);
  }

  /** Entry (0, 3) of m * Adjugate(m), for m given element by element. */
  lemma AdjugateEntry03(
    m0: real, m1: real, m2: real, m3: real, m4: real, m5: real,
    m6: real, m7: real, m8: real, m9: real, m10: real, m11: real,
    m12: real, m13: real, m14: real, m15: real)
    ensures RowCol([m0, m1, m2, m3, m4, m5, m6, m7, m8, m9, m10, m11, m12, m13, m14, m15], Cofactors(m0, m1, m2, m3, m4, m5, m6, m7, m8, m9, m10, m11, m12, m13, m14, m15), 0, 3)
         == 0.0
  {
    var a := Cofactors(m0, m1, m2, m3, m4, m5, m6, m7, m8, m9, m10, m11, m12, m13, m14, m15);
    Expansion03(m0, m1, m2, m3, m4, m5, m6, m7, m8, m9, m10, m11, m12, m13, m14, m15, a[3], a[7], a[11], a[15]);
  }

  /** Entry (1, 0) of m * Adjugate(m), for m given element by element. */
  lemma AdjugateEntry10(
    m0: real, m1: real, m2: real, m3: real, m4: real, m5: real,
    m6: real, m7: real, m8: real, m9: real, m10: real, m11: real,
    m12: real, m13: real, m14: real, m15: real)
    ensures RowCol([m0, m1, m2, m3, m4, m5, m6, m7, m8, m9, m10, m11, m12, m13, m14, m15], Cofactors(m0, m1, m2, m3, m4, m5, m6, m7, m8, m9, m10, m11, m12, m13, m14, m15), 1, 0)
         == 0.0
  {
    var a := Cofactors(m0, m1, m2, m3, m4, m5, m6, m7, m8, m9, m10, m11, m12, m13, m14, m15);
    Expansion10(m0, m1, m2, m3, m4, m5, m6, m7, m8, m9, m10, m11, m12, m13, m14, m15, a[0], a[4], a[8], a[12]);
  }

  /** Entry (1, 1) of m * Adjugate(m), for m given element by element. */
  lemma AdjugateEntry11(
    m0: real, m1: real, m2: real, m3: real, m4: real, m5: real,
    m6: real, m7: real, m8: real, m9: real, m10: real, m11: real,
    m12: real, m13: real, m14: real, m15: real)
    ensures RowCol([m0, m1, m2, m3, m4, m5, m6, m7, m8, m9, m10, m11, m12, m13, m14, m15], Cofactors(m0, m1, m2, m3, m4, m5, m6, m7, m8, m9, m10, m11, m12, m13, m14, m15), 1, 1)
         == Det([m0, m1, m2, m3, m4, m5, m6, m7, m8, m9, m10, m11, m12, m13, m14, m15])
  {
    var a := Cofactors(m0, m1, m2, m3, m4, m5, m6, m7, m8, m9, m10, m11, m12, m13, m14, m15);
    Expansion11(m0, m1, m2, m3, m4, m5, m6, m7, m8, m9, m10, m11, m12, m13, m14, m15, a[0], a[1], a[4], a[5], a[8], a[9], a[12], a[13]);
  }

  /** Entry (1, 2) of m * Adjugate(m), for m given element by element. */
  lemma AdjugateEntry12(
    m0: real, m1: real, m2: real, m3: real, m4: real, m5: real,
    m6: real, m7: real, m8: real, m9: real, m10: real, m11: real,
    m12: real, m13: real, m14: real, m15: real)
    ensures RowCol([m0, m1, m2, m3, m4, m5, m6, m7, m8, m9, m10, m11, m12, m13, m14, m15], Cofactors(m0, m1, m2, m3, m4, m5, m6, m7, m8, m9, m10, m11, m12, m13, m14, m15), 1, 2)
         == 0.0
  {
    var a := Cofactors(m0, m1, m2, m3, m4, m5, m6, m7, m8, m9, m10, m11, m12, m13, m14, m15);
    Expansion12(m0, m1, m2, m3, m4, m5, m6, m7, m8, m9, m10, m11, m12, m13, m14, m15, a[2], a[6], a[10], a[14]);
  }

  /** Entry (1, 3) of m * Adjugate(m), for m given element by element. */
  lemma AdjugateEntry13(
    m0: real, m1: real, m2: real, m3: real, m4: real, m5: real,
    m6: real, m7: real, m8: real, m9: real, m10: real, m11: real,
    m12: real, m13: real, m14: real, m15: real)
    ensures RowCol([m0, m1, m2, m3, m4, m5, m6, m7, m8, m9, m10, m11, m12, m13, m14, m15], Cofactors(m0, m1, m2, m3, m4, m5, m6, m7, m8, m9, m10, m11, m12, m13, m14, m15), 1, 3)
         == 0.0
  {
    var a := Cofactors(m0, m1, m2, m3, m4, m5, m6, m7, m8, m9, m10, m11, m12, m13, m14, m15);
    Expansion13(m0, m1, m2, m3, m4, m5, m6, m7, m8, m9, m10, m11, m12, m13, m14, m15, a[3], a[7], a[11], a[15]);
  }

  /** Entry (2, 0) of m * Adjugate(m), for m given element by element. */
  lemma AdjugateEntry20(
    m0: real, m1: real, m2: real, m3: real, m4: real, m5: real,
    m6: real, m7: real, m8: real, m9: real, m10: real, m11: real,
    m12: real, m13: real, m14: real, m15: real)
    ensures RowCol([m0, m1, m2, m3, m4, m5, m6, m7, m8, m9, m10, m11, m12, m13, m14, m15], Cofactors(m0, m1, m2, m3, m4, m5, m6, m7, m8, m9, m10, m11, m12, m13, m14, m15), 2, 0)
         == 0.0
  {
    var a := Cofactors(m0, m1, m2, m3, m4, m5, m6, m7, m8, m9, m10, m11, m12, m13, m14, m15);
    Expansion20(m0, m1, m2, m3, m4, m5, m6, m7, m8, m9, m10, m11, m12, m13, m14, m15, a[0], a[4], a[8], a[12]);
  }

  /** Entry (2, 1) of m * Adjugate(m), for m given element by element. */
  lemma AdjugateEntry21(
    m0: real, m1: real, m2: real, m3: real, m4: real, m5: real,
    m6: real, m7: real, m8: real, m9: real, m10: real, m11: real,
    m12: real, m13: real, m14: real, m15: real)
    ensures RowCol([m0, m1, m2, m3, m4, m5, m6, m7, m8, m9, m10, m11, m12, m13, m14, m15], Cofactors(m0, m1, m2, m3, m4, m5, m6, m7, m8, m9, m10, m11, m12, m13, m14, m15), 2, 1)
         == 0.0
  {
    var a := Cofactors(m0, m1, m2, m3, m4, m5, m6, m7, m8, m9, m10, m11, m12, m13, m14, m15);
    Expansion21(m0, m1, m2, m3, m4, m5, m6, m7, m8, m9, m10, m11, m12, m13, m14, m15, a[1], a[5], a[9], a[13]);
  }

  /** Entry (2, 2) of m * Adjugate(m), for m given element by element. */
  lemma AdjugateEntry22(
    m0: real, m1: real, m2: real, m3: real, m4: real, m5: real,
    m6: real, m7: real, m8: real, m9: real, m10: real, m11: real,
    m12: real, m13: real, m14: real, m15: real)
    ensures RowCol([m0, m1, m2, m3, m4, m5, m6, m7, m8, m9, m10, m11, m12, m13, m14, m15], Cofactors(m0, m1, m2, m3, m4, m5, m6, m7, m8, m9, m10, m11, m12, m13, m14, m15), 2, 2)
         == Det([m0, m1, m2, m3, m4, m5, m6, m7, m8, m9, m10, m11, m12, m13, m14, m15])
  {
    var a := Cofactors(m0, m1, m2, m3, m4, m5, m6, m7, m8, m9, m10, m11, m12, m13, m14, m15);
    Expansion22(m0, m1, m2, m3, m4, m5, m6, m7, m8, m9, m10, m11, m12, m13, m14, m15, a[0], a[2], a[4], a[6], a[8], a[10], a[12], a[14]);
  }

  /** Entry (2, 3) of m * Adjugate(m), for m given element by element. */
  lemma AdjugateEntry23(
    m0: real, m1: real, m2: real, m3: real, m4: real, m5: real,
    m6: real, m7: real, m8: real, m9: real, m10: real, m11: real,
    m12: real, m13: real, m14: real, m15: real)
    ensures RowCol([m0, m1, m2, m3, m4, m5, m6, m7, m8, m9, m10, m11, m12, m13, m14, m15], Cofactors(m0, m1, m2, m3, m4, m5, m6, m7, m8, m9, m10, m11, m12, m13, m14, m15), 2, 3)
         == 0.0
  {
    var a := Cofactors(m0, m1, m2, m3, m4, m5, m6, m7, m8, m9, m10, m11, m12, m13, m14, m15);
    Expansion23(m0, m1, m2, m3, m4, m5, m6, m7, m8, m9, m10, m11, m12, m13, m14, m15, a[3], a[7], a[11], a[15]);
  }

  /** Entry (3, 0) of m * Adjugate(m), for m given element by element. */
  lemma AdjugateEntry30(
    m0: real, m1: real, m2: real, m3: real, m4: real, m5: real,
    m6: real, m7: real, m8: real, m9: real, m10: real, m11: real,
    m12: real, m13: real, m14: real, m15: real)
    ensures RowCol([m0, m1, m2, m3, m4, m5, m6, m7, m8, m9, m10, m11, m12, m13, m14, m15], Cofactors(m0, m1, m2, m3, m4, m5, m6, m7, m8, m9, m10, m11, m12, m13, m14, m15), 3, 0)
         == 0.0
  {
    var a := Cofactors(m0, m1, m2, m3, m4, m5, m6, m7, m8, m9, m10, m11, m12, m13, m14, m15);
    Expansion30(m0, m1, m2, m3, m4, m5, m6, m7, m8, m9, m10, m11, m12, m13, m14, m15, a[0], a[4], a[8], a[12]);
  }

  /** Entry (3, 1) of m * Adjugate(m), for m given element by element. */
  lemma AdjugateEntry31(
    m0: real, m1: real, m2: real, m3: real, m4: real, m5: real,
    m6: real, m7: real, m8: real, m9: real, m10: real, m11: real,
    m12: real, m13: real, m14: real, m15: real)
    ensures RowCol([m0, m1, m2, m3, m4, m5, m6, m7, m8, m9, m10, m11, m12, m13, m14, m15], Cofactors(m0, m1, m2, m3, m4, m5, m6, m7, m8, m9, m10, m11, m12, m13, m14, m15), 3, 1)
         == 0.0
  {
    var a := Cofactors(m0, m1, m2, m3, m4, m5, m6, m7, m8, m9, m10, m11, m12, m13, m14, m15);
    Expansion31(m0, m1, m2, m3, m4, m5, m6, m7, m8, m9, m10, m11, m12, m13, m14, m15, a[1], a[5], a[9], a[13]);
  }

  /** Entry (3, 2) of m * Adjugate(m), for m given element by element. */
  lemma AdjugateEntry32(
    m0: real, m1: real, m2: real, m3: real, m4: real, m5: real,
    m6: real, m7: real, m8: real, m9: real, m10: real, m11: real,
    m12: real, m13: real, m14: real, m15: real)
    ensures RowCol([m0, m1, m2, m3, m4, m5, m6, m7, m8, m9, m10, m11, m12, m13, m14, m15], Cofactors(m0, m1, m2, m3, m4, m5, m6, m7, m8, m9, m10, m11, m12, m13, m14, m15), 3, 2)
         == 0.0
  {
    var a := Cofactors(m0, m1, m2, m3, m4, m5, m6, m7, m8, m9, m10, m11, m12, m13, m14, m15);
    Expansion32(m0, m1, m2, m3, m4, m5, m6, m7, m8, m9, m10, m11, m12, m13, m14, m15, a[2], a[6], a[10], a[14]);
  }

  /** Entry (3, 3) of m * Adjugate(m), for m given element by element. */
  lemma AdjugateEntry33(
    m0: real, m1: real, m2: real, m3: real, m4: real, m5: real,
    m6: real, m7: real, m8: real, m9: real, m10: real, m11: real,
    m12: real, m13: real, m14: real, m15: real)
    ensures RowCol([m0, m1, m2, m3, m4, m5, m6, m7, m8, m9, m10, m11, m12, m13, m14, m15], Cofactors(m0, m1, m2, m3, m4, m5, m6, m7, m8, m9, m10, m11, m12, m13, m14, m15), 3, 3)
         == Det([m0, m1, m2, m3, m4, m5, m6, m7, m8, m9, m10, m11, m12, m13, m14, m15])
  {
    var a := Cofactors(m0, m1, m2, m3, m4, m5, m6, m7, m8, m9, m10, m11, m12, m13, m14, m15);
    Expansion33(m0, m1, m2, m3, m4, m5, m6, m7, m8, m9, m10, m11, m12, m13, m14, m15, a[0], a[3], a[4], a[7], a[8], a[11], a[12], a[15]);
  }

  /** m * Adjugate(m) is the determinant times the identity. */
  lemma AdjugateProduct(m: Mat)
    ensures forall r, c | 0 <= r < 4 && 0 <= c < 4 ::
      RowCol(m, Adjugate(m), r, c) == if r == c then Det(m) else 0.0
  {
    AdjugateEntry00(m[0], m[1], m[2], m[3], m[4], m[5], m[6], m[7], m[8], m[9], m[10], m[11], m[12], m[13], m[14], m[15]);
    AdjugateEntry01(m[0], m[1], m[2], m[3], m[4], m[5], m[6], m[7], m[8], m[9], m[10], m[11], m[12], m[13], m[14], m[15]);
    AdjugateEntry02(m[0], m[1], m[2], m[3], m[4], m[5], m[6], m[7], m[8], m[9], m[10], m[11], m[12], m[13], m[14], m[15]);
    AdjugateEntry03(m[0], m[1], m[2], m[3], m[4], m[5], m[6], m[7], m[8], m[9], m[10], m[11], m[12], m[13], m[14], m[15]);
    AdjugateEntry10(m[0], m[1], m[2], m[3], m[4], m[5], m[6], m[7], m[8], m[9], m[10], m[11], m[12], m[13], m[14], m[15]);
    AdjugateEntry11(m[0], m[1], m[2], m[3], m[4], m[5], m[6], m[7], m[8], m[9], m[10], m[11], m[12], m[13], m[14], m[15]);
    AdjugateEntry12(m[0], m[1], m[2], m[3], m[4], m[5], m[6], m[7], m[8], m[9], m[10], m[11], m[12], m[13], m[14], m[15]);
    AdjugateEntry13(m[0], m[1], m[2], m[3], m[4], m[5], m[6], m[7], m[8], m[9], m[10], m[11], m[12], m[13], m[14], m[15]);
    AdjugateEntry20(m[0], m[1], m[2], m[3], m[4], m[5], m[6], m[7], m[8], m[9], m[10], m[11], m[12], m[13], m[14], m[15]);
    AdjugateEntry21(m[0], m[1], m[2], m[3], m[4], m[5], m[6], m[7], m[8], m[9], m[10], m[11], m[12], m[13], m[14], m[15]);
    AdjugateEntry22(m[0], m[1], m[2], m[3], m[4], m[5], m[6], m[7], m[8], m[9], m[10], m[11], m[12], m[13], m[14], m[15]);
    AdjugateEntry23(m[0], m[1], m[2], m[3], m[4], m[5], m[6], m[7], m[8], m[9], m[10], m[11], m[12], m[13], m[14], m[15]);
    AdjugateEntry30(m[0], m[1], m[2], m[3], m[4], m[5], m[6], m[7], m[8], m[9], m[10], m[11], m[12], m[13], m[14], m[15]);
    AdjugateEntry31(m[0], m[1], m[2], m[3], m[4], m[5], m[6], m[7], m[8], m[9], m[10], m[11], m[12], m[13], m[14], m[15]);
    AdjugateEntry32(m[0], m[1], m[2], m[3], m[4], m[5], m[6], m[7], m[8], m[9], m[10], m[11], m[12], m[13], m[14], m[15]);
    AdjugateEntry33(m[0], m[1], m[2], m[3], m[4], m[5], m[6], m[7], m[8], m[9], m[10], m[11], m[12], m[13], m[14], m[15]);
    assert m == [m[0], m[1], m[2], m[3], m[4], m[5], m[6], m[7], m[8], m[9], m[10], m[11], m[12], m[13], m[14], m[15]];
  }

  /** A row-by-column sum with the column scaled by s is the sum scaled by s. */
  lemma ScaledColumn(x0: real, x1: real, x2: real, x3: real, y0: real, y1: real, y2: real, y3: real,
                     z0: real, z1: real, z2: real, z3: real, s: real)
    requires z0 == y0 * s && z1 == y1 * s && z2 == y2 * s && z3 == y3 * s
    ensures x0 * z0 + x1 * z1 + x2 * z2 + x3 * z3 == (x0 * y0 + x1 * y1 + x2 * y2 + x3 * y3) * s
  {
  }

  /** Scaling the right factor scales every row-by-column sum. */
  lemma RowColScaled(m: Mat, a: Mat, s: real, r: int, c: int)
    requires 0 <= r < 4 && 0 <= c < 4
    ensures RowCol(m, ScaledMat(a, s), r, c) == RowCol(m, a, r, c) * s
  {
    var inv := ScaledMat(a, s);
    assert inv[c] == a[c] * s && inv[4 + c] == a[4 + c] * s;
    assert inv[8 + c] == a[8 + c] * s && inv[12 + c] == a[12 + c] * s;
    ScaledColumn(m[4 * r], m[4 * r + 1], m[4 * r + 2], m[4 * r + 3], a[c], a[4 + c], a[8 + c], a[12 + c],
                 inv[c], inv[4 + c], inv[8 + c], inv[12 + c], s);
  }

  /** A matrix whose product with m is d times the identity, divided by d, is a right inverse of m. */
  lemma ScaledRightInverse(m: Mat, a: Mat, d: real)
    requires d != 0.0
    requires forall r, c | 0 <= r < 4 && 0 <= c < 4 :: RowCol(m, a, r, c) == if r == c then d else 0.0
    ensures Product(m, ScaledMat(a, 1.0 / d)) == Identity
  {
    var s := 1.0 / d;
    var inv := ScaledMat(a, s);
    forall r, c | 0 <= r < 4 && 0 <= c < 4
      ensures RowCol(m, inv, r, c) == if r == c then 1.0 else 0.0
    {
      RowColScaled(m, a, s, r, c);
      if r == c {
        assert RowCol(m, a, r, c) == d;
        assert d * s == 1.0;
      } else {
        assert RowCol(m, a, r, c) == 0.0;
      }
    }
    ProductEntries(m, inv);
    var p := Product(m, inv);
    forall i | 0 <= i < 16 ensures p[i] == Identity[i]
    {
      assert p[i] == At(p, i / 4, i % 4);
    }
  }

  /**
   * When the determinant is non-zero, the matrix matrix_4x4_invert writes
   * is a right inverse: m * out is the identity.
   */
  lemma InverseIsInverse(m: Mat)
    requires Det(m) != 0.0
    ensures Product(m, ScaledMat(Adjugate(m), 1.0 / Det(m))) == Identity
  {
    AdjugateProduct(m);
    ScaledRightInverse(m, Adjugate(m), Det(m));
  }

  /** The copy loop of matrix_4x4_invert: `out[i] = inv[i] * s` for i = 0 .. 15. */
  method ScaleInto(inv: Mat, s: real, out: array<real>)
    requires out.Length == 16
    modifies out
    ensures out[..] == ScaledMat(inv, s)
  {
    for i := 0 to 16
      invariant forall j | 0 <= j < i :: out[j] == inv[j] * s
    {
      out[i] := inv[i] * s;
    }
    assert forall j | 0 <= j < 16 :: ScaledMat(inv, s)[j] == inv[j] * s;
  }

  /**
   * matrix_4x4_invert. The cofactors and the determinant are computed from
   * `m` before anything is written, so `out` may be `m` itself. With a
   * non-zero determinant `out` receives the adjugate divided by the
   * determinant and the result is 1; otherwise the result is 0 and `out`
   * is left as it was.
   */
  method Invert(m: array<real>, out: array<real>) returns (ok: int)
    requires m.Length == 16 && out.Length == 16
    modifies out
    ensures ok == 0 || ok == 1
    ensures ok == 1 <==> Det(old(m[..])) != 0.0
    ensures ok == 1 ==> out[..] == ScaledMat(Adjugate(old(m[..])), 1.0 / Det(old(m[..])))
    ensures ok == 0 ==> out[..] == old(out[..])
  {
    var a := m[..];
    var inv := Adjugate(a);
    var det := Det(a);
    if !(0.0 < det || 0.0 > det) {
      return 0;
    }
    det := 1.0 / det;
    ScaleInto(inv, det, out);
    return 1;
  }
}
