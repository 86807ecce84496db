/**
 * The 4x4 matrix the parser computes with (JOML's Matrix4f), over the reals.
 *
 * Storage follows JOML: the field mCR holds the entry in column C and row R,
 * and the sixteen-argument constructor takes its arguments in the order
 * m00, m01, m02, m03, m10, ..., m33, so constructor slot i is column i / 4,
 * row i % 4 (column-major order).
 */
module Matrix {

  datatype Matrix4f = Matrix4f(
    m00: real, m01: real, m02: real, m03: real,
    m10: real, m11: real, m12: real, m13: real,
    m20: real, m21: real, m22: real, m23: real,
    m30: real, m31: real, m32: real, m33: real)

  /** The sixteen components in constructor-slot (column-major) order. */
  function Slots(m: Matrix4f): (s: seq<real>)
    ensures |s| == 16
  {
    [m.m00, m.m01, m.m02, m.m03,
     m.m10, m.m11, m.m12, m.m13,
     m.m20, m.m21, m.m22, m.m23,
     m.m30, m.m31, m.m32, m.m33]
  }

  /** The matrix whose constructor slot i receives s[i]. */
  function FromSlots(s: seq<real>): (m: Matrix4f)
    requires |s| == 16
    ensures Slots(m) == s
  {
    Matrix4f(s[0], s[1], s[2], s[3], s[4], s[5], s[6], s[7],
             s[8], s[9], s[10], s[11], s[12], s[13], s[14], s[15])
  }

  /** The entry in column c, row r. */
  function At(m: Matrix4f, c: nat, r: nat): (x: real)
    requires c < 4 && r < 4
    ensures x == Slots(m)[4 * c + r]
  {
    match (c, r)
    case (0, 0) => m.m00 case (0, 1) => m.m01 case (0, 2) => m.m02 case (0, 3) => m.m03
    case (1, 0) => m.m10 case (1, 1) => m.m11 case (1, 2) => m.m12 case (1, 3) => m.m13
    case (2, 0) => m.m20 case (2, 1) => m.m21 case (2, 2) => m.m22 case (2, 3) => m.m23
    case (3, 0) => m.m30 case (3, 1) => m.m31 case (3, 2) => m.m32 case _ => m.m33
  }

  function Identity(): (m: Matrix4f)
    ensures forall c, r :: 0 <= c < 4 && 0 <= r < 4 ==> At(m, c, r) == if c == r then 1.0 else 0.0
  {
    Matrix4f(1.0, 0.0, 0.0, 0.0,
             0.0, 1.0, 0.0, 0.0,
             0.0, 0.0, 1.0, 0.0,
             0.0, 0.0, 0.0, 1.0)
  }

  /** The dot product of (x0, x1, x2, x3) and (y0, y1, y2, y3). */
  function Dot(x0: real, x1: real, x2: real, x3: real, y0: real, y1: real, y2: real, y3: real): real
  {
    x0 * y0 + x1 * y1 + x2 * y2 + x3 * y3
  }

  /**
   * JOML's `a.mul(b)`: the matrix product a * b. Field mCR of the result is
   * row R of a (a.m0R, a.m1R, a.m2R, a.m3R) times column C of b
   * (b.mC0, b.mC1, b.mC2, b.mC3).
   */
  function Mul(a: Matrix4f, b: Matrix4f): Matrix4f
  {
    Matrix4f(
      Dot(a.m00, a.m10, a.m20, a.m30, b.m00, b.m01, b.m02, b.m03),
      Dot(a.m01, a.m11, a.m21, a.m31, b.m00, b.m01, b.m02, b.m03),
      Dot(a.m02, a.m12, a.m22, a.m32, b.m00, b.m01, b.m02, b.m03),
      Dot(a.m03, a.m13, a.m23, a.m33, b.m00, b.m01, b.m02, b.m03),
      Dot(a.m00, a.m10, a.m20, a.m30, b.m10, b.m11, b.m12, b.m13),
      Dot(a.m01, a.m11, a.m21, a.m31, b.m10, b.m11, b.m12, b.m13),
      Dot(a.m02, a.m12, a.m22, a.m32, b.m10, b.m11, b.m12, b.m13),
      Dot(a.m03, a.m13, a.m23, a.m33, b.m10, b.m11, b.m12, b.m13),
      Dot(a.m00, a.m10, a.m20, a.m30, b.m20, b.m21, b.m22, b.m23),
      Dot(a.m01, a.m11, a.m21, a.m31, b.m20, b.m21, b.m22, b.m23),
      Dot(a.m02, a.m12, a.m22, a.m32, b.m20, b.m21, b.m22, b.m23),
      Dot(a.m03, a.m13, a.m23, a.m33, b.m20, b.m21, b.m22, b.m23),
      Dot(a.m00, a.m10, a.m20, a.m30, b.m30, b.m31, b.m32, b.m33),
      Dot(a.m01, a.m11, a.m21, a.m31, b.m30, b.m31, b.m32, b.m33),
      Dot(a.m02, a.m12, a.m22, a.m32, b.m30, b.m31, b.m32, b.m33),
      Dot(a.m03, a.m13, a.m23, a.m33, b.m30, b.m31, b.m32, b.m33))
  }

  /** Swaps rows and columns. */
  function Transpose(m: Matrix4f): (t: Matrix4f)
    ensures forall c, r :: 0 <= c < 4 && 0 <= r < 4 ==> At(t, c, r) == At(m, r, c)
  {
    Matrix4f(m.m00, m.m10, m.m20, m.m30,
             m.m01, m.m11, m.m21, m.m31,
             m.m02, m.m12, m.m22, m.m32,
             m.m03, m.m13, m.m23, m.m33)
  }

  /**
   * The matrix obtained by reading a 16-number list row by row: row R,
   * column C is l[4 * R + C]. This is how the scene format lays out its
   * `transforms` lists.
   */
  function FromRowMajor(l: seq<real>): (m: Matrix4f)
    requires |l| == 16
    ensures forall c, r :: 0 <= c < 4 && 0 <= r < 4 ==> At(m, c, r) == l[4 * r + c]
  {
    Matrix4f(l[0], l[4], l[8], l[12], l[1], l[5], l[9], l[13],
             l[2], l[6], l[10], l[14], l[3], l[7], l[11], l[15])
  }

  /** JOML's `scaling(x, y, z)`. */
  function Scaling(x: real, y: real, z: real): Matrix4f
  {
    Matrix4f(x, 0.0, 0.0, 0.0,
             0.0, y, 0.0, 0.0,
             0.0, 0.0, z, 0.0,
             0.0, 0.0, 0.0, 1.0)
  }

  /** JOML's `translation(x, y, z)`: the offset sits in column 3. */
  function Translation(x: real, y: real, z: real): Matrix4f
  {
    Matrix4f(1.0, 0.0, 0.0, 0.0,
             0.0, 1.0, 0.0, 0.0,
             0.0, 0.0, 1.0, 0.0,
             x, y, z, 1.0)
  }

  /** JOML's `rotationX` for an angle with the given sine and cosine. */
  function RotationX(sin: real, cos: real): Matrix4f
  {
    Matrix4f(1.0, 0.0, 0.0, 0.0,
             0.0, cos, sin, 0.0,
             0.0, -sin, cos, 0.0,
             0.0, 0.0, 0.0, 1.0)
  }

  /** JOML's `rotationY` for an angle with the given sine and cosine. */
  function RotationY(sin: real, cos: real): Matrix4f
  {
    Matrix4f(cos, 0.0, -sin, 0.0,
             0.0, 1.0, 0.0, 0.0,
             sin, 0.0, cos, 0.0,
             0.0, 0.0, 0.0, 1.0)
  }

  /** JOML's `rotationZ` for an angle with the given sine and cosine. */
  function RotationZ(sin: real, cos: real): Matrix4f
  {
    Matrix4f(cos, sin, 0.0, 0.0,
             -sin, cos, 0.0, 0.0,
             0.0, 0.0, 1.0, 0.0,
             0.0, 0.0, 0.0, 1.0)
  }

  /** Mul is the textbook product: entry (c, r) is row r of a times column c of b. */
  lemma MulAt(a: Matrix4f, b: Matrix4f, c: nat, r: nat)
    requires c < 4 && r < 4
    ensures At(Mul(a, b), c, r)
         == Dot(At(a, 0, r), At(a, 1, r), At(a, 2, r), At(a, 3, r),
                At(b, c, 0), At(b, c, 1), At(b, c, 2), At(b, c, 3))
  {
  }

  lemma MulIdentityRight(a: Matrix4f)
    ensures Mul(a, Identity()) == a
  {
  }

  lemma MulIdentityLeft(a: Matrix4f)
    ensures Mul(Identity(), a) == a
  {
  }

  /** Transposition reverses a product: T(a * b) == T(b) * T(a). */
  lemma TransposeOfProduct(a: Matrix4f, b: Matrix4f)
    ensures Transpose(Mul(a, b)) == Mul(Transpose(b), Transpose(a))
  {
  }

  /** Reading a list row by row gives the transpose of storing it slot by slot. */
  lemma FromRowMajorIsTransposedSlots(l: seq<real>)
    requires |l| == 16
    ensures FromRowMajor(l) == Transpose(FromSlots(l))
  {
  }

  /** Scaling commutes with a dot product. */
  lemma DotScale(k: real, x0: real, x1: real, x2: real, x3: real, y0: real, y1: real, y2: real, y3: real)
    ensures k * Dot(x0, x1, x2, x3, y0, y1, y2, y3) == Dot(x0, x1, x2, x3, k * y0, k * y1, k * y2, k * y3)
  {
  }

  /** A dot product is additive in its second argument. */
  lemma DotAdd(x0: real, x1: real, x2: real, x3: real,
               u0: real, u1: real, u2: real, u3: real, v0: real, v1: real, v2: real, v3: real)
    ensures Dot(x0, x1, x2, x3, u0, u1, u2, u3) + Dot(x0, x1, x2, x3, v0, v1, v2, v3)
         == Dot(x0, x1, x2, x3, u0 + v0, u1 + v1, u2 + v2, u3 + v3)
  {
  }

  /**
   * One entry of the associativity law: the row x times the product B * y
   * equals the row x * B times y, where B is given column by column.
   */
  lemma DotAssoc(x0: real, x1: real, x2: real, x3: real,
                 b00: real, b01: real, b02: real, b03: real,
                 b10: real, b11: real, b12: real, b13: real,
                 b20: real, b21: real, b22: real, b23: real,
                 b30: real, b31: real, b32: real, b33: real,
                 y0: real, y1: real, y2: real, y3: real)
    ensures Dot(Dot(x0, x1, x2, x3, b00, b01, b02, b03), Dot(x0, x1, x2, x3, b10, b11, b12, b13),
                Dot(x0, x1, x2, x3, b20, b21, b22, b23), Dot(x0, x1, x2, x3, b30, b31, b32, b33),
                y0, y1, y2, y3)
         == Dot(x0, x1, x2, x3,
                Dot(b00, b10, b20, b30, y0, y1, y2, y3), Dot(b01, b11, b21, b31, y0, y1, y2, y3),
                Dot(b02, b12, b22, b32, y0, y1, y2, y3), Dot(b03, b13, b23, b33, y0, y1, y2, y3))
  {
    var d0 := Dot(x0, x1, x2, x3, b00, b01, b02, b03);
    var d1 := Dot(x0, x1, x2, x3, b10, b11, b12, b13);
    var d2 := Dot(x0, x1, x2, x3, b20, b21, b22, b23);
    var d3 := Dot(x0, x1, x2, x3, b30, b31, b32, b33);
    DotScale(y0, x0, x1, x2, x3, b00, b01, b02, b03);
    DotScale(y1, x0, x1, x2, x3, b10, b11, b12, b13);
    DotScale(y2, x0, x1, x2, x3, b20, b21, b22, b23);
    DotScale(y3, x0, x1, x2, x3, b30, b31, b32, b33);
    DotAdd(x0, x1, x2, x3, y0 * b00, y0 * b01, y0 * b02, y0 * b03, y1 * b10, y1 * b11, y1 * b12, y1 * b13);
    DotAdd(x0, x1, x2, x3, y0 * b00 + y1 * b10, y0 * b01 + y1 * b11, y0 * b02 + y1 * b12, y0 * b03 + y1 * b13,
           y2 * b20, y2 * b21, y2 * b22, y2 * b23);
    DotAdd(x0, x1, x2, x3,
           y0 * b00 + y1 * b10 + y2 * b20, y0 * b01 + y1 * b11 + y2 * b21,
           y0 * b02 + y1 * b12 + y2 * b22, y0 * b03 + y1 * b13 + y2 * b23,
           y3 * b30, y3 * b31, y3 * b32, y3 * b33);
  }

  lemma MulAssociative(a: Matrix4f, b: Matrix4f, c: Matrix4f)
    ensures Mul(Mul(a, b), c) == Mul(a, Mul(b, c))
  {
    DotAssoc(a.m00, a.m10, a.m20, a.m30,
             b.m00, b.m01, b.m02, b.m03, b.m10, b.m11, b.m12, b.m13, b.m20, b.m21, b.m22, b.m23, b.m30, b.m31, b.m32, b.m33,
             c.m00, c.m01, c.m02, c.m03);
    DotAssoc(a.m01, a.m11, a.m21, a.m31,
             b.m00, b.m01, b.m02, b.m03, b.m10, b.m11, b.m12, b.m13, b.m20, b.m21, b.m22, b.m23, b.m30, b.m31, b.m32, b.m33,
             c.m00, c.m01, c.m02, c.m03);
    DotAssoc(a.m02, a.m12, a.m22, a.m32,
             b.m00, b.m01, b.m02, b.m03, b.m10, b.m11, b.m12, b.m13, b.m20, b.m21, b.m22, b.m23, b.m30, b.m31, b.m32, b.m33,
             c.m00, c.m01, c.m02, c.m03);
    DotAssoc(a.m03, a.m13, a.m23, a.m33,
             b.m00, b.m01, b.m02, b.m03, b.m10, b.m11, b.m12, b.m13, b.m20, b.m21, b.m22, b.m23, b.m30, b.m31, b.m32, b.m33,
             c.m00, c.m01, c.m02, c.m03);
    DotAssoc(a.m00, a.m10, a.m20, a.m30,
             b.m00, b.m01, b.m02, b.m03, b.m10, b.m11, b.m12, b.m13, b.m20, b.m21, b.m22, b.m23, b.m30, b.m31, b.m32, b.m33,
             c.m10, c.m11, c.m12, c.m13);
    DotAssoc(a.m01, a.m11, a.m21, a.m31,
             b.m00, b.m01, b.m02, b.m03, b.m10, b.m11, b.m12, b.m13, b.m20, b.m21, b.m22, b.m23, b.m30, b.m31, b.m32, b.m33,
             c.m10, c.m11, c.m12, c.m13);
    DotAssoc(a.m02, a.m12, a.m22, a.m32,
             b.m00, b.m01, b.m02, b.m03, b.m10, b.m11, b.m12, b.m13, b.m20, b.m21, b.m22, b.m23, b.m30, b.m31, b.m32, b.m33,
             c.m10, c.m11, c.m12, c.m13);
    DotAssoc(a.m03, a.m13, a.m23, a.m33,
             b.m00, b.m01, b.m02, b.m03, b.m10, b.m11, b.m12, b.m13, b.m20, b.m21, b.m22, b.m23, b.m30, b.m31, b.m32, b.m33,
             c.m10, c.m11, c.m12, c.m13);
    DotAssoc(a.m00, a.m10, a.m20, a.m30,
             b.m00, b.m01, b.m02, b.m03, b.m10, b.m11, b.m12, b.m13, b.m20, b.m21, b.m22, b.m23, b.m30, b.m31, b.m32, b.m33,
             c.m20, c.m21, c.m22, c.m23);
    DotAssoc(a.m01, a.m11, a.m21, a.m31,
             b.m00, b.m01, b.m02, b.m03, b.m10, b.m11, b.m12, b.m13, b.m20, b.m21, b.m22, b.m23, b.m30, b.m31, b.m32, b.m33,
             c.m20, c.m21, c.m22, c.m23);
    DotAssoc(a.m02, a.m12, a.m22, a.m32,
             b.m00, b.m01, b.m02, b.m03, b.m10, b.m11, b.m12, b.m13, b.m20, b.m21, b.m22, b.m23, b.m30, b.m31, b.m32, b.m33,
             c.m20, c.m21, c.m22, c.m23);
    DotAssoc(a.m03, a.m13, a.m23, a.m33,
             b.m00, b.m01, b.m02, b.m03, b.m10, b.m11, b.m12, b.m13, b.m20, b.m21, b.m22, b.m23, b.m30, b.m31, b.m32, b.m33,
             c.m20, c.m21, c.m22, c.m23);
    DotAssoc(a.m00, a.m10, a.m20, a.m30,
             b.m00, b.m01, b.m02, b.m03, b.m10, b.m11, b.m12, b.m13, b.m20, b.m21, b.m22, b.m23, b.m30, b.m31, b.m32, b.m33,
             c.m30, c.m31, c.m32, c.m33);
    DotAssoc(a.m01, a.m11, a.m21, a.m31,
             b.m00, b.m01, b.m02, b.m03, b.m10, b.m11, b.m12, b.m13, b.m20, b.m21, b.m22, b.m23, b.m30, b.m31, b.m32, b.m33,
             c.m30, c.m31, c.m32, c.m33);
    DotAssoc(a.m02, a.m12, a.m22, a.m32,
             b.m00, b.m01, b.m02, b.m03, b.m10, b.m11, b.m12, b.m13, b.m20, b.m21, b.m22, b.m23, b.m30, b.m31, b.m32, b.m33,
             c.m30, c.m31, c.m32, c.m33);
    DotAssoc(a.m03, a.m13, a.m23, a.m33,
             b.m00, b.m01, b.m02, b.m03, b.m10, b.m11, b.m12, b.m13, b.m20, b.m21, b.m22, b.m23, b.m30, b.m31, b.m32, b.m33,
             c.m30, c.m31, c.m32, c.m33);
  }
}
