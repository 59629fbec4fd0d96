/** Vectors, 3x3 matrices and rigid transforms, exact over the reals.
    The scene code only ever reads a pose's translation and hands whole
    poses to the renderer; the rotation algebra here serves the camera
    model. */
module LinearAlgebra {

  datatype Vec3 = Vec3(x: real, y: real, z: real)

  /** A 3x3 matrix stored by rows. */
  datatype Mat3 = Mat3(r0: Vec3, r1: Vec3, r2: Vec3)

  /** A 4x4 homogeneous transform: rotation block and translation column
      (the bottom row is always [0, 0, 0, 1] and is not stored). */
  datatype Transform = Transform(rotation: Mat3, translation: Vec3)

  function Dot(a: Vec3, b: Vec3): real {
    a.x * b.x + a.y * b.y + a.z * b.z
  }

  function SquaredNorm(v: Vec3): (n: real)
    ensures n >= 0.0
  {
    Dot(v, v)
  }

  function Col0(m: Mat3): Vec3 { Vec3(m.r0.x, m.r1.x, m.r2.x) }
  function Col1(m: Mat3): Vec3 { Vec3(m.r0.y, m.r1.y, m.r2.y) }
  function Col2(m: Mat3): Vec3 { Vec3(m.r0.z, m.r1.z, m.r2.z) }

  function Identity(): Mat3 {
    Mat3(Vec3(1.0, 0.0, 0.0), Vec3(0.0, 1.0, 0.0), Vec3(0.0, 0.0, 1.0))
  }

  function Transpose(m: Mat3): Mat3 {
    Mat3(Col0(m), Col1(m), Col2(m))
  }

  /** Matrix product a.b */
  function Mul(a: Mat3, b: Mat3): Mat3 {
    Mat3(Vec3(Dot(a.r0, Col0(b)), Dot(a.r0, Col1(b)), Dot(a.r0, Col2(b))),
         Vec3(Dot(a.r1, Col0(b)), Dot(a.r1, Col1(b)), Dot(a.r1, Col2(b))),
         Vec3(Dot(a.r2, Col0(b)), Dot(a.r2, Col1(b)), Dot(a.r2, Col2(b))))
  }

  /** Matrix-vector product m.v */
  function Apply(m: Mat3, v: Vec3): Vec3 {
    Vec3(Dot(m.r0, v), Dot(m.r1, v), Dot(m.r2, v))
  }

  /** Determinant of the matrix with rows (a, b, c), (d, e, f), (g, h, i),
      by cofactor expansion along the first row. */
  function Det3(a: real, b: real, c: real, d: real, e: real, f: real, g: real, h: real, i: real): real {
    a * (e * i - f * h) - b * (d * i - f * g) + c * (d * h - e * g)
  }

  function Det(m: Mat3): real {
    Det3(m.r0.x, m.r0.y, m.r0.z, m.r1.x, m.r1.y, m.r1.z, m.r2.x, m.r2.y, m.r2.z)
  }

  /** A proper rotation: orthonormal (its transpose is its two-sided
      inverse) and orientation preserving. */
  ghost predicate IsRotation(m: Mat3) {
    Mul(Transpose(m), m) == Identity() && Mul(m, Transpose(m)) == Identity() && Det(m) == 1.0
  }

  lemma TransposeInvolutive(m: Mat3)
    ensures Transpose(Transpose(m)) == m
  {
  }

  lemma IdentityNeutral(m: Mat3)
    ensures Mul(Identity(), m) == m && Mul(m, Identity()) == m
  {
  }

  /** One entry of the associativity law: (u.b).w == u.(b.w) for a row u
      and a column w. */
  lemma DotAssociative(u: Vec3, b: Mat3, w: Vec3)
    ensures Dot(Vec3(Dot(u, Col0(b)), Dot(u, Col1(b)), Dot(u, Col2(b))), w) == Dot(u, Apply(b, w))
  {
  }

  lemma MulAssociative(a: Mat3, b: Mat3, c: Mat3)
    ensures Mul(Mul(a, b), c) == Mul(a, Mul(b, c))
  {
    var bc := Mul(b, c);
    assert Col0(bc) == Apply(b, Col0(c));
    assert Col1(bc) == Apply(b, Col1(c));
    assert Col2(bc) == Apply(b, Col2(c));
    DotAssociative(a.r0, b, Col0(c)); DotAssociative(a.r0, b, Col1(c)); DotAssociative(a.r0, b, Col2(c));
    DotAssociative(a.r1, b, Col0(c)); DotAssociative(a.r1, b, Col1(c)); DotAssociative(a.r1, b, Col2(c));
    DotAssociative(a.r2, b, Col0(c)); DotAssociative(a.r2, b, Col1(c)); DotAssociative(a.r2, b, Col2(c));
  }

  lemma TransposeOfProduct(a: Mat3, b: Mat3)
    ensures Transpose(Mul(a, b)) == Mul(Transpose(b), Transpose(a))
  {
  }

  lemma DetOfTranspose(m: Mat3)
    ensures Det(Transpose(m)) == Det(m)
  {
  }

  /** The product rule for determinants, on the entries: m is the product
      of a and b. */
  lemma Det3OfProduct(a00: real, a01: real, a02: real, a10: real, a11: real, a12: real,
                      a20: real, a21: real, a22: real,
                      b00: real, b01: real, b02: real, b10: real, b11: real, b12: real,
                      b20: real, b21: real, b22: real,
                      m00: real, m01: real, m02: real, m10: real, m11: real, m12: real,
                      m20: real, m21: real, m22: real)
    requires m00 == a00 * b00 + a01 * b10 + a02 * b20
    requires m01 == a00 * b01 + a01 * b11 + a02 * b21
    requires m02 == a00 * b02 + a01 * b12 + a02 * b22
    requires m10 == a10 * b00 + a11 * b10 + a12 * b20
    requires m11 == a10 * b01 + a11 * b11 + a12 * b21
    requires m12 == a10 * b02 + a11 * b12 + a12 * b22
    requires m20 == a20 * b00 + a21 * b10 + a22 * b20
    requires m21 == a20 * b01 + a21 * b11 + a22 * b21
    requires m22 == a20 * b02 + a21 * b12 + a22 * b22
    ensures Det3(m00, m01, m02, m10, m11, m12, m20, m21, m22)
         == Det3(a00, a01, a02, a10, a11, a12, a20, a21, a22)
            * Det3(b00, b01, b02, b10, b11, b12, b20, b21, b22)
  {
    ProductRule(a00, a01, a02, a10, a11, a12, a20, a21, a22,
                b00, b01, b02, b10, b11, b12, b20, b21, b22);
  }

  /** The polynomial identity behind the product rule. */
  lemma ProductRule(a00: real, a01: real, a02: real, a10: real, a11: real, a12: real,
                    a20: real, a21: real, a22: real,
                    b00: real, b01: real, b02: real, b10: real, b11: real, b12: real,
                    b20: real, b21: real, b22: real)
    ensures Det3(a00 * b00 + a01 * b10 + a02 * b20, a00 * b01 + a01 * b11 + a02 * b21,
                 a00 * b02 + a01 * b12 + a02 * b22,
                 a10 * b00 + a11 * b10 + a12 * b20, a10 * b01 + a11 * b11 + a12 * b21,
                 a10 * b02 + a11 * b12 + a12 * b22,
                 a20 * b00 + a21 * b10 + a22 * b20, a20 * b01 + a21 * b11 + a22 * b21,
                 a20 * b02 + a21 * b12 + a22 * b22)
         == Det3(a00, a01, a02, a10, a11, a12, a20, a21, a22)
            * Det3(b00, b01, b02, b10, b11, b12, b20, b21, b22)
  {
  }

  lemma DetOfProduct(a: Mat3, b: Mat3)
    ensures Det(Mul(a, b)) == Det(a) * Det(b)
  {
    var m := Mul(a, b);
    Det3OfProduct(a.r0.x, a.r0.y, a.r0.z, a.r1.x, a.r1.y, a.r1.z, a.r2.x, a.r2.y, a.r2.z,
                  b.r0.x, b.r0.y, b.r0.z, b.r1.x, b.r1.y, b.r1.z, b.r2.x, b.r2.y, b.r2.z,
                  m.r0.x, m.r0.y, m.r0.z, m.r1.x, m.r1.y, m.r1.z, m.r2.x, m.r2.y, m.r2.z);
  }

  /** Rotations are closed under products ... */
  lemma RotationProduct(a: Mat3, b: Mat3)
    requires IsRotation(a) && IsRotation(b)
    ensures IsRotation(Mul(a, b))
  {
    var ab := Mul(a, b);
    TransposeOfProduct(a, b);
    calc {
      Mul(Transpose(ab), ab);
      Mul(Mul(Transpose(b), Transpose(a)), Mul(a, b));
      { MulAssociative(Transpose(b), Transpose(a), Mul(a, b));
        MulAssociative(Transpose(a), a, b); }
      Mul(Transpose(b), Mul(Mul(Transpose(a), a), b));
      { IdentityNeutral(b); }
      Mul(Transpose(b), b);
      Identity();
    }
    calc {
      Mul(ab, Transpose(ab));
      Mul(Mul(a, b), Mul(Transpose(b), Transpose(a)));
      { MulAssociative(a, b, Mul(Transpose(b), Transpose(a)));
        MulAssociative(b, Transpose(b), Transpose(a)); }
      Mul(a, Mul(Mul(b, Transpose(b)), Transpose(a)));
      { IdentityNeutral(Transpose(a)); }
      Mul(a, Transpose(a));
      Identity();
    }
    DetOfProduct(a, b);
  }

  /** ... and under transposition, so a rotation's transpose is the
      inverse rotation. */
  lemma RotationTranspose(m: Mat3)
    requires IsRotation(m)
    ensures IsRotation(Transpose(m))
  {
    TransposeInvolutive(m);
    DetOfTranspose(m);
  }

  /** The inverse of a product of three rotations is a rotation. */
  lemma RotationsCompose(a: Mat3, b: Mat3, c: Mat3)
    requires IsRotation(a) && IsRotation(b) && IsRotation(c)
    ensures IsRotation(Transpose(Mul(Mul(a, b), c)))
  {
    RotationProduct(a, b);
    RotationProduct(Mul(a, b), c);
    RotationTranspose(Mul(Mul(a, b), c));
  }
}
