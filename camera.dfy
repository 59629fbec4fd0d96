/** The camera pose that `Figure.view_init` writes back to the viewer.

    The viewer's camera is a world-to-camera extrinsic. An orbit request
    keeps the camera's distance to the origin and re-poses it from a fixed
    reference orientation: azimuth and elevation rotations are applied in
    the world frame to the reference camera-to-world rotation, and the new
    extrinsic is the transpose of the result with translation
    (0, 0, distance). The two angle rotations come from a foreign library
    (an active rotation about the world z axis by the azimuth, and about
    the world y axis by the negated elevation), so they are parameters
    here; so is the distance, the Euclidean norm of the old translation. */
module Camera {
  import opened LinearAlgebra

  /** World-to-camera rotation at azimuth 0 and elevation 0. */
  const WorldToCameraAtRest: Mat3 :=
    Mat3(Vec3(0.0, 1.0, 0.0), Vec3(0.0, 0.0, -1.0), Vec3(-1.0, 0.0, 0.0))

  /** The reference camera-to-world rotation is taken as the transpose. */
  function CameraToWorldAtRest(): Mat3 {
    Transpose(WorldToCameraAtRest)
  }

  /** A matrix that sends each axis to another axis up to sign, in the
      pattern of the reference matrix, is orthonormal, and its determinant
      is the product of the signs. */
  lemma SignedCyclicOrthonormal(s: real, t: real, u: real)
    requires s * s == 1.0 && t * t == 1.0 && u * u == 1.0
    ensures var m := Mat3(Vec3(0.0, s, 0.0), Vec3(0.0, 0.0, t), Vec3(u, 0.0, 0.0));
      Mul(Transpose(m), m) == Identity() && Mul(m, Transpose(m)) == Identity() && Det(m) == s * t * u
  {
  }

  /** The reference matrix is a proper rotation: its transpose is its
      inverse on both sides, so the camera-to-world rotation above is
      correct, and its determinant is +1. */
  lemma AtRestIsProperRotation()
    ensures Mul(Transpose(WorldToCameraAtRest), WorldToCameraAtRest) == Identity()
    ensures Mul(WorldToCameraAtRest, Transpose(WorldToCameraAtRest)) == Identity()
    ensures Det(WorldToCameraAtRest) == 1.0
  {
    SignedCyclicOrthonormal(1.0, -1.0, -1.0);
  }

  lemma CameraToWorldAtRestIsRotation()
    ensures IsRotation(CameraToWorldAtRest())
  {
    AtRestIsProperRotation();
    RotationTranspose(WorldToCameraAtRest);
  }

  /** At rest the camera's x axis points along world +y, its y axis along
      world -z and its viewing direction (camera z) along world -x. */
  lemma AtRestAxes()
    ensures Apply(CameraToWorldAtRest(), Vec3(1.0, 0.0, 0.0)) == Vec3(0.0, 1.0, 0.0)
    ensures Apply(CameraToWorldAtRest(), Vec3(0.0, 1.0, 0.0)) == Vec3(0.0, 0.0, -1.0)
    ensures Apply(CameraToWorldAtRest(), Vec3(0.0, 0.0, 1.0)) == Vec3(-1.0, 0.0, 0.0)
  {
    var t := Mat3(Vec3(0.0, 0.0, -1.0), Vec3(1.0, 0.0, 0.0), Vec3(0.0, -1.0, 0.0));
    assert CameraToWorldAtRest() == t;
  }

  /** `distance` is the Euclidean norm of `v` (the square root itself is a
      floating-point library call and is not computed here). */
  ghost predicate IsNormOf(distance: real, v: Vec3) {
    distance >= 0.0 && distance * distance == SquaredNorm(v)
  }

  /** The norm is unique: a vector has one non-negative square root of its
      squared length. */
  lemma NormUnique(d1: real, d2: real, v: Vec3)
    requires IsNormOf(d1, v) && IsNormOf(d2, v)
    ensures d1 == d2
  {
    if d1 < d2 {
      SquareStrictlyIncreasing(d1, d2);
    } else if d2 < d1 {
      SquareStrictlyIncreasing(d2, d1);
    }
  }

  lemma SquareStrictlyIncreasing(a: real, b: real)
    requires 0.0 <= a < b
    ensures a * a < b * b
  {
    var d := b - a;
    assert b * b == a * a + d * (a + b);
    assert d * (a + b) > 0.0;
  }

  /** The extrinsic written by an orbit request with the given azimuth and
      elevation rotations at the given distance. */
  function Orbit(distance: real, azimuth: Mat3, elevation: Mat3): (e: Transform)
    ensures e.translation == Vec3(0.0, 0.0, distance)
  {
    Transform(Transpose(Mul(Mul(azimuth, elevation), CameraToWorldAtRest())), Vec3(0.0, 0.0, distance))
  }

  /** With both angles zero the camera returns to the reference pose. */
  lemma OrbitAtZeroAngles(distance: real)
    ensures Orbit(distance, Identity(), Identity()).rotation == WorldToCameraAtRest
  {
    IdentityNeutral(Identity());
    IdentityNeutral(CameraToWorldAtRest());
    TransposeInvolutive(WorldToCameraAtRest);
  }

  /** The new extrinsic is rigid whenever the two angle rotations are. */
  lemma OrbitIsRigid(distance: real, azimuth: Mat3, elevation: Mat3)
    requires IsRotation(azimuth) && IsRotation(elevation)
    ensures IsRotation(Orbit(distance, azimuth, elevation).rotation)
  {
    RotatedReferenceIsRotation(azimuth, elevation);
  }

  lemma RotatedReferenceIsRotation(azimuth: Mat3, elevation: Mat3)
    requires IsRotation(azimuth) && IsRotation(elevation)
    ensures IsRotation(Transpose(Mul(Mul(azimuth, elevation), CameraToWorldAtRest())))
  {
    CameraToWorldAtRestIsRotation();
    RotationsCompose(azimuth, elevation, CameraToWorldAtRest());
  }

  /** An orbit keeps the camera's distance to the origin: the norm of the
      new translation is the distance measured on the old extrinsic. */
  lemma OrbitKeepsDistance(current: Transform, distance: real, azimuth: Mat3, elevation: Mat3)
    requires IsNormOf(distance, current.translation)
    ensures IsNormOf(distance, Orbit(distance, azimuth, elevation).translation)
    ensures SquaredNorm(Orbit(distance, azimuth, elevation).translation) == SquaredNorm(current.translation)
  {
  }

  /** Orbit requests are absolute, not relative: repeating a request on the
      extrinsic it produced gives that extrinsic again, and the translation
      does not depend on the angles. */
  lemma OrbitIdempotent(current: Transform, distance: real, next: real, azimuth: Mat3, elevation: Mat3)
    requires IsNormOf(distance, current.translation)
    requires IsNormOf(next, Orbit(distance, azimuth, elevation).translation)
    ensures Orbit(next, azimuth, elevation) == Orbit(distance, azimuth, elevation)
  {
    OrbitKeepsDistance(current, distance, azimuth, elevation);
    NormUnique(next, distance, Orbit(distance, azimuth, elevation).translation);
  }

  /** The translation of the new extrinsic is (0, 0, distance) whatever the
      azimuth and elevation. */
  lemma OrbitTranslationIgnoresAngles(distance: real, a1: Mat3, e1: Mat3, a2: Mat3, e2: Mat3)
    ensures Orbit(distance, a1, e1).translation == Orbit(distance, a2, e2).translation
  {
  }
}
