/**
 * The vector and quaternion arithmetic of glam that the gizmo uses, over reals instead of
 * f32. Addition, scaling, dot and cross products and the Hamilton product are exact; the
 * rotation of a vector is the quaternion sandwich q * v * conj(q), which is glam's
 * `Quat * Vec3` on the unit quaternions bevy keeps its rotations in.
 */
module Vectors {

  datatype Vec2 = Vec2(x: real, y: real)

  datatype Vec3 = Vec3(x: real, y: real, z: real)

  const Zero := Vec3(0.0, 0.0, 0.0)
  const UnitX := Vec3(1.0, 0.0, 0.0)
  const UnitY := Vec3(0.0, 1.0, 0.0)
  const UnitZ := Vec3(0.0, 0.0, 1.0)

  function Add(a: Vec3, b: Vec3): Vec3 {
    Vec3(a.x + b.x, a.y + b.y, a.z + b.z)
  }

  function Sub(a: Vec3, b: Vec3): Vec3 {
    Vec3(a.x - b.x, a.y - b.y, a.z - b.z)
  }

  function Scale(v: Vec3, k: real): Vec3 {
    Vec3(v.x * k, v.y * k, v.z * k)
  }

  /** Component-wise division by a scalar, glam's `Vec3 / f32`. */
  function Div(v: Vec3, k: real): Vec3
    requires k != 0.0
  {
    Vec3(v.x / k, v.y / k, v.z / k)
  }

  function Dot(a: Vec3, b: Vec3): real {
    a.x * b.x + a.y * b.y + a.z * b.z
  }

  function Cross(a: Vec3, b: Vec3): Vec3 {
    Vec3(a.y * b.z - a.z * b.y, a.z * b.x - a.x * b.z, a.x * b.y - a.y * b.x)
  }

  /** Dividing by a non-zero scalar and scaling by it cancel, in either order. */
  lemma ScaleDivCancels(v: Vec3, k: real)
    requires k != 0.0
    ensures Scale(Div(v, k), k) == v
  {
  }

  lemma DivScaleCancels(v: Vec3, k: real)
    requires k != 0.0
    ensures Div(Scale(v, k), k) == v
  {
  }

  /** The cross product is perpendicular to both its factors. */
  lemma CrossIsPerpendicular(a: Vec3, b: Vec3)
    ensures Dot(Cross(a, b), a) == 0.0 && Dot(Cross(a, b), b) == 0.0
  {
  }

  /** Scaling either factor of a dot product scales the product. */
  lemma DotScale(u: Vec3, v: Vec3, k: real)
    ensures Dot(Scale(u, k), v) == k * Dot(u, v) && Dot(u, Scale(v, k)) == k * Dot(u, v)
  {
  }

  /** Scaling twice is scaling by the product. */
  lemma ScaleScale(v: Vec3, a: real, b: real)
    ensures Scale(Scale(v, a), b) == Scale(v, a * b)
  {
  }

  /** A unit vector scaled by `s` has squared length `s * s`. */
  lemma UnitScaledLength(h: Vec3, s: real)
    requires Dot(h, h) == 1.0
    ensures Dot(Scale(h, s), Scale(h, s)) == s * s
  {
    DotScale(h, Scale(h, s), s);
    DotScale(h, h, s);
  }

  /** Scaling by a unit factor `t` twice, once folded into the coefficient, undoes itself. */
  lemma ScaleFlipTwice(h: Vec3, t: real, d: real, x: real)
    requires t * t == 1.0 && x == t * d
    ensures Scale(Scale(h, t), x) == Scale(h, d)
  {
    assert t * (t * d) == (t * t) * d;
    ScaleScale(h, t, t * d);
  }

  /** Projecting onto a vector or onto its opposite gives the same vector, for a unit factor. */
  lemma ProjectionOntoFlippedUnit(c: Vec3, h: Vec3, t: real)
    requires t * t == 1.0
    ensures Scale(Scale(h, t), Dot(c, Scale(h, t))) == Scale(h, Dot(c, h))
  {
    DotScale(c, h, t);
    ScaleFlipTwice(h, t, Dot(c, h), Dot(c, Scale(h, t)));
  }

  /** A quaternion x i + y j + z k + w. */
  datatype Quat = Quat(x: real, y: real, z: real, w: real)

  const Identity := Quat(0.0, 0.0, 0.0, 1.0)

  /** The Hamilton product a * b: the rotation b followed by the rotation a. */
  function Mul(a: Quat, b: Quat): Quat {
    Quat(a.w * b.x + a.x * b.w + a.y * b.z - a.z * b.y,
         a.w * b.y - a.x * b.z + a.y * b.w + a.z * b.x,
         a.w * b.z + a.x * b.y - a.y * b.x + a.z * b.w,
         a.w * b.w - a.x * b.x - a.y * b.y - a.z * b.z)
  }

  function Conjugate(q: Quat): Quat {
    Quat(-q.x, -q.y, -q.z, q.w)
  }

  /** The pure quaternion with vector part v. */
  function Pure(v: Vec3): Quat {
    Quat(v.x, v.y, v.z, 0.0)
  }

  function Sandwich(q: Quat, v: Vec3): Quat {
    Mul(Mul(q, Pure(v)), Conjugate(q))
  }

  /** The vector v rotated by q (glam's `Quat * Vec3`). */
  function Rotate(q: Quat, v: Vec3): Vec3 {
    var p := Sandwich(q, v);
    Vec3(p.x, p.y, p.z)
  }

  /**
   * The quarter turn about +Y (the unit quaternion (0, s, 0, s) with s * s = 1/2) takes
   * +X to -Z: the right-hand rule of glam's rotations.
   */
  lemma QuarterTurnAboutY(s: real)
    requires s * s == 0.5
    ensures Rotate(Quat(0.0, s, 0.0, s), UnitX) == Vec3(0.0, 0.0, -1.0)
  {
  }

  /** The identity quaternion leaves every vector where it is. */
  lemma RotateIdentity(v: Vec3)
    ensures Rotate(Identity, v) == v
  {
    assert Mul(Identity, Pure(v)) == Pure(v);
    assert Mul(Pure(v), Conjugate(Identity)) == Pure(v);
  }
}
