/**
 * The slice of the Unity engine's math library that the arm swinger uses.
 * `Vector3` and `Mathf` are modelled exactly, over the reals.  Quaternions and
 * `Vector3.Distance`, which involve trigonometry and square roots, stay
 * uninterpreted: a client receives them as a bundle of function values.
 */
module Unity {

  /** Unity's `Vector3` (x is right, y is up, z is forward). */
  datatype Vec3 = Vec3(x: real, y: real, z: real)

  /** `Vector3.zero` */
  const Zero: Vec3 := Vec3(0.0, 0.0, 0.0)

  /** `Vector3.forward` */
  const Forward: Vec3 := Vec3(0.0, 0.0, 1.0)

  /** `Vector3 * float` */
  function Scale(v: Vec3, k: real): Vec3 {
    Vec3(v.x * k, v.y * k, v.z * k)
  }

  function Add(a: Vec3, b: Vec3): Vec3 {
    Vec3(a.x + b.x, a.y + b.y, a.z + b.z)
  }

  function Sub(a: Vec3, b: Vec3): Vec3 {
    Vec3(a.x - b.x, a.y - b.y, a.z - b.z)
  }

  function Dot(a: Vec3, b: Vec3): real {
    a.x * b.x + a.y * b.y + a.z * b.z
  }

  /** `Mathf.Clamp01`: the closest point of [0, 1]. */
  function Clamp01(t: real): (r: real)
    ensures 0.0 <= r <= 1.0
    ensures 0.0 <= t <= 1.0 ==> r == t
    ensures t < 0.0 ==> r == 0.0
    ensures t > 1.0 ==> r == 1.0
  {
    if t < 0.0 then 0.0 else if t > 1.0 then 1.0 else t
  }

  /**
   * `Mathf.Lerp`, which clamps its parameter to [0, 1] before interpolating:
   * linear on [0, 1], stuck at a below it and at b above it.
   */
  function Lerp(a: real, b: real, t: real): (r: real)
    ensures 0.0 <= t <= 1.0 ==> r == a + (b - a) * t
    ensures t <= 0.0 ==> r == a
    ensures t >= 1.0 ==> r == b
  {
    a + (b - a) * Clamp01(t)
  }

  /**
   * The cubic Hermite segment on [0, 1] from value p0 with slope m0 to value
   * p1 with slope m1: how an `AnimationCurve` evaluates between two keyframes
   * one time unit apart.
   */
  function Hermite(p0: real, m0: real, p1: real, m1: real, t: real): real {
    var t2 := t * t;
    var t3 := t2 * t;
    (2.0 * t3 - 3.0 * t2 + 1.0) * p0 + (t3 - 2.0 * t2 + t) * m0
      + (-2.0 * t3 + 3.0 * t2) * p1 + (t3 - t2) * m1
  }

  /** `Mathf.Clamp01` is non-decreasing. */
  lemma Clamp01Monotone(s: real, t: real)
    requires s <= t
    ensures Clamp01(s) <= Clamp01(t)
  {
  }

  /**
   * `Mathf.Lerp(a, b, t)` never leaves the segment between a and b, whatever t
   * is, and meets its two ends at t = 0 and t = 1.
   */
  lemma LerpBetween(a: real, b: real, t: real)
    ensures a <= b ==> a <= Lerp(a, b, t) <= b
    ensures b <= a ==> b <= Lerp(a, b, t) <= a
    ensures Lerp(a, b, 0.0) == a && Lerp(a, b, 1.0) == b
  {
    if a <= b {
      LerpRising(a, b, t);
    }
    if b <= a {
      LerpFalling(a, b, t);
    }
  }

  lemma LerpRising(a: real, b: real, t: real)
    requires a <= b
    ensures a <= Lerp(a, b, t) <= b
  {
    var d := b - a;
    MulBetween(d, Clamp01(t));
    var p := d * Clamp01(t);
    assert Lerp(a, b, t) == a + p;
  }

  lemma LerpFalling(a: real, b: real, t: real)
    requires b <= a
    ensures b <= Lerp(a, b, t) <= a
  {
    var d := a - b;
    MulBetween(d, Clamp01(t));
    var p := d * Clamp01(t);
    assert (b - a) * Clamp01(t) == -p;
    assert Lerp(a, b, t) == a - p;
  }

  /** With a <= b, `Mathf.Lerp(a, b, t)` is non-decreasing in t. */
  lemma LerpMonotone(a: real, b: real, s: real, t: real)
    requires a <= b && s <= t
    ensures Lerp(a, b, s) <= Lerp(a, b, t)
  {
    Clamp01Monotone(s, t);
    var d := b - a;
    var cs, ct := Clamp01(s), Clamp01(t);
    var gap := ct - cs;
    assert d * ct - d * cs == d * gap;
    ProductOfNonNegatives(d, gap);
  }

  lemma ProductOfNonNegatives(x: real, y: real)
    requires x >= 0.0 && y >= 0.0
    ensures x * y >= 0.0
  {
  }

  /** Scaling a non-negative quantity by a fraction in [0, 1] shrinks it. */
  lemma MulBetween(d: real, c: real)
    requires d >= 0.0 && 0.0 <= c <= 1.0
    ensures 0.0 <= d * c <= d
  {
    assert d * c <= d * 1.0;
  }

  /**
   * The engine facilities that the arm swinger calls but that are not modelled:
   * `Quaternion.identity`, `Quaternion.Slerp`, the `Quaternion * Vector3` product
   * and `Vector3.Distance`.  `Q` stands for Unity's `Quaternion`.
   */
  datatype Engine<!Q> = Engine(
    identity: Q,
    slerp: (Q, Q, real) -> Q,
    rotate: (Q, Vec3) -> Vec3,
    distance: (Vec3, Vec3) -> real)
}
