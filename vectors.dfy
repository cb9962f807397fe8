/**
 * Three- and two-component vectors over the reals, standing for OpenTK's
 * single-precision Vector3 and Vector2. Floating-point rounding is
 * abstracted away: every component is an exact real.
 */
module Vectors {

  datatype Vec3 = Vec3(x: real, y: real, z: real)

  datatype Vec2 = Vec2(x: real, y: real)

  const Zero: Vec3 := Vec3(0.0, 0.0, 0.0)

  function Add(a: Vec3, b: Vec3): Vec3 {
    Vec3(a.x + b.x, a.y + b.y, a.z + b.z)
  }

  function Sub(a: Vec3, b: Vec3): Vec3 {
    Vec3(a.x - b.x, a.y - b.y, a.z - b.z)
  }

  function Scale(a: Vec3, k: real): Vec3 {
    Vec3(a.x * k, a.y * k, a.z * k)
  }

  function Neg(a: Vec3): Vec3 {
    Vec3(-a.x, -a.y, -a.z)
  }

  function LengthSquared(a: Vec3): real {
    a.x * a.x + a.y * a.y + a.z * a.z
  }

  /** OpenTK's Vector3.Lerp: `blend * (b - a) + a`, componentwise. */
  function Lerp(a: Vec3, b: Vec3, blend: real): Vec3 {
    Vec3(blend * (b.x - a.x) + a.x, blend * (b.y - a.y) + a.y, blend * (b.z - a.z) + a.z)
  }

  function Min(a: real, b: real): real { if a <= b then a else b }

  function Max(a: real, b: real): real { if a >= b then a else b }

  function Abs(a: real): real { if a < 0.0 then -a else a }

  /** The largest finite single-precision value (`float.MaxValue`), the initial value of `StlModel._minBounds` and `Room`'s minima. */
  const FloatMax: real := 340282346638528859811704183484516925440.0

  /** The most negative finite single-precision value (`float.MinValue`), used as an "unset" marker. */
  const FloatMin: real := -FloatMax

  /** `v` lies between `a` and `b`, whichever order they come in. */
  predicate Between(v: real, a: real, b: real) {
    Min(a, b) <= v <= Max(a, b)
  }

  /** `p` lies in the axis-aligned box spanned by the segment from `a` to `b`. */
  predicate InSpan(p: Vec3, a: Vec3, b: Vec3) {
    Between(p.x, a.x, b.x) && Between(p.y, a.y, b.y) && Between(p.z, a.z, b.z)
  }

  lemma ProductNonNegative(a: real, b: real)
    requires a >= 0.0 && b >= 0.0
    ensures a * b >= 0.0
  {
  }

  /** A linear interpolation with blend in [0,1] stays between its end values. */
  lemma LerpComponentBetween(a: real, b: real, t: real)
    requires 0.0 <= t <= 1.0
    ensures Between(t * (b - a) + a, a, b)
  {
    var d := if a <= b then b - a else a - b;
    ProductNonNegative(t, d);
    ProductNonNegative(1.0 - t, d);
    assert t * d + (1.0 - t) * d == d;
    if a <= b {
      assert t * (b - a) == t * d;
    } else {
      assert t * (b - a) == -(t * d);
    }
  }

  lemma LerpInSpan(a: Vec3, b: Vec3, t: real)
    ensures 0.0 <= t <= 1.0 ==> InSpan(Lerp(a, b, t), a, b)
  {
    if 0.0 <= t <= 1.0 {
      LerpComponentBetween(a.x, b.x, t);
      LerpComponentBetween(a.y, b.y, t);
      LerpComponentBetween(a.z, b.z, t);
    }
  }
}
