/**
  * The camera arithmetic the three viewer generations share: pointer drags
  * turned into angles, the exponential damping step that eases the current
  * rotation toward its target, the pitch clamp applied when rendering, and
  * the remainder `reset` takes. Each generation's class uses these with its
  * own constants.
  */
module Cameras {

  import opened Numerics
  import opened Wrappers
  import Matrices
  import LegacyMatrices

  /** The field of view handed to `perspective`, documented as degrees but used as radians there. */
  const CAMERA_FOV: real := 45.0
  const CAMERA_NEAR: real := 0.1
  const CAMERA_FAR: real := 100.0

  /** How far from straight up or down the pitch may go: `PI_HALF - 1e-10`. */
  const PITCH_LIMIT: real := PI_HALF - 0.0000000001

  /** Below this difference on both axes, the damping step leaves the camera alone. */
  const SETTLE_EPSILON: real := 0.00001

  /**
    * `v || 0` for an optional number: missing and 0 both give 0. (The
    * bundle's `=== void 0` test is `BundleMeshes.AngleOrZero`; the two tests
    * differ only on NaN, which the model does not represent.)
    */
  function OrZero(v: Option<real>): (r: real)
    ensures v.None? ==> r == 0.0
    ensures v.Some? ==> r == v.value
  {
    if v.None? then 0.0 else v.value
  }

  /** The angle a drag of `pixels` adds: `(pixels * rate) * DEG2RAD`, `rate` in degrees per pixel. */
  function DragAngle(pixels: real, rate: real): real {
    (pixels * rate) * DEG2RAD
  }

  /** Two drags add up to the drag over the summed distance, and no movement adds nothing. */
  lemma DragAngleAdditive(a: real, b: real, rate: real)
    ensures DragAngle(a + b, rate) == DragAngle(a, rate) + DragAngle(b, rate)
    ensures DragAngle(0.0, rate) == 0.0
  {
    assert (a + b) * rate == a * rate + b * rate;
  }

  /** A drag moves the angle against the pointer: right or down turns to smaller angles. */
  lemma DragAngleSign(pixels: real, rate: real)
    requires rate < 0.0
    ensures pixels > 0.0 ==> DragAngle(pixels, rate) < 0.0
    ensures pixels < 0.0 ==> DragAngle(pixels, rate) > 0.0
  {
  }

  /** `1 - Math.exp(-dampingFactor * delta / k)`: the share of the distance one frame covers. */
  function LerpRatio(m: MathLib, dampingFactor: real, delta: real, k: real): real
    requires k != 0.0
  {
    1.0 - m.exp(-dampingFactor * delta / k)
  }

  /**
    * For a non-negative damping factor and frame time the share lies in
    * [0, 1): a frame never overshoots the target and never reaches it
    * exactly; a frame of no time covers nothing.
    */
  lemma LerpRatioInUnitInterval(m: MathLib, dampingFactor: real, delta: real, k: real)
    requires Lawful(m) && dampingFactor >= 0.0 && delta >= 0.0 && k > 0.0
    ensures 0.0 <= LerpRatio(m, dampingFactor, delta, k) < 1.0
    ensures delta == 0.0 ==> LerpRatio(m, dampingFactor, delta, k) == 0.0
  {
    var t := -dampingFactor * delta / k;
    assert dampingFactor * delta >= 0.0;
    assert t <= 0.0;
    assert m.exp(t) > 0.0;
  }

  /** Whether either axis is still more than `SETTLE_EPSILON` from its target. */
  predicate Unsettled(deltaPitch: real, deltaYaw: real) {
    Abs(deltaPitch) > SETTLE_EPSILON || Abs(deltaYaw) > SETTLE_EPSILON
  }

  /** `current += (target - current) * ratio`. */
  function Approach(current: real, target: real, ratio: real): real {
    current + (target - current) * ratio
  }

  /**
    * A step with a share in [0, 1] multiplies the remaining difference by
    * `1 - ratio`: it keeps its sign and never grows. A share of 0 stays, a
    * share of 1 arrives.
    */
  lemma ApproachContracts(current: real, target: real, ratio: real)
    requires 0.0 <= ratio <= 1.0
    ensures target - Approach(current, target, ratio) == (target - current) * (1.0 - ratio)
    ensures Abs(target - Approach(current, target, ratio)) <= Abs(target - current)
    ensures current <= target ==> current <= Approach(current, target, ratio) <= target
    ensures target <= current ==> target <= Approach(current, target, ratio) <= current
    ensures ratio == 0.0 ==> Approach(current, target, ratio) == current
    ensures ratio == 1.0 ==> Approach(current, target, ratio) == target
  {
    var d := target - current;
    assert target - Approach(current, target, ratio) == d * (1.0 - ratio);
    if d >= 0.0 {
      NonNegativeProduct(d, 1.0 - ratio);
      NonNegativeProduct(d, ratio);
    } else {
      NonNegativeProduct(-d, 1.0 - ratio);
      NonNegativeProduct(-d, ratio);
    }
  }

  lemma NonNegativeProduct(a: real, b: real)
    requires a >= 0.0 && b >= 0.0
    ensures a * b >= 0.0
  {
  }

  /** `Math.max(Math.min(p, PITCH_LIMIT), -PITCH_LIMIT)`. */
  function ClampPitch(p: real): (r: real)
    ensures -PITCH_LIMIT <= r <= PITCH_LIMIT
    ensures -PITCH_LIMIT <= p <= PITCH_LIMIT ==> r == p
    ensures p > PITCH_LIMIT ==> r == PITCH_LIMIT
    ensures p < -PITCH_LIMIT ==> r == -PITCH_LIMIT
  {
    Max(Min(p, PITCH_LIMIT), -PITCH_LIMIT)
  }

  /** Clamping twice is clamping once. */
  lemma ClampPitchIdempotent(p: real)
    ensures ClampPitch(ClampPitch(p)) == ClampPitch(p)
  {
  }

  /**
    * `angle % PI_2`, as `reset` applies it: the sign is kept, so the result
    * lies in (-2π, 2π), and an angle already inside stays as it is, so a
    * second reset changes nothing.
    */
  lemma ResetRemainder(angle: real)
    ensures TruncRem(angle, PI_2) == angle - (Trunc(angle / PI_2) as real) * PI_2
    ensures -PI_2 < TruncRem(angle, PI_2) < PI_2
    ensures angle >= 0.0 ==> TruncRem(angle, PI_2) >= 0.0
    ensures angle <= 0.0 ==> TruncRem(angle, PI_2) <= 0.0
    ensures -PI_2 < angle < PI_2 ==> TruncRem(angle, PI_2) == angle
    ensures TruncRem(TruncRem(angle, PI_2), PI_2) == TruncRem(angle, PI_2)
  {
    if -PI_2 < angle < PI_2 {
      TruncRemInRange(angle, PI_2);
    }
    TruncRemInRange(TruncRem(angle, PI_2), PI_2);
  }

  /** Five half turns reset to one half turn: `5π % 2π == π`. */
  lemma ResetFiveHalfTurns()
    ensures TruncRem(5.0 * PI, PI_2) == PI
  {
    assert (5.0 * PI) / PI_2 == 2.5;
    assert Trunc(2.5) == 2;
  }

  /** All three angles of a rotation array are 0. */
  ghost predicate Zero(a: array<real>)
    reads a
  {
    a.Length == 3 && a[0] == 0.0 && a[1] == 0.0 && a[2] == 0.0
  }

  /** A fresh rotation `[0, 0, 0]` (or `new Float32Array(3)`). */
  method ZeroRotation() returns (a: array<real>)
    ensures fresh(a) && a.Length == 3 && Zero(a)
  {
    a := new real[3] [0.0, 0.0, 0.0];
  }

  /** A fresh matrix of the older class set to `perspective(CAMERA_FOV, width / height, CAMERA_NEAR, CAMERA_FAR)`. */
  method NewLegacyProjection(m: MathLib, width: real, height: real) returns (p: LegacyMatrices.Matrix4)
    requires m.tan(CAMERA_FOV * 0.5) != 0.0 && width != 0.0 && height != 0.0
    ensures fresh(p) && fresh(p.arr) && p.Valid()
    ensures p.Value() == Matrices.PerspectiveMat(m, CAMERA_FOV, width / height, CAMERA_NEAR, CAMERA_FAR)
  {
    p := new LegacyMatrices.Matrix4();
    var _ := p.Perspective(m, CAMERA_FOV, width / height, CAMERA_NEAR, CAMERA_FAR);
  }

}
