/**
 * Smoothed panning of the image viewer: a raw mouse movement passes a deadzone, is scaled
 * by a sensitivity, eases the stored velocity towards it, and is returned clamped to a
 * maximum speed.  The two axes are computed the same way and independently.
 */
module SmoothPan {
  datatype PanConfig = PanConfig(sensitivity: real, deadzone: real, smoothing: real, maxVelocity: real)

  /** The built-in configuration. */
  function DefaultPanConfig(): PanConfig
  {
    PanConfig(0.6, 2.0, 0.15, 40.0)
  }

  function Abs(x: real): real
  {
    if x < 0.0 then -x else x
  }

  /** Movements smaller than the deadzone count as none. */
  function Adjusted(raw: real, deadzone: real): (r: real)
    ensures Abs(raw) < deadzone ==> r == 0.0
    ensures Abs(raw) >= deadzone ==> r == raw
  {
    if Abs(raw) < deadzone then 0.0 else raw
  }

  /** `v += (target - v) * smoothing`. */
  function Eased(v: real, target: real, smoothing: real): real
  {
    v + (target - v) * smoothing
  }

  /** One axis of the stored velocity after a raw movement: eased towards the deadzoned, scaled target. */
  function EasedVelocity(v: real, raw: real, config: PanConfig): real
  {
    Eased(v, Adjusted(raw, config.deadzone) * config.sensitivity, config.smoothing)
  }

  /** `Math.max(-m, Math.min(m, v))`. */
  function Clamp(v: real, m: real): real
  {
    var upper := if m < v then m else v;
    if -m > upper then -m else upper
  }

  class PanState {
    var vx: real
    var vy: real
    const config: PanConfig

    constructor (config: PanConfig)
      ensures this.config == config && vx == 0.0 && vy == 0.0
    {
      this.config := config;
      vx := 0.0;
      vy := 0.0;
    }

    /** `calculatePanDelta(rawX, rawY)`: the velocity is kept unclamped, the result is clamped. */
    method CalculatePanDelta(rawX: real, rawY: real) returns (dx: real, dy: real)
      modifies this
      ensures vx == EasedVelocity(old(vx), rawX, config) && vy == EasedVelocity(old(vy), rawY, config)
      ensures dx == Clamp(vx, config.maxVelocity) && dy == Clamp(vy, config.maxVelocity)
    {
      var adjustedX := Adjusted(rawX, config.deadzone);
      var adjustedY := Adjusted(rawY, config.deadzone);
      var targetX := adjustedX * config.sensitivity;
      var targetY := adjustedY * config.sensitivity;
      vx := Eased(vx, targetX, config.smoothing);
      vy := Eased(vy, targetY, config.smoothing);
      dx := Clamp(vx, config.maxVelocity);
      dy := Clamp(vy, config.maxVelocity);
    }
  }

  /** With a non-negative maximum the clamp lands in the range and leaves in-range values alone. */
  lemma ClampBounds(v: real, m: real)
    requires m >= 0.0
    ensures -m <= Clamp(v, m) <= m
    ensures -m <= v <= m ==> Clamp(v, m) == v
    ensures v > m ==> Clamp(v, m) == m
    ensures v < -m ==> Clamp(v, m) == -m
  {
  }

  /** With smoothing in [0, 1] the new velocity lies between the old one and the target. */
  lemma EasedBetween(v: real, target: real, smoothing: real)
    requires 0.0 <= smoothing <= 1.0
    ensures v <= target ==> v <= Eased(v, target, smoothing) <= target
    ensures target <= v ==> target <= Eased(v, target, smoothing) <= v
    ensures smoothing == 1.0 ==> Eased(v, target, smoothing) == target
  {
    var d := target - v;
    ScaledStep(d, smoothing);
    assert Eased(v, target, smoothing) == v + d * smoothing;
  }

  /** A fraction in [0, 1] of a step lies between zero and the step. */
  lemma ScaledStep(d: real, s: real)
    requires 0.0 <= s <= 1.0
    ensures d >= 0.0 ==> 0.0 <= d * s <= d
    ensures d <= 0.0 ==> d <= d * s <= 0.0
    ensures s == 1.0 ==> d * s == d
  {
    assert d - d * s == d * (1.0 - s);
  }

  /** The velocity is not clamped: a fast flick from rest stores 90 but returns 40. */
  lemma VelocityKeptUnclamped()
    ensures var c := DefaultPanConfig();
      var v := Eased(0.0, Adjusted(1000.0, c.deadzone) * c.sensitivity, c.smoothing);
      v == 90.0 && Clamp(v, c.maxVelocity) == 40.0
  {
  }

  /** A sub-deadzone jitter from rest moves nothing. */
  lemma JitterIgnored(raw: real)
    requires Abs(raw) < DefaultPanConfig().deadzone
    ensures var c := DefaultPanConfig();
      Clamp(Eased(0.0, Adjusted(raw, c.deadzone) * c.sensitivity, c.smoothing), c.maxVelocity) == 0.0
  {
  }
}
