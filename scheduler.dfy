/** The time step of the animation-frame tick: elapsed milliseconds to seconds, clamped. */
module Scheduler {
  import opened Common
  import opened Streaks

  /** Longest simulated step, in milliseconds. */
  const MaxStepMs: real := 80.0

  /** `Math.min(80, t - last) / 1000` as written: bounded above, not below. */
  function ClampDtAsWritten(t: real, last: real): (dt: real)
    ensures dt <= MaxStepMs / 1000.0
    ensures t - last <= MaxStepMs ==> dt == (t - last) / 1000.0
    ensures t < last ==> dt < 0.0
  {
    Min(MaxStepMs, t - last) / 1000.0
  }

  /**
   * A frame timestamp 10 ms before `last` gives a negative step, and the decay
   * pass then raises an unlit cell at opacity 0.99 above 1.
   */
  lemma NegativeStepBrightens()
    ensures ClampDtAsWritten(990.0, 1000.0) == -0.01
    ensures Decay(0.99, false, ClampDtAsWritten(990.0, 1000.0)) > 1.0
  {
    assert ClampDtAsWritten(990.0, 1000.0) == -10.0 / 1000.0;
  }

  /** The clamp with the lower bound the tick evidently intends: the step lies in [0, 0.08] seconds. */
  function ClampDt(t: real, last: real): (dt: real)
    ensures 0.0 <= dt <= MaxStepMs / 1000.0
    ensures t >= last ==> dt == ClampDtAsWritten(t, last)
    ensures t <= last ==> dt == 0.0
  {
    Max(0.0, Min(MaxStepMs, t - last)) / 1000.0
  }

  /** With the clamped step, the decay pass keeps an opacity in [0, 1] and never raises it. */
  lemma ClampedDecayStaysInUnit(a: real, lit: bool, t: real, last: real)
    requires 0.0 <= a <= 1.0
    ensures var a' := Decay(a, lit, ClampDt(t, last)); 0.0 <= a' <= a <= 1.0
  {
  }

  /**
   * However long the gap between frames, one tick moves a head by at most the
   * distance covered in 80 ms at the effective speed `max(1, speed)`.
   */
  lemma LongGapMovesHeadBoundedly(speed: real, t: real, last: real)
    ensures var step := Max(1.0, speed) * ClampDt(t, last);
      0.0 <= step <= Max(1.0, speed) * (MaxStepMs / 1000.0)
  {
    var v, dt := Max(1.0, speed), ClampDt(t, last);
    assert v * (MaxStepMs / 1000.0) - v * dt == v * (MaxStepMs / 1000.0 - dt);
  }
}
