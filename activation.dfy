/** The density-to-probability curve `activationProb`. */
module Activation {
  import opened Common

  /**
   * What the model relies on about `Math.pow(x, 0.9)` on [0, 1]: it maps 0 to 0,
   * 1 to 1 and is monotone non-decreasing in between.
   */
  ghost predicate PowLike(pow: real -> real) {
    && pow(0.0) == 0.0
    && pow(1.0) == 1.0
    && forall x, y :: 0.0 <= x <= y <= 1.0 ==> pow(x) <= pow(y)
  }

  /** Probability at density 0 and the extra probability reached at density 10. */
  const BaseProb: real := 0.06
  const ProbScale: real := 0.08
  const MaxDensity: real := 10.0

  /** `Math.max(0, Math.min(10, density))`. */
  function ClampDensity(density: real): (d: real)
    ensures 0.0 <= d <= MaxDensity
    ensures 0.0 <= density <= MaxDensity ==> d == density
  {
    Max(0.0, Min(MaxDensity, density))
  }

  /** `0.06 + 0.08 * Math.pow(d / 10, 0.9)` with d the clamped density. */
  function ActivationProb(density: real, pow: real -> real): (p: real)
    requires PowLike(pow)
    ensures BaseProb <= p <= BaseProb + ProbScale
    ensures density <= 0.0 ==> p == BaseProb
    ensures density >= MaxDensity ==> p == BaseProb + ProbScale
  {
    var x := ClampDensity(density) / MaxDensity;
    assert pow(0.0) <= pow(x) <= pow(1.0);
    BaseProb + ProbScale * pow(x)
  }

  /** A denser rain never activates columns less often. */
  lemma ActivationMonotone(d1: real, d2: real, pow: real -> real)
    requires PowLike(pow) && d1 <= d2
    ensures ActivationProb(d1, pow) <= ActivationProb(d2, pow)
  {
    var x1, x2 := ClampDensity(d1) / MaxDensity, ClampDensity(d2) / MaxDensity;
    assert 0.0 <= x1 <= x2 <= 1.0;
    assert pow(x1) <= pow(x2);
  }
}
