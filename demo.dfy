/**
 * The simplified DEMO scorer, `calculate_demo` (fascitis-app/app.py, lines
 * 31-39): three labs normalised against fixed ceilings, combined by a fixed
 * convex weighting and passed through the logistic function.
 */
module Demo {
  import opened Calibration

  const PcrCeiling: real := 300.0
  const WbcCeiling: real := 40.0
  const EsrCeiling: real := 150.0

  const PcrWeight: real := 0.4
  const WbcWeight: real := 0.35
  const EsrWeight: real := 0.25

  /** C-reactive protein (mg/L), leukocytes (10^9/L), sedimentation rate (mm/h). */
  datatype DemoPanel = DemoPanel(pcr: real, wbc: real, esr: real)
  {
    /** For finite inputs, the route rejects a panel with a negative value before scoring it. */
    predicate Valid()
    {
      pcr >= 0.0 && wbc >= 0.0 && esr >= 0.0
    }
  }

  /**
   * The weighted sum `z` of the three normalised labs. The weights add up
   * to one, so `z` stays in the unit interval for every input.
   */
  function WeightedSum(p: DemoPanel): (z: real)
    ensures 0.0 <= z <= 1.0
  {
    PcrWeight * Normalize(p.pcr, PcrCeiling)
      + WbcWeight * Normalize(p.wbc, WbcCeiling)
      + EsrWeight * Normalize(p.esr, EsrCeiling)
  }

  /** The argument handed to the logistic function, `3z - 1.5`. */
  function Logit(p: DemoPanel): (x: real)
    ensures -1.5 <= x <= 1.5
    ensures x == 0.0 <==> WeightedSum(p) == 0.5
  {
    3.0 * WeightedSum(p) - 1.5
  }

  /**
   * The DEMO probability. Whatever the labs, it is confined to the band
   * between `sigmoid(-1.5)` and `sigmoid(1.5)`.
   */
  function DemoProbability(sigmoid: real -> real, p: DemoPanel): (r: real)
    requires p.Valid()
    ensures IsSquashing(sigmoid) ==> 0.0 < r < 1.0
    ensures IsSquashing(sigmoid) ==> sigmoid(-1.5) <= r <= sigmoid(1.5)
  {
    sigmoid(Logit(p))
  }

  /** `b` has every lab at least as high as `a`. */
  predicate Dominates(b: DemoPanel, a: DemoPanel)
  {
    a.pcr <= b.pcr && a.wbc <= b.wbc && a.esr <= b.esr
  }

  /**
   * The weighted sum is non-decreasing in each lab with the others held
   * fixed (and hence in all of them together).
   */
  lemma WeightedSumMonotone(a: DemoPanel, b: DemoPanel)
    requires Dominates(b, a)
    ensures WeightedSum(a) <= WeightedSum(b)
  {
    NormalizeMonotone(a.pcr, b.pcr, PcrCeiling);
    NormalizeMonotone(a.wbc, b.wbc, WbcCeiling);
    NormalizeMonotone(a.esr, b.esr, EsrCeiling);
  }

  /** Higher labs never give a lower DEMO probability. */
  lemma DemoProbabilityMonotone(sigmoid: real -> real, a: DemoPanel, b: DemoPanel)
    requires IsSquashing(sigmoid)
    requires a.Valid() && b.Valid() && Dominates(b, a)
    ensures DemoProbability(sigmoid, a) <= DemoProbability(sigmoid, b)
  {
    WeightedSumMonotone(a, b);
  }

  /** The weighted sum is zero exactly when no lab is positive. */
  lemma WeightedSumZeroIff(p: DemoPanel)
    ensures WeightedSum(p) == 0.0 <==> p.pcr <= 0.0 && p.wbc <= 0.0 && p.esr <= 0.0
  {
  }

  /** The weighted sum reaches one exactly when every lab is at or above its ceiling. */
  lemma WeightedSumOneIff(p: DemoPanel)
    ensures WeightedSum(p) == 1.0 <==> p.pcr >= PcrCeiling && p.wbc >= WbcCeiling && p.esr >= EsrCeiling
  {
  }

}
