/**
 * Combining the clinical probability with the text factor, and the final
 * risk label (fascitis-app/app.py, lines 112-124), with the sequence the
 * request handler runs them in (lines 170-173).
 */
module Risk {
  import opened Wrappers
  import opened Calibration
  import opened Tiers
  import TextSignal

  /**
   * `combine_risk(base, factor, ai_active)`. With the AI active and a factor
   * present, a 70/30 blend; otherwise a factor that is present and non-zero
   * (Python truthiness) is added as a bonus; otherwise the base comes back
   * unchanged and unclamped.
   */
  function CombineRisk(base: real, factor: Option<real>, aiActive: bool): (r: real)
    // blended path: always a probability, and between the two estimates
    ensures aiActive && factor.Some? ==> 0.0 <= r <= 1.0
    ensures aiActive && factor.Some? && 0.0 <= base <= 1.0 && 0.0 <= factor.value <= 1.0 ==>
      Min(base, factor.value) <= r <= Max(base, factor.value)
    // additive path: a saturating bonus that never lowers a probability
    ensures !aiActive && factor.Some? && factor.value != 0.0 ==> 0.0 <= r <= 1.0
    ensures !aiActive && factor.Some? && factor.value > 0.0 && base <= 1.0 ==> base <= r
    ensures !aiActive && factor.Some? && factor.value > 0.0 && base >= 0.0 ==>
      r == Min(base + factor.value, 1.0)
    // fall-through: no factor, or a zero factor without the AI
    ensures factor.None? || (!aiActive && factor.value == 0.0) ==> r == base
  {
    if aiActive && factor.Some? then Clamp(0.7 * base + 0.3 * factor.value, 0.0, 1.0)
    else if factor.Some? && factor.value != 0.0 then Clamp(base + factor.value, 0.0, 1.0)
    else base
  }

  /** A higher base probability never gives a lower combined one. */
  lemma CombineMonotoneInBase(b1: real, b2: real, factor: Option<real>, aiActive: bool)
    requires b1 <= b2
    ensures CombineRisk(b1, factor, aiActive) <= CombineRisk(b2, factor, aiActive)
  {
    if aiActive && factor.Some? {
      ClampMonotone(0.7 * b1 + 0.3 * factor.value, 0.7 * b2 + 0.3 * factor.value, 0.0, 1.0);
    } else if factor.Some? && factor.value != 0.0 {
      ClampMonotone(b1 + factor.value, b2 + factor.value, 0.0, 1.0);
    }
  }

  /**
   * For a base probability, a larger non-negative factor never gives a lower
   * combined probability, on either path.
   */
  lemma CombineMonotoneInFactor(base: real, t1: real, t2: real, aiActive: bool)
    requires 0.0 <= base <= 1.0 && 0.0 <= t1 <= t2
    ensures CombineRisk(base, Some(t1), aiActive) <= CombineRisk(base, Some(t2), aiActive)
  {
    if aiActive {
      ClampMonotone(0.7 * base + 0.3 * t1, 0.7 * base + 0.3 * t2, 0.0, 1.0);
    } else if t1 != 0.0 {
      ClampMonotone(base + t1, base + t2, 0.0, 1.0);
    }
  }

  /** Three combinations worked out by hand: the blend, the additive bonus and the pass-through of an absent factor. */
  lemma CombineExamples()
    ensures CombineRisk(0.5, Some(0.2), true) == 0.41
    ensures CombineRisk(0.5, Some(0.2), false) == 0.7
    ensures CombineRisk(0.9, None, false) == 0.9
  {
  }

  /** The risk tier of a probability: High from 0.6, Intermediate from 0.3, Low below. */
  function RiskTier(p: real): (t: Tier)
    ensures t == High <==> p >= 0.6
    ensures t == Intermediate <==> 0.3 <= p < 0.6
    ensures t == Low <==> p < 0.3
  {
    if p >= 0.6 then High
    else if p >= 0.3 then Intermediate
    else Low
  }

  /** The style key and colour the page uses for a tier. */
  function Presentation(t: Tier): (string, string)
  {
    match t
    case High => ("danger", "#dc3545")
    case Intermediate => ("warning", "#ffc107")
    case Low => ("success", "#198754")
  }

  /** `risk_label(prob)`: the (label, style key, colour) triple for a probability. */
  function RiskLabel(p: real): (r: (string, string, string))
    ensures r == ("Alto", "danger", "#dc3545") <==> p >= 0.6
    ensures r == ("Intermedio", "warning", "#ffc107") <==> 0.3 <= p < 0.6
    ensures r == ("Bajo", "success", "#198754") <==> p < 0.3
  {
    var t := RiskTier(p);
    (t.Name(), Presentation(t).0, Presentation(t).1)
  }

  /** A higher probability never gets a lower tier. */
  lemma RiskTierMonotone(p1: real, p2: real)
    requires p1 <= p2
    ensures RiskTier(p1).Rank() <= RiskTier(p2).Rank()
  {
  }

  /** The boundaries are inclusive from below. */
  lemma RiskTierBoundaries()
    ensures RiskTier(0.6) == High && RiskTier(0.599999) == Intermediate
    ensures RiskTier(0.3) == Intermediate && RiskTier(0.29999) == Low
  {
  }

  /** What one assessment hands to the page, apart from the inputs and the rounded percentage. */
  datatype Assessment = Assessment(prob: real, level: string, colorClass: string, colorHex: string)

  /**
   * The handler's sequence: the text factor comes from the AI when it is
   * active (`aiFactor`, the outcome of that call, absent on failure) and
   * from the keywords otherwise; it is combined with the base probability
   * and the result is labelled.
   */
  function Assess(base: real, notes: string, aiActive: bool, aiFactor: Option<real>): (a: Assessment)
    requires aiFactor.Some? ==> 0.0 <= aiFactor.value <= 1.0
    ensures 0.0 <= base <= 1.0 ==> 0.0 <= a.prob <= 1.0
    ensures !aiActive && 0.0 <= base <= 1.0 ==> base <= a.prob <= base + 0.3
    ensures !aiActive && TextSignal.KeywordsFactor(notes) == 0.0 ==> a.prob == base
    ensures aiActive && aiFactor.None? ==> a.prob == base
    ensures (a.level, a.colorClass, a.colorHex) == RiskLabel(a.prob)
  {
    var factor := if aiActive then aiFactor else Some(TextSignal.KeywordsFactor(notes));
    var prob := CombineRisk(base, factor, aiActive);
    var shown := RiskLabel(prob);
    Assessment(prob, shown.0, shown.1, shown.2)
  }

}
