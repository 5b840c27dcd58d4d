/**
 * The LRINEC scorer, `calculate_lrinec` (fascitis-app/app.py, lines 41-74):
 * threshold points for six labs, summed without a cap, mapped to a
 * three-level category and to a logistic probability centred at 6.5.
 */
module Lrinec {
  import opened Calibration
  import opened Tiers

  /**
   * C-reactive protein (mg/L), leukocytes (10^9/L), haemoglobin (g/dL),
   * sodium (mmol/L), creatinine (mg/dL), glucose (mg/dL).
   */
  datatype LrinecPanel = LrinecPanel(crp: real, wbc: real, hb: real, na: real, creat: real, glucose: real)
  {
    /** For finite inputs, the route rejects a panel with a negative value before scoring it. */
    predicate Valid()
    {
      crp >= 0.0 && wbc >= 0.0 && hb >= 0.0 && na >= 0.0 && creat >= 0.0 && glucose >= 0.0
    }
  }

  datatype LrinecResult = LrinecResult(score: nat, level: Tier, probability: real)

  /** C-reactive protein of 150 or more scores 4. */
  function CrpPoints(crp: real): (pts: nat)
    ensures pts == 4 <==> crp >= 150.0
    ensures pts == 0 <==> crp < 150.0
  {
    if crp >= 150.0 then 4 else 0
  }

  /** Leukocytes: 1 point in [15, 25], 2 points above 25; the two bands exclude each other. */
  function WbcPoints(wbc: real): (pts: nat)
    ensures pts <= 2
    ensures pts == 1 <==> 15.0 <= wbc <= 25.0
    ensures pts == 2 <==> wbc > 25.0
  {
    if 15.0 <= wbc <= 25.0 then 1
    else if wbc > 25.0 then 2
    else 0
  }

  /** Haemoglobin: 1 point in [11, 13.5], 2 points below 11; the two bands exclude each other. */
  function HbPoints(hb: real): (pts: nat)
    ensures pts <= 2
    ensures pts == 1 <==> 11.0 <= hb <= 13.5
    ensures pts == 2 <==> hb < 11.0
  {
    if 11.0 <= hb <= 13.5 then 1
    else if hb < 11.0 then 2
    else 0
  }

  /** Sodium below 135 scores 2. */
  function NaPoints(na: real): (pts: nat)
    ensures pts == 2 <==> na < 135.0
    ensures pts == 0 <==> na >= 135.0
  {
    if na < 135.0 then 2 else 0
  }

  /** Creatinine above 1.6 scores 2. */
  function CreatPoints(creat: real): (pts: nat)
    ensures pts == 2 <==> creat > 1.6
    ensures pts == 0 <==> creat <= 1.6
  {
    if creat > 1.6 then 2 else 0
  }

  /** Glucose above 180 scores 1. */
  function GlucosePoints(glucose: real): (pts: nat)
    ensures pts == 1 <==> glucose > 180.0
    ensures pts == 0 <==> glucose <= 180.0
  {
    if glucose > 180.0 then 1 else 0
  }

  /** The score: the independent per-lab points added up, with no cap. */
  function LrinecScore(p: LrinecPanel): (s: nat)
    ensures s <= 13
  {
    CrpPoints(p.crp) + WbcPoints(p.wbc) + HbPoints(p.hb)
      + NaPoints(p.na) + CreatPoints(p.creat) + GlucosePoints(p.glucose)
  }

  /** The category: High from 8, Intermediate from 6 to 7, Low below 6. */
  function LrinecLevel(score: int): (t: Tier)
    ensures t == High <==> score >= 8
    ensures t == Intermediate <==> 6 <= score < 8
    ensures t == Low <==> score < 6
  {
    if score >= 8 then High
    else if score >= 6 then Intermediate
    else Low
  }

  /** The probability `sigmoid((score - 6.5) / 1.5)`. */
  function LrinecProbability(sigmoid: real -> real, score: int): (r: real)
    ensures IsSquashing(sigmoid) ==> 0.0 < r < 1.0
  {
    sigmoid((score as real - 6.5) / 1.5)
  }

  /** `calculate_lrinec`: the score, its category and its probability. */
  function CalculateLrinec(sigmoid: real -> real, p: LrinecPanel): (r: LrinecResult)
    requires p.Valid()
    ensures r.score <= 13
    ensures r.level == LrinecLevel(r.score)
    ensures r.probability == LrinecProbability(sigmoid, r.score)
    ensures r.score == LrinecScore(p)
  {
    var score := LrinecScore(p);
    LrinecResult(score, LrinecLevel(score), LrinecProbability(sigmoid, score))
  }

  /** The uncapped maximum of 13 is reached exactly when every lab scores its top band. */
  lemma MaximumScoreIff(p: LrinecPanel)
    ensures LrinecScore(p) == 13 <==>
      p.crp >= 150.0 && p.wbc > 25.0 && p.hb < 11.0 && p.na < 135.0 && p.creat > 1.6 && p.glucose > 180.0
  {
  }

  /** A score of zero means every lab is outside all of its bands. */
  lemma ZeroScoreIff(p: LrinecPanel)
    ensures LrinecScore(p) == 0 <==>
      p.crp < 150.0 && p.wbc < 15.0 && p.hb > 13.5 && p.na >= 135.0 && p.creat <= 1.6 && p.glucose <= 180.0
  {
  }

  /**
   * `b` is at least as severe as `a` on every lab: higher CRP, leukocytes,
   * creatinine and glucose, lower haemoglobin and sodium.
   */
  predicate AtLeastAsSevere(b: LrinecPanel, a: LrinecPanel)
  {
    && a.crp <= b.crp && a.wbc <= b.wbc && b.hb <= a.hb
    && b.na <= a.na && a.creat <= b.creat && a.glucose <= b.glucose
  }

  /** Each rule points the same way, so a more severe panel never scores lower. */
  lemma ScoreMonotone(a: LrinecPanel, b: LrinecPanel)
    requires AtLeastAsSevere(b, a)
    ensures LrinecScore(a) <= LrinecScore(b)
  {
  }

  /** The levels are ordered like the scores. */
  lemma LevelMonotone(s1: int, s2: int)
    requires s1 <= s2
    ensures LrinecLevel(s1).Rank() <= LrinecLevel(s2).Rank()
  {
  }

  /**
   * The probability agrees with the category: a High score gives at least
   * `sigmoid(1)`, a Low score at most `sigmoid(-1)`, an Intermediate one lies
   * between `sigmoid(-1/3)` and `sigmoid(1/3)`; and a higher score never gives
   * a lower probability.
   */
  lemma ProbabilityMatchesLevel(sigmoid: real -> real, s1: int, s2: int)
    requires IsSquashing(sigmoid)
    requires s1 <= s2
    ensures LrinecProbability(sigmoid, s1) <= LrinecProbability(sigmoid, s2)
    ensures LrinecLevel(s1) == High ==> LrinecProbability(sigmoid, s1) >= sigmoid(1.0)
    ensures LrinecLevel(s1) == Low ==> LrinecProbability(sigmoid, s1) <= sigmoid(-1.0)
    ensures LrinecLevel(s1) == Intermediate ==>
      sigmoid(-1.0 / 3.0) <= LrinecProbability(sigmoid, s1) <= sigmoid(1.0 / 3.0)
  {
    assert (s1 as real - 6.5) / 1.5 <= (s2 as real - 6.5) / 1.5;
  }

  /** The panel (0, 0, 12, 140, 1.0, 100) scores only its haemoglobin point: 1, Low. */
  lemma ExampleLowPanel(sigmoid: real -> real)
    ensures var r := CalculateLrinec(sigmoid, LrinecPanel(0.0, 0.0, 12.0, 140.0, 1.0, 100.0));
      r.score == 1 && r.level == Low
  {
  }

  /** The panel (150, 20, 10, 130, 2.0, 200) scores 4+1+2+2+2+1 = 12, High. */
  lemma ExampleHighPanel(sigmoid: real -> real)
    ensures var r := CalculateLrinec(sigmoid, LrinecPanel(150.0, 20.0, 10.0, 130.0, 2.0, 200.0));
      r.score == 12 && r.level == High
  {
  }

}
