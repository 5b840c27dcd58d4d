/**
 * Range restriction, lab-value normalisation and the logistic squashing
 * function shared by both clinical scorers (fascitis-app/app.py, lines 17-29).
 */
module Calibration {

  function Min(a: real, b: real): real { if a <= b then a else b }

  function Max(a: real, b: real): real { if a >= b then a else b }

  /**
   * `clamp(value, lo, hi)` is `max(lo, min(value, hi))`: a saturating
   * restriction to `[lo, hi]`. With an empty range (`hi < lo`) the lower
   * bound wins.
   */
  function Clamp(v: real, lo: real, hi: real): (r: real)
    ensures lo <= hi ==> lo <= r <= hi
    ensures lo <= v <= hi ==> r == v
    ensures lo <= hi && v < lo ==> r == lo
    ensures lo <= hi && hi < v ==> r == hi
    ensures hi < lo ==> r == lo
  {
    Max(lo, Min(v, hi))
  }

  /** Clamping never reverses the order of two values. */
  lemma ClampMonotone(a: real, b: real, lo: real, hi: real)
    requires a <= b
    ensures Clamp(a, lo, hi) <= Clamp(b, lo, hi)
  {
  }

  /**
   * `normalize_demo(value, ceiling)`: the value as a fraction of the
   * ceiling, saturated to the unit interval; a ceiling that is not positive
   * gives 0.
   */
  function Normalize(v: real, ceiling: real): (r: real)
    ensures ceiling <= 0.0 ==> r == 0.0
    ensures ceiling > 0.0 ==> 0.0 <= r <= 1.0
    ensures ceiling > 0.0 && 0.0 <= v <= ceiling ==> r == v / ceiling
    ensures ceiling > 0.0 && v < ceiling ==> r < 1.0
    ensures ceiling > 0.0 && v >= ceiling ==> r == 1.0
    ensures v <= 0.0 ==> r == 0.0
    ensures ceiling > 0.0 && v > 0.0 ==> r > 0.0
  {
    if ceiling <= 0.0 then 0.0
    else
      FractionBounds(v, ceiling);
      Clamp(v / ceiling, 0.0, 1.0)
  }

  /** Where `v / ceiling` lies relative to 0 and 1, for a positive ceiling. */
  lemma FractionBounds(v: real, ceiling: real)
    requires ceiling > 0.0
    ensures v <= 0.0 ==> v / ceiling <= 0.0
    ensures v > 0.0 ==> v / ceiling > 0.0
    ensures v < ceiling ==> v / ceiling < 1.0
    ensures v >= ceiling ==> v / ceiling >= 1.0
  {
    var q := v / ceiling;
    assert q * ceiling == v;
    ProductSign(q, ceiling);
    ProductSign(q - 1.0, ceiling);
    assert (q - 1.0) * ceiling == v - ceiling;
  }

  /** A positive factor keeps the sign of the other. */
  lemma ProductSign(x: real, c: real)
    requires c > 0.0
    ensures x > 0.0 <==> x * c > 0.0
    ensures x < 0.0 <==> x * c < 0.0
  {
  }

  /** Normalisation is non-decreasing in the lab value, whatever the ceiling. */
  lemma NormalizeMonotone(v1: real, v2: real, ceiling: real)
    requires v1 <= v2
    ensures Normalize(v1, ceiling) <= Normalize(v2, ceiling)
  {
    if ceiling > 0.0 {
      FractionBounds(v2 - v1, ceiling);
      assert (v2 - v1) / ceiling == v2 / ceiling - v1 / ceiling;
      ClampMonotone(v1 / ceiling, v2 / ceiling, 0.0, 1.0);
    }
  }

  /**
   * What the model assumes of `sigmoid(x) = 1 / (1 + exp(-x))`: its values
   * lie strictly between 0 and 1 and it is non-decreasing. The exponential
   * itself is not modelled; the scorers take the squashing function as a
   * parameter and their lemmas require this predicate of it.
   */
  ghost predicate IsSquashing(sigmoid: real -> real)
  {
    && (forall x :: 0.0 < sigmoid(x) < 1.0)
    && (forall x, y :: x <= y ==> sigmoid(x) <= sigmoid(y))
  }

}
