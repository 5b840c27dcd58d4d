# Necrotizing fasciitis risk engine — Dafny model

This project models the scoring and calibration engine of the fascitis-app
web application (`fascitis-app/app.py`). The engine estimates the probability
that a patient has necrotizing fasciitis. It works in four steps:

- **Normalisation** (`clamp`, `normalize_demo`): a lab value as a fraction of a fixed
  ceiling, saturated to `[0, 1]`.
- **Clinical scorers**: the simplified DEMO score (`calculate_demo`) and the
  LRINEC score (`calculate_lrinec`). DEMO uses a weighted sum of three normalised
  labs. LRINEC gives integer points for six labs and maps the total to a
  category and a probability.
- **Text factor** (`keywords_factor`): 0.05 for each of seven fixed Spanish
  keywords found in the lower-cased clinical notes, capped at 0.3.
- **Combination and labelling** (`combine_risk`, `risk_label`): the base probability
  is blended with an AI-derived factor or bumped by the keyword factor. The
  result then gets a tier label ("Bajo", "Intermedio", "Alto") with a style key and a colour.

Every part is a pure function, so the model uses Dafny functions and lemmas.
Python floats are idealised as `real`. One module per component:

| file | module | models |
|---|---|---|
| `wrappers.dfy` | `Wrappers` | `Option`, the present/absent text factor |
| `calibration.dfy` | `Calibration` | `clamp`, `normalize_demo`, what is assumed of `sigmoid` |
| `demo.dfy` | `Demo` | `calculate_demo` |
| `tiers.dfy` | `Tiers` | the three levels and their displayed names |
| `lrinec.dfy` | `Lrinec` | `calculate_lrinec` |
| `text_signal.dfy` | `TextSignal` | `keywords_factor`, `str.lower`, Python's `in` on strings |
| `text_signal_examples.dfy` | `TextSignalExamples` | the keyword factor on concrete notes |
| `risk.dfy` | `Risk` | `combine_risk`, `risk_label`, the order in which the handler calls them |

`sigmoid` is `1 / (1 + exp(-x))` in the source. Here it is a parameter
`sigmoid: real -> real` of the scorers. The lemmas about probabilities require
`Calibration.IsSquashing(sigmoid)`: values strictly inside `(0, 1)` and
non-decreasing. The real logistic function has both properties.

For finite inputs, the request handler rejects negative lab values (lines 142-143
and 157-158). This guard is the `Valid()` predicate of `Demo.DemoPanel` and `Lrinec.LrinecPanel`,
and it is the precondition of the two top-level scorers.

Points where the code's behaviour is easy to misread:

- The keywords are the Spanish literals of the code ("dolor desproporcionado",
  "crepitación", "bullas", "necrosis", "progresión rápida", "sepsis",
  "hipotensión").
- The code counts each keyword at most once (`kw in t`, line 88). It does not count
  occurrences. `TextSignal.HitsCountsMatched` and `TextSignalExamples.ExampleRepeatedKeyword`
  state this.
- The LRINEC total has no cap. The highest reachable total is 13, as in the
  published LRINEC score (Wong et al., Crit Care Med 2004).
  `Lrinec.MaximumScoreIff` shows when 13 is reached.

## Model

| member | source | states |
|---|---|---|
| `Calibration.Clamp` | fascitis-app/app.py:17-19 | The result lies in `[lo, hi]` when `lo <= hi`. A value already in range is returned unchanged. Values below or above the range saturate to `lo` or `hi`. An empty range gives `lo`. |
| `Calibration.ClampMonotone` | fascitis-app/app.py:17-19 | Clamping preserves order. |
| `Calibration.Normalize` | fascitis-app/app.py:25-29 | A ceiling `<= 0` gives 0. Otherwise the result is in `[0, 1]`: it equals `v / ceiling` for `v` in `[0, ceiling]`, is 1 from the ceiling on, is below 1 under it, is 0 for `v <= 0` and is positive for `v > 0`. |
| `Calibration.NormalizeMonotone` | fascitis-app/app.py:25-29 | Normalisation is non-decreasing in the lab value, for any ceiling. |
| `Demo.WeightedSum` | fascitis-app/app.py:33-37 | `z = 0.4*n_pcr + 0.35*n_wbc + 0.25*n_esr` lies in `[0, 1]` for every input. |
| `Demo.Logit` | fascitis-app/app.py:37-39 | The argument `3z - 1.5` of the sigmoid lies in `[-1.5, 1.5]` and is 0 exactly when `z = 0.5`. |
| `Demo.DemoProbability` | fascitis-app/app.py:31-39 | For a valid panel and a squashing sigmoid, the DEMO probability lies in `(0, 1)` and within `[sigmoid(-1.5), sigmoid(1.5)]`. |
| `Demo.WeightedSumMonotone` | fascitis-app/app.py:33-37 | `z` is non-decreasing in each of PCR, WBC and ESR, with the others held fixed or raised too. |
| `Demo.DemoProbabilityMonotone` | fascitis-app/app.py:31-39 | Higher labs never give a lower DEMO probability. |
| `Demo.WeightedSumZeroIff` | fascitis-app/app.py:33-37 | `z = 0` iff no lab is positive. |
| `Demo.WeightedSumOneIff` | fascitis-app/app.py:33-37 | `z = 1` iff every lab is at or above its ceiling (300, 40, 150). |
| `Lrinec.CrpPoints` | fascitis-app/app.py:44-46 | 4 points iff CRP >= 150, else 0. |
| `Lrinec.WbcPoints` | fascitis-app/app.py:47-51 | At most 2 points: 1 iff 15 <= WBC <= 25, 2 iff WBC > 25. At most one branch applies. |
| `Lrinec.HbPoints` | fascitis-app/app.py:52-56 | At most 2 points: 1 iff 11 <= Hb <= 13.5, 2 iff Hb < 11. At most one branch applies. |
| `Lrinec.NaPoints` | fascitis-app/app.py:57-59 | 2 points iff Na < 135, else 0. |
| `Lrinec.CreatPoints` | fascitis-app/app.py:60-62 | 2 points iff creatinine > 1.6, else 0. |
| `Lrinec.GlucosePoints` | fascitis-app/app.py:63-65 | 1 point iff glucose > 180, else 0. |
| `Lrinec.LrinecScore` | fascitis-app/app.py:43-65 | The total of the independent per-lab points lies in `[0, 13]`. |
| `Lrinec.LrinecLevel` | fascitis-app/app.py:68-73 | "Alto" iff score >= 8, "Intermedio" iff 6 <= score < 8, "Bajo" iff score < 6. The three levels partition the scores. |
| `Lrinec.LrinecProbability` | fascitis-app/app.py:66-67 | `sigmoid((score - 6.5) / 1.5)` lies in `(0, 1)` for a squashing sigmoid. |
| `Lrinec.CalculateLrinec` | fascitis-app/app.py:41-74 | For a valid panel, returns the score (at most 13), the level of that score and the probability of that score. |
| `Lrinec.MaximumScoreIff` | fascitis-app/app.py:43-65 | The uncapped maximum 13 is reached iff every lab is in its top band. |
| `Lrinec.ZeroScoreIff` | fascitis-app/app.py:43-65 | The score is 0 iff every lab is outside all of its bands. |
| `Lrinec.ScoreMonotone` | fascitis-app/app.py:43-65 | A panel at least as severe on every lab (higher CRP, WBC, creatinine, glucose; lower Hb, Na) never scores lower. |
| `Lrinec.LevelMonotone` | fascitis-app/app.py:68-73 | A higher score never gets a lower level. |
| `Lrinec.ProbabilityMatchesLevel` | fascitis-app/app.py:66-73 | The probability is non-decreasing in the score. A High score gives at least `sigmoid(1)`, a Low one at most `sigmoid(-1)`, an Intermediate one a value in `[sigmoid(-1/3), sigmoid(1/3)]`. |
| `Lrinec.ExampleLowPanel` | fascitis-app/app.py:41-74 | The panel (0, 0, 12, 140, 1.0, 100) scores 1, level "Bajo". |
| `Lrinec.ExampleHighPanel` | fascitis-app/app.py:41-74 | The panel (150, 20, 10, 130, 2.0, 200) scores 12, level "Alto". |
| `TextSignal.Lower` | fascitis-app/app.py:87 | Lower-casing keeps the length and maps every character by `LowerChar`. |
| `TextSignal.LowerAppend` | fascitis-app/app.py:87 | Lower-casing distributes over concatenation. |
| `TextSignal.LowerIdempotent` | fascitis-app/app.py:87 | Lower-casing twice is the same as lower-casing once. |
| `TextSignal.LowerKeepsLowerCase` | fascitis-app/app.py:87 | A text without capitals is unchanged by lower-casing. |
| `TextSignal.ContainsIffOccurs` | fascitis-app/app.py:88 | The scan that models `kw in t` succeeds iff `kw` sits at some position of `t`. |
| `TextSignal.FoundAt` | fascitis-app/app.py:88 | A keyword sitting at any position is found by the scan. |
| `TextSignal.ContainsAppendRight` | fascitis-app/app.py:88 | A substring stays a substring when text is appended. |
| `TextSignal.ContainsAppendLeft` | fascitis-app/app.py:88 | A substring stays a substring when text is prepended. |
| `TextSignal.MissingCharacterExcludes` | fascitis-app/app.py:88 | A keyword containing a character that the text lacks is not found. |
| `TextSignal.Hits` | fascitis-app/app.py:88 | The generator sum counts at most one hit per keyword, so it is at most the number of keywords. |
| `TextSignal.HitsCountsMatched` | fascitis-app/app.py:88 | For a keyword list without repetitions, the hit count equals the number of distinct keywords that occur. |
| `TextSignal.HitsGrowWithText` | fascitis-app/app.py:88 | Surrounding the text with more text never lowers the hit count. |
| `TextSignal.KeywordsFactor` | fascitis-app/app.py:76-89 | Let `m` be the number of distinct keywords in the lower-cased notes. Then `m <= 7`, and the factor is `0.05*m` for `m <= 6` and 0.3 otherwise, so it lies in `[0, 0.3]`. |
| `TextSignal.FactorIgnoresCase` | fascitis-app/app.py:87-88 | Lower-casing the notes first does not change the factor. |
| `TextSignal.FactorGrowsWithText` | fascitis-app/app.py:76-89 | Adding text before or after the notes never lowers the factor. |
| `TextSignal.NoKeywordGivesZero` | fascitis-app/app.py:76-89 | Notes without any keyword give 0. |
| `TextSignal.EmptyNotesGiveZero` | fascitis-app/app.py:76-89 | Empty notes give 0. |
| `TextSignalExamples.ExampleTwoKeywords` | fascitis-app/app.py:76-89 | "sepsis y bullas" contains two distinct keywords and gives 0.10. |
| `TextSignalExamples.ExampleRepeatedKeyword` | fascitis-app/app.py:76-89 | "sepsis, sepsis" still gives 0.05: a repeated keyword counts once. |
| `Risk.CombineRisk` | fascitis-app/app.py:112-117 | With the AI active and a factor present, the result is in `[0, 1]` and, for inputs in `[0, 1]`, lies between base and factor. Without the AI, a non-zero factor gives a result in `[0, 1]`. For a positive factor that result is `min(base + t, 1)` and at least `base`. With no factor, or a zero factor without the AI, the base is returned unchanged. |
| `Risk.CombineMonotoneInBase` | fascitis-app/app.py:112-117 | A higher base probability never gives a lower combined one. |
| `Risk.CombineMonotoneInFactor` | fascitis-app/app.py:112-117 | For a base in `[0, 1]`, a larger non-negative factor never gives a lower combined probability, on either path. |
| `Risk.CombineExamples` | fascitis-app/app.py:112-117 | (0.5, 0.2, AI) gives 0.41. (0.5, 0.2, no AI) gives 0.7. (0.9, absent, no AI) gives 0.9. |
| `Risk.RiskTier` | fascitis-app/app.py:119-124 | High iff p >= 0.6, Intermediate iff 0.3 <= p < 0.6, Low iff p < 0.3. |
| `Risk.RiskLabel` | fascitis-app/app.py:119-124 | ("Alto", "danger", "#dc3545") iff p >= 0.6. ("Intermedio", "warning", "#ffc107") iff 0.3 <= p < 0.6. ("Bajo", "success", "#198754") iff p < 0.3. |
| `Risk.RiskTierMonotone` | fascitis-app/app.py:119-124 | A higher probability never gets a lower tier. |
| `Risk.RiskTierBoundaries` | fascitis-app/app.py:119-124 | 0.6 is High and 0.599999 is Intermediate. 0.3 is Intermediate and 0.29999 is Low. |
| `Risk.Assess` | fascitis-app/app.py:170-173 | The factor comes from the AI when it is active and from the keywords otherwise. For a base in `[0, 1]` the final probability is in `[0, 1]`. Without the AI it lies in `[base, base + 0.3]`, and equals base when no keyword is found. With the AI active and its factor absent, it equals base. The label is `RiskLabel` of the final probability. |

## Left out

- The Flask route `index` (fascitis-app/app.py:126-197) is HTTP and template plumbing. It covers form reading, `float()` parsing, `flash`, `redirect` and rendering. Only its order of calls (`Risk.Assess`) and its non-negativity guard (`Valid()`) are modelled.
- `ai_text_factor` (fascitis-app/app.py:91-110) is a network call to an external model. Its outcome is the parameter `aiFactor` of `Risk.Assess`, either absent or a value in `[0, 1]`, which is what its final `clamp` and its exception handler guarantee.
- Loading the environment, the secret key and the optional `openai` import (fascitis-app/app.py:1-15, 199-200) is process configuration. Whether the AI is active is the parameter `aiActive`.
- `sigmoid` and `math.exp` (fascitis-app/app.py:21-23) are transcendental floating-point functions. They are a parameter, and only `IsSquashing` is assumed of them.
- Demo.DemoProbability: states only what follows from `IsSquashing`, because the logistic function itself is not modelled. The same holds for `Lrinec.LrinecProbability` and `Lrinec.ProbabilityMatchesLevel`.
- `round(final_prob * 100, 1)` (fascitis-app/app.py:174) and the echo of the inputs are display formatting.
- TextSignal.Lower: follows `str.lower()` only for the ASCII capitals and the Latin-1 capitals À to Þ. Characters of other scripts are left unchanged, and so are the capitals whose lower-case form has more than one character.
- Non-finite floats are not modelled. `float()` (fascitis-app/app.py:139-141, 151-156) accepts "nan" and "inf". The guard `min(...) < 0` (lines 142, 157) does not reject NaN, and a leading NaN lets negative values after it through. In the source a NaN lab normalises to 0 through `clamp` and scores no LRINEC point. The model's `real` inputs are finite, and there `Valid()` and the guard agree.
- Floating-point rounding is not modelled. All arithmetic is exact on `real`, so `0.4 + 0.35 + 0.25` is exactly 1 and the boundaries 0.3, 0.6 and 13.5 are exact.
