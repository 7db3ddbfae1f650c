# CathShield risk and deprivation rules, modelled in Dafny

CathShield monitors patients with central venous lines. Its decision logic is
three small deterministic computations, modelled here:

- **Clinical risk engine** (`risk_engine.dfy`, module `RiskEngine`). One
  observation snapshot holds days on catheter, a dressing integrity score with
  a recent-change flag, yellow and red traction pulls over the last 12 hours,
  ten patient-factor flags and four safety-checklist flags. From it the engine
  computes four domain sub-scores: A (dressing), B (traction), C (systemic
  factors) and D (dwell time). It combines them into a CLISA score and a
  predictive CLABSI score, with a one-point discount when the whole checklist
  passed. It derives the CLABSI band, the venous-resistance band, the
  recommended action and the action colour. `ShouldTriggerAlert` decides
  whether the bands call for an alert. The engine's own function reassigns
  local scores step by step, so it is modelled as the method
  `CalculateRiskScore`, split into one helper method per domain block. The
  method is proved equal to `Assessment`, a function built from one reference
  function per part (`DomainA` … `ActionColorOf`). The lemmas are stated
  about those functions.
- **Resource-deprivation engine** (`resource_deprivation.dfy`, module
  `ResourceDeprivation`). A ward's count of patients needing supplies, and its
  available dressings and catheters, give a dressing and a catheter
  deprivation rate. Their mean is the combined rate, which gets a four-way
  severity band (safe, shortage, major shortage, critical) and an alert flag.
  It is pure, so it is modelled as functions. Rates are exact `real`s. The
  returned rates are rounded to two decimals; the band and the alert use the
  unrounded mean.
- **Ward CLABSI-rate derivation** (`ward_analytics.dfy`, module
  `WardAnalytics`). Each stored ward row gets a CLABSI rate per 1000
  central-line days. Over the rows, which storage returns date-descending, the
  service computes the percent reduction from the oldest row's rate to the
  latest row's rate. `DerivedRate` is the rate stored with a new row.
- **Rounding** (`rounding.dfy`, module `Rounding`). `Round2` is
  `Math.round(x * 100) / 100`: Math.round breaks ties toward +∞, so it is
  `Floor(100x + 1/2) / 100`. `ToFixed2` is the value of `x.toFixed(2)`: the
  magnitude is rounded half up and the sign restored. The two agree on
  non-negative values.

Input types: every count (days, pulls, patients, dressings, catheters, CLABSI
cases) is a `nat`. Non-negative integer counts are the engines' documented
input domain; the request handlers pass the JSON body on without checking it,
so this is a restriction of the model, not a guarantee of the callers (see
"## Left out" for what it hides). The integrity score is an `int`, because
the engine neither checks nor clamps it; facts that need it in [0, 4] say so
with `ValidDressing`. Line days are an `int`, so the `> 0` guard is modelled
exactly as written.

### Where the code and its documented ranges differ

- The code comments give the predictive CLABSI score a range of 0-10, but
  A + B + C + D reaches 4 + 3 + 3 + 1 = 11. The discount only applies when
  every checklist item is true, so with a failed checklist the score is 11
  (`PredictiveScoreReaches11`). The model follows the code. The score is
  proved to lie in [0, 11], and in [0, 10] when the checklist passed. Bands
  and actions are unaffected, because 10 and 11 both fall in the top tier.
- The per-row CLABSI rate read back by the trend query is rounded by
  `toFixed(2)` before the percent reduction compares rates. The reduction is
  rounded again. The reduction is also 0 when there are fewer than two rows,
  not only when the oldest rate is 0. The model follows the code.
- Band and alert come from the unrounded combined rate. A stored record can
  therefore show a combined rate of 10.00 beside the band `shortage`
  (`StoredRateCanDisagreeWithBand`). A real but tiny shortfall can also be
  stored as a 0.00 rate (`TinyShortageRoundsToZero`).

## Model

| member | source | states |
|---|---|---|
| Rounding.Round2 | cathshield/src/lib/resourceDeprivation.ts:47-49 | the rounded value has two decimals and lies in (x − 0.005, x + 0.005] |
| Rounding.ToFixed2 | cathshield/src/app/api/ward-analytics/route.ts:28-43 | toFixed(2) gives a value with two decimals, within 0.005 of its argument; on non-negative values it equals Round2 (ties up), on negative values the bound is [−0.005, 0.005) (ties away from zero), which fixes the value; a positive or negative result keeps the sign of its argument |
| Rounding.Round2Idempotent | cathshield/src/lib/resourceDeprivation.ts:47-49 | rounding an already rounded rate changes nothing |
| Rounding.Round2Monotone | cathshield/src/lib/resourceDeprivation.ts:47-49 | rounding preserves the order of two rates |
| Rounding.Round2Percent | cathshield/src/lib/resourceDeprivation.ts:47-49 | a percentage in [0, 100] stays in [0, 100] after rounding |
| Rounding.ToFixed2Monotone | cathshield/src/app/api/ward-analytics/route.ts:41 | toFixed(2) preserves the order of two values, negative ones included |
| Rounding.ToFixed2AtMost100 | cathshield/src/app/api/ward-analytics/route.ts:41 | a value at most 100 is at most 100 after toFixed(2) |
| RiskEngine.CountTrue | cathshield/src/lib/riskEngine.ts:33 | filter(Boolean).length is at most the length; it equals the length iff every value is true (every(Boolean)), and is 0 iff none is |
| RiskEngine.CountTrueIsMultiplicity | cathshield/src/lib/riskEngine.ts:33 | filter(Boolean).length is exactly the number of true entries of the values |
| RiskEngine.CountTrueMonotone | cathshield/src/lib/riskEngine.ts:33 | turning flags on never lowers the count |
| RiskEngine.RiskFactorCount | cathshield/src/lib/riskEngine.ts:33 | the count of true patient factors (its exact value by CountTrueIsMultiplicity) is at most 10; FactorValues is its `Object.values(patientFactors)`, the ten factors in declaration order |
| RiskEngine.ChecklistPassed | cathshield/src/lib/riskEngine.ts:39 | the checklist passes iff all four items are true, iff the true-count is 4; ChecklistValues is its `Object.values(safetyChecklist)` in declaration order and AllTrue its `every(Boolean)` |
| RiskEngine.DomainA | cathshield/src/lib/riskEngine.ts:19-22 | A is the integrity score after a recent change; otherwise the score plus 1, capped at 4; for a score in [0, 4], A is in [0, 4] |
| RiskEngine.DomainB | cathshield/src/lib/riskEngine.ts:25-29 | B is in [0, 3]; any red pull makes it exactly 3; without red pulls it is at most 2 |
| RiskEngine.DomainC | cathshield/src/lib/riskEngine.ts:32-36 | C is in [0, 3]; it is 0 iff fewer than 3 factors, 1 iff 3 or 4, 2 iff 5 or 6, and 3 iff at least 7 |
| RiskEngine.DomainD | cathshield/src/lib/riskEngine.ts:42-43 | D is 0 or 1, and 1 iff the catheter has been in more than 9 days |
| RiskEngine.ClisaScore | cathshield/src/lib/riskEngine.ts:46 | the CLISA score A + B is in [0, 7] for a valid integrity score |
| RiskEngine.RawClabsiScore | cathshield/src/lib/riskEngine.ts:47 | A + B + C + D is the CLISA score plus C and D, in [0, 11] |
| RiskEngine.PredictiveClabsiScore | cathshield/src/lib/riskEngine.ts:47-51 | without a passed checklist the score is the raw sum; with it, one less, floored at 0; range [0, 11], and [0, 10] with the discount |
| RiskEngine.VenousResistanceScore | cathshield/src/lib/riskEngine.ts:57 | the venous score is B, plus 1 iff more than 7 days on catheter; it is in [0, 4] |
| RiskEngine.Assessment | cathshield/src/lib/riskEngine.ts:78-87 | the CLISA score is ClisaScore and the predictive score is PredictiveClabsiScore; the venous band is the band of the venous score; the CLABSI band, the action and its colour are functions of the predictive score |
| RiskEngine.ScoreDressing | cathshield/src/lib/riskEngine.ts:19-22 | the step-by-step domain A block computes DomainA |
| RiskEngine.ScoreTraction | cathshield/src/lib/riskEngine.ts:25-29 | the accumulate-then-override domain B block computes DomainB |
| RiskEngine.ScoreSystemicFactors | cathshield/src/lib/riskEngine.ts:32-36 | the overwriting threshold block computes DomainC of the factor count |
| RiskEngine.CalculateRiskScore | cathshield/src/lib/riskEngine.ts:17-88 | the engine's result is Assessment(input), with CLISA in [0, 7] and predictive score in [0, 11] for a valid integrity score; band, action and colour follow the predictive score |
| RiskEngine.ShouldTriggerAlert | cathshield/src/lib/riskEngine.ts:103-109 | no alert iff both bands are green and there is no traction cluster |
| RiskEngine.RedPullOverridesYellow | cathshield/src/lib/riskEngine.ts:28 | a red pull forces B to 3 whatever the yellow count, never lowering it |
| RiskEngine.YellowPullSteps | cathshield/src/lib/riskEngine.ts:26-27 | without red pulls B is 0 below 2 yellow pulls, 1 from 2 to 4, 2 from 5 |
| RiskEngine.SingleFalseItemNoDiscount | cathshield/src/lib/riskEngine.ts:49-51 | one false checklist item means no discount |
| RiskEngine.PredictiveScoreReaches11 | cathshield/src/lib/riskEngine.ts:47-51 | a valid snapshot with a failed checklist reaches a predictive score of 11 |
| RiskEngine.ClabsiBand | cathshield/src/lib/riskEngine.ts:54 | the CLABSI band is green iff the score ≤ 3, yellow iff 3 < score ≤ 6, red iff > 6 |
| RiskEngine.VenousResistanceBand | cathshield/src/lib/riskEngine.ts:58 | the venous band is green iff the score ≤ 1, yellow iff it is 2, red iff > 2 |
| RiskEngine.RecommendedAction | cathshield/src/lib/riskEngine.ts:60-76 | the action is the routine flush iff the score ≤ 3, flush Q12h + inform iff 3 < score ≤ 6, flush Q8h + ultrasound iff 6 < score ≤ 9, stop infusions iff > 9 |
| RiskEngine.ActionColorOf | cathshield/src/lib/riskEngine.ts:60-76 | the colour is green iff the score ≤ 3, yellow iff 3 < score ≤ 6, orange iff 6 < score ≤ 9, red iff > 9 |
| RiskEngine.DwellThresholdsDiffer | cathshield/src/lib/riskEngine.ts:43-57 | on days 8 and 9 the venous score gets its day point while D is still 0 |
| RiskEngine.TiersMonotone | cathshield/src/lib/riskEngine.ts:54-76 | a higher score never gives a lower CLABSI band, venous band or action tier |
| RiskEngine.ActionColorMatchesBand | cathshield/src/lib/riskEngine.ts:64-76 | action colour green iff CLABSI band green, yellow iff yellow, orange or red iff red |
| RiskEngine.ActionTextMatchesColor | cathshield/src/lib/riskEngine.ts:64-76 | the four tiers have the protocol's four distinct texts, so text and colour determine each other |
| RiskEngine.ActionIgnoresVenousBand | cathshield/src/lib/riskEngine.ts:57-76 | snapshots with equal predictive scores get the same action, colour and CLABSI band, whatever their venous bands |
| RiskEngine.PredictiveScoreMonotone | cathshield/src/lib/riskEngine.ts:19-51 | a snapshot at least as risky in every input never gets a lower score, band or action tier |
| RiskEngine.AlertOnAssessment | cathshield/src/lib/riskEngine.ts:103-109 | on an assessment, the alert fires iff predictive score > 3, venous score > 1 or a traction cluster; every non-routine action implies an alert |
| RiskEngine.ExampleDay10 | cathshield/src/lib/riskEngine.ts:17-88 | day 10, integrity 2 unchanged, 2 yellow pulls, 4 factors, failed checklist: A 3, B 1, C 1, D 1, score 6, yellow, "Flush Q12h + Inform Medical Officer" |
| ResourceDeprivation.DeprivationRate | cathshield/src/lib/resourceDeprivation.ts:14-21 | each rate is in [0, 100]; it is 0 iff supply meets the need (so with no patients nothing is divided); otherwise rate · P = (P − available) · 100 |
| ResourceDeprivation.OneShort | cathshield/src/lib/resourceDeprivation.ts:14-16 | one item short of P gives 100 / P |
| ResourceDeprivation.CombinedRate | cathshield/src/lib/resourceDeprivation.ts:24 | the combined rate is the midpoint of the two rates, so lies between them |
| ResourceDeprivation.CalculateResourceDeprivation | cathshield/src/lib/resourceDeprivation.ts:10-54 | the inputs are passed through; returned rates have two decimals and lie in [0, 100]; a rate is 0 when supply meets need; the alert is set iff the band is major shortage or critical |
| ResourceDeprivation.BandOf | cathshield/src/lib/resourceDeprivation.ts:26-36 | every combined rate has exactly one band: safe iff ≤ 10, shortage iff in (10, 30], major shortage iff in (30, 60], critical iff > 60 |
| ResourceDeprivation.BandMonotone | cathshield/src/lib/resourceDeprivation.ts:27-36 | a larger combined rate never gets a milder band |
| ResourceDeprivation.AlertOf | cathshield/src/lib/resourceDeprivation.ts:38-39 | the alert (combined > 30) holds iff the band of the same rate is major shortage or critical |
| ResourceDeprivation.BandBoundaries | cathshield/src/lib/resourceDeprivation.ts:27-39 | 10 is safe and 10.01 shortage; 30 shortage and 30.01 major; 60 major and 60.01 critical; 30 raises no alert and 30.01 does |
| ResourceDeprivation.ResultFromExactRates | cathshield/src/lib/resourceDeprivation.ts:39-49 | returned rates are within 0.005 of the exact ones; band and alert come from the exact mean |
| ResourceDeprivation.StoredRateCanDisagreeWithBand | cathshield/src/lib/resourceDeprivation.ts:27-49 | P 4999, D 3999, C 4999 stores combined 10.00 with band shortage |
| ResourceDeprivation.TinyShortageRoundsToZero | cathshield/src/lib/resourceDeprivation.ts:47-48 | one dressing short for 30000 patients is a positive rate stored as 0.00 |
| ResourceDeprivation.ExampleEightPatients | cathshield/src/lib/mockData.ts:117-127 | P 8, D 5, C 8 gives 37.5, 0, 18.75, shortage, no alert |
| ResourceDeprivation.ExampleFivePatients | cathshield/src/app/analytics/page.tsx:31-35 | P 5, D 4, C 5 gives 20, 0, 10, safe, no alert |
| ResourceDeprivation.DeprivationBandColor | cathshield/src/lib/resourceDeprivation.ts:56-64 | the colour is "medical-green" iff the band is safe, "medical-yellow" iff shortage, "medical-orange" iff major shortage, "medical-red" iff critical |
| ResourceDeprivation.BandColorInjective | cathshield/src/lib/resourceDeprivation.ts:56-64 | the band-colour map sends distinct bands to distinct "medical-" colours |
| WardAnalytics.DerivedRate | cathshield/src/app/api/ward-analytics/route.ts:65-67 | the stored rate is 0 without line days, else rate · lineDays = cases · 1000; it is never negative |
| WardAnalytics.RowRate | cathshield/src/app/api/ward-analytics/route.ts:30-32 | a row's rate is non-negative, and 0 without line days |
| WardAnalytics.RowRateIsRoundedDerivedRate | cathshield/src/app/api/ward-analytics/route.ts:30-32 | the rate read back is the stored derivedRate rounded to two decimals |
| WardAnalytics.ClabsiRates | cathshield/src/app/api/ward-analytics/route.ts:28-33 | the map gives one rate per row, in row order |
| WardAnalytics.FirstIsLatest | cathshield/src/app/api/ward-analytics/route.ts:21-23 | in date-descending rows the first row has the latest date |
| WardAnalytics.LastIsOldest | cathshield/src/app/api/ward-analytics/route.ts:21-23 | in date-descending rows the last row has the oldest date |
| WardAnalytics.ReductionSpansDateRange | cathshield/src/app/api/ward-analytics/route.ts:21-40 | in date-descending rows every date lies between that of the last row (the oldest rate of the reduction) and that of the first (the latest rate) |
| WardAnalytics.ComputeWardTrend | cathshield/src/app/api/ward-analytics/route.ts:28-51 | data is the per-row rates and totalDays the row count; the reduction is 0 below two rows or without a positive oldest rate, else (oldest − latest)/oldest·100 rounded; it is at most 100, positive only if latest < oldest, negative only if latest > oldest |
| WardAnalytics.ReductionFacts | cathshield/src/app/api/ward-analytics/route.ts:41 | for a positive oldest rate the exact reduction is at most 100 and positive iff latest < oldest, negative iff latest > oldest |
| WardAnalytics.SmallDropRoundsToZero | cathshield/src/app/api/ward-analytics/route.ts:41 | a drop from 100000 to 99999.99 rounds to a 0 reduction |
| WardAnalytics.ExampleDemoWard | cathshield/src/lib/mockData.ts:82-115 | the demo rows give rates 0, 20, 20.83, 44.44 and a reduction of 100 |

## Left out

- `analyzeDressingImage`: a placeholder that returns a random score. The integrity score is an input.
- `patientId: ''` and `computedAt` of the risk result, and `id` and `computedAt` of the deprivation result: the id comes from the clock, and all are attached by callers. They are not fields of the model's results.
- Database access and HTTP handling: the ward-analytics query, its `days` date window and the response wrapping. The model starts from the rows the query returns.
- Floating point: the model uses exact reals. JavaScript doubles can misround ties such as x.xx5, and `toFixed` returns a string, so `clabsiRate` and `percentReduction` travel as strings. The model keeps their numeric values.
- `Object.values` on objects that are not exactly the declared boolean fields: the model takes exactly the ten declared patient factors and the four checklist items, all booleans. Extra keys, missing keys and truthy non-boolean values change the count and the `every` test; for instance, an empty checklist object passes `every(Boolean)` and gets the discount.
- Negative or fractional counts: the request handlers do not reject them, but the model's counts are `nat`. What this hides: a negative availability gives a deprivation rate above 100; with no patients in need and a negative availability the rate divides by zero (an infinite value in JavaScript); a negative yellow or red pull count simply falls below every threshold; fractional counts fall between the integer thresholds.
- ResourceDeprivation.CalculateResourceDeprivation: "rate 0" is stated only when supply meets the need. The converse holds for the exact rates (`DeprivationRate`), but a tiny positive shortfall rounds to 0.00 (`TinyShortageRoundsToZero`).
- WardAnalytics.ComputeWardTrend: "reduction positive iff latest < oldest" holds only before rounding (`ReductionFacts`). After rounding, a positive reduction implies latest < oldest, but not conversely (`SmallDropRoundsToZero`).
