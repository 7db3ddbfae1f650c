/** The clinical risk engine: one observation snapshot of a central-line patient
    is mapped to four domain sub-scores (A dressing, B traction, C systemic
    factors, D dwell time), a CLISA score, a predictive CLABSI score with a
    safety-checklist discount, two green/yellow/red bands and a four-tier
    recommended nursing action.

    The functions below are the reference definitions of each part; the method
    CalculateRiskScore computes the assessment the way the engine does, by
    reassigning local scores step by step, and is proved against them.
 */
module RiskEngine {

  /** The ten systemic risk indicators of a patient. */
  datatype PatientFactors = PatientFactors(
    agitation: bool,
    extremeAge: bool,
    obesity: bool,
    diabetes: bool,
    ckd: bool,
    cancer: bool,
    dialysis: bool,
    tpn: bool,
    immunosuppression: bool,
    malnutrition: bool)

  /** The four procedural-compliance items checked at the bedside. */
  datatype SafetyChecklist = SafetyChecklist(
    capsClosed: bool,
    glovesWorn: bool,
    noAbnormalities: bool,
    dressingIntact: bool)

  /** integrityScore is produced by image analysis and lies in [0, 4] when valid. */
  datatype Dressing = Dressing(integrityScore: int, recentChange: bool)

  datatype Traction = Traction(yellowPullsLast12h: nat, redPullsLast12h: nat)

  datatype RiskEngineInput = RiskEngineInput(
    daysOnCatheter: nat,
    dressing: Dressing,
    traction: Traction,
    patientFactors: PatientFactors,
    safetyChecklist: SafetyChecklist)

  datatype Band = Green | Yellow | Red

  datatype ActionColor = Green | Yellow | Orange | Red

  datatype RiskScore = RiskScore(
    clisaScore: int,
    predictiveClabsiScore: int,
    predictiveClabsiBand: Band,
    predictiveVenousResistanceBand: Band,
    recommendedAction: string,
    actionColor: ActionColor)

  const RoutineFlush := "Routine flush Q24h"
  const FlushInform := "Flush Q12h + Inform Medical Officer"
  const FlushUltrasound := "Flush Q8h + Urgent Ultrasound"
  const StopInfusions := "Stop infusions + Emergency Medical Officer"

  function Min(a: int, b: int): int { if a <= b then a else b }

  function Max(a: int, b: int): int { if a >= b then a else b }

  /** The integrity score is in the range image analysis promises. */
  predicate ValidDressing(d: Dressing) {
    0 <= d.integrityScore <= 4
  }

  // ---------------------------------------------------------------------------
  // Object.values(...) and the two array reductions the engine applies to it

  /** Object.values(patientFactors), in declaration order. */
  function FactorValues(pf: PatientFactors): (s: seq<bool>)
    ensures |s| == 10
  {
    [pf.agitation, pf.extremeAge, pf.obesity, pf.diabetes, pf.ckd,
     pf.cancer, pf.dialysis, pf.tpn, pf.immunosuppression, pf.malnutrition]
  }

  /** Object.values(safetyChecklist), in declaration order. */
  function ChecklistValues(sc: SafetyChecklist): (s: seq<bool>)
    ensures |s| == 4
  {
    [sc.capsClosed, sc.glovesWorn, sc.noAbnormalities, sc.dressingIntact]
  }

  /** values.every(Boolean) */
  predicate AllTrue(s: seq<bool>) {
    forall i :: 0 <= i < |s| ==> s[i]
  }

  /** values.filter(Boolean).length */
  function CountTrue(s: seq<bool>): (n: nat)
    ensures n <= |s|
    ensures n == |s| <==> AllTrue(s)
    ensures n == 0 <==> forall i :: 0 <= i < |s| ==> !s[i]
  {
    if s == [] then 0
    else
      assert forall i :: 0 <= i < |s| - 1 ==> s[1..][i] == s[i + 1];
      (if s[0] then 1 else 0) + CountTrue(s[1..])
  }

  /** The count is the number of occurrences of true in the values. */
  lemma {:induction false} CountTrueIsMultiplicity(s: seq<bool>)
    ensures CountTrue(s) == multiset(s)[true]
  {
    if s != [] {
      assert s == [s[0]] + s[1..];
      CountTrueIsMultiplicity(s[1..]);
    }
  }

  /** Pointwise more true flags never means a smaller count. */
  lemma {:induction false} CountTrueMonotone(s: seq<bool>, t: seq<bool>)
    requires |s| == |t|
    requires forall i :: 0 <= i < |s| ==> s[i] ==> t[i]
    ensures CountTrue(s) <= CountTrue(t)
  {
    if s != [] {
      CountTrueMonotone(s[1..], t[1..]);
    }
  }

  /** The number of true patient factors. */
  function RiskFactorCount(pf: PatientFactors): (n: nat)
    ensures n <= 10
  {
    CountTrue(FactorValues(pf))
  }

  /** The discount applies only when every checklist item is true. */
  function ChecklistPassed(sc: SafetyChecklist): (passed: bool)
    ensures passed <==> sc.capsClosed && sc.glovesWorn && sc.noAbnormalities && sc.dressingIntact
    ensures passed <==> CountTrue(ChecklistValues(sc)) == 4
  {
    var v := ChecklistValues(sc);
    assert v[0] == sc.capsClosed && v[1] == sc.glovesWorn;
    assert v[2] == sc.noAbnormalities && v[3] == sc.dressingIntact;
    AllTrue(v)
  }

  // ---------------------------------------------------------------------------
  // The four domains

  /** Domain A: the integrity score, plus a penalty of 1 (capped at 4) when the
      dressing was not recently changed. */
  function DomainA(d: Dressing): (a: int)
    ensures d.recentChange ==> a == d.integrityScore
    ensures !d.recentChange && d.integrityScore < 4 ==> a == d.integrityScore + 1
    ensures !d.recentChange && d.integrityScore >= 4 ==> a == 4
    ensures ValidDressing(d) ==> 0 <= a <= 4
  {
    if d.recentChange then d.integrityScore else Min(4, d.integrityScore + 1)
  }

  /** Domain B: red pulls dominate; otherwise yellow pulls step at 2 and 5. */
  function DomainB(t: Traction): (b: int)
    ensures 0 <= b <= 3
    ensures t.redPullsLast12h >= 1 ==> b == 3
    ensures t.redPullsLast12h == 0 ==> b <= 2
  {
    if t.redPullsLast12h >= 1 then 3
    else if t.yellowPullsLast12h >= 5 then 2
    else if t.yellowPullsLast12h >= 2 then 1
    else 0
  }

  /** Domain C: a step function of the number of true patient factors. */
  function DomainC(riskFactorCount: nat): (c: int)
    ensures 0 <= c <= 3
    ensures c == 0 <==> riskFactorCount < 3
    ensures c == 1 <==> 3 <= riskFactorCount < 5
    ensures c == 2 <==> 5 <= riskFactorCount < 7
    ensures c == 3 <==> riskFactorCount >= 7
  {
    if riskFactorCount >= 7 then 3
    else if riskFactorCount >= 5 then 2
    else if riskFactorCount >= 3 then 1
    else 0
  }

  /** Domain D: the dwell-time penalty after day 9. */
  function DomainD(daysOnCatheter: nat): (d: int)
    ensures d == 0 || d == 1
    ensures d == 1 <==> daysOnCatheter > 9
  {
    if daysOnCatheter > 9 then 1 else 0
  }

  // ---------------------------------------------------------------------------
  // Composite scores and bands

  function ClisaScore(input: RiskEngineInput): (s: int)
    ensures ValidDressing(input.dressing) ==> 0 <= s <= 7
  {
    DomainA(input.dressing) + DomainB(input.traction)
  }

  /** A + B + C + D before the checklist discount. */
  function RawClabsiScore(input: RiskEngineInput): (s: int)
    ensures ValidDressing(input.dressing) ==> 0 <= s <= 11
    ensures s == ClisaScore(input) + DomainC(RiskFactorCount(input.patientFactors)) + DomainD(input.daysOnCatheter)
  {
    DomainA(input.dressing) + DomainB(input.traction)
      + DomainC(RiskFactorCount(input.patientFactors)) + DomainD(input.daysOnCatheter)
  }

  /** The raw score, discounted by one (floored at 0) iff the checklist passed.
      Without the discount the score reaches 11 (see PredictiveScoreReaches11). */
  function PredictiveClabsiScore(input: RiskEngineInput): (s: int)
    ensures ValidDressing(input.dressing) ==> 0 <= s <= 11
    ensures ValidDressing(input.dressing) && ChecklistPassed(input.safetyChecklist) ==> s <= 10
    ensures !ChecklistPassed(input.safetyChecklist) ==> s == RawClabsiScore(input)
    ensures ChecklistPassed(input.safetyChecklist) && RawClabsiScore(input) >= 1 ==> s == RawClabsiScore(input) - 1
    ensures ChecklistPassed(input.safetyChecklist) && RawClabsiScore(input) <= 0 ==> s == 0
  {
    var raw := RawClabsiScore(input);
    if ChecklistPassed(input.safetyChecklist) then Max(0, raw - 1) else raw
  }

  /** The CLABSI band tiers, with inclusive upper bounds 3 and 6. */
  function ClabsiBand(score: int): (b: Band)
    ensures b == Band.Green <==> score <= 3
    ensures b == Band.Yellow <==> 3 < score <= 6
    ensures b == Band.Red <==> score > 6
  {
    if score <= 3 then Band.Green else if score <= 6 then Band.Yellow else Band.Red
  }

  function VenousResistanceScore(input: RiskEngineInput): (s: int)
    ensures DomainB(input.traction) <= s <= DomainB(input.traction) + 1
    ensures 0 <= s <= 4
    ensures s == DomainB(input.traction) + 1 <==> input.daysOnCatheter > 7
  {
    DomainB(input.traction) + (if input.daysOnCatheter > 7 then 1 else 0)
  }

  /** The venous-resistance band tiers, with inclusive upper bounds 1 and 2. */
  function VenousResistanceBand(score: int): (b: Band)
    ensures b == Band.Green <==> score <= 1
    ensures b == Band.Yellow <==> score == 2
    ensures b == Band.Red <==> score > 2
  {
    if score <= 1 then Band.Green else if score <= 2 then Band.Yellow else Band.Red
  }

  /** The recommended action of the CVL-RCRI protocol: four tiers of the
      predictive CLABSI score. */
  function RecommendedAction(score: int): (action: string)
    ensures action == RoutineFlush <==> score <= 3
    ensures action == FlushInform <==> 3 < score <= 6
    ensures action == FlushUltrasound <==> 6 < score <= 9
    ensures action == StopInfusions <==> score > 9
  {
    assert RoutineFlush[0] != FlushInform[0] && RoutineFlush[0] != FlushUltrasound[0];
    assert RoutineFlush[0] != StopInfusions[0] && FlushInform[0] != StopInfusions[0];
    assert FlushInform[7] != FlushUltrasound[7] && FlushUltrasound[0] != StopInfusions[0];
    if score <= 3 then RoutineFlush
    else if score <= 6 then FlushInform
    else if score <= 9 then FlushUltrasound
    else StopInfusions
  }

  /** The colour of the action tier: the same four tiers of the predictive score. */
  function ActionColorOf(score: int): (c: ActionColor)
    ensures c == ActionColor.Green <==> score <= 3
    ensures c == ActionColor.Yellow <==> 3 < score <= 6
    ensures c == ActionColor.Orange <==> 6 < score <= 9
    ensures c == ActionColor.Red <==> score > 9
  {
    if score <= 3 then ActionColor.Green
    else if score <= 6 then ActionColor.Yellow
    else if score <= 9 then ActionColor.Orange
    else ActionColor.Red
  }

  /** The whole assessment, part by part. */
  function Assessment(input: RiskEngineInput): (r: RiskScore)
    ensures r.clisaScore == ClisaScore(input)
    ensures r.predictiveClabsiScore == PredictiveClabsiScore(input)
    ensures r.predictiveVenousResistanceBand == VenousResistanceBand(VenousResistanceScore(input))
    ensures r.predictiveClabsiBand == ClabsiBand(r.predictiveClabsiScore)
    ensures r.recommendedAction == RecommendedAction(r.predictiveClabsiScore)
    ensures r.actionColor == ActionColorOf(r.predictiveClabsiScore)
  {
    var p := PredictiveClabsiScore(input);
    RiskScore(
      ClisaScore(input),
      p,
      ClabsiBand(p),
      VenousResistanceBand(VenousResistanceScore(input)),
      RecommendedAction(p),
      ActionColorOf(p))
  }

  /** Domain A block of calculateRiskScore. */
  method ScoreDressing(d: Dressing) returns (domainA: int)
    ensures domainA == DomainA(d)
  {
    domainA := d.integrityScore;
    if !d.recentChange {
      domainA := Min(4, domainA + 1);
    }
  }

  /** Domain B block of calculateRiskScore: accumulate yellow pulls, then let a
      red pull override the total. */
  method ScoreTraction(t: Traction) returns (domainB: int)
    ensures domainB == DomainB(t)
  {
    domainB := 0;
    if t.yellowPullsLast12h >= 2 { domainB := domainB + 1; }
    if t.yellowPullsLast12h >= 5 { domainB := domainB + 1; }
    if t.redPullsLast12h >= 1 { domainB := 3; }
    domainB := Min(3, domainB);
  }

  /** Domain C block of calculateRiskScore: later thresholds overwrite earlier ones. */
  method ScoreSystemicFactors(pf: PatientFactors) returns (domainC: int)
    ensures domainC == DomainC(RiskFactorCount(pf))
  {
    domainC := 0;
    var riskFactorCount := CountTrue(FactorValues(pf));
    if riskFactorCount >= 3 { domainC := 1; }
    if riskFactorCount >= 5 { domainC := 2; }
    if riskFactorCount >= 7 { domainC := 3; }
  }

  /** calculateRiskScore, step by step as the engine computes it. */
  method CalculateRiskScore(input: RiskEngineInput) returns (r: RiskScore)
    ensures r == Assessment(input)
    ensures ValidDressing(input.dressing) ==> 0 <= r.clisaScore <= 7 && 0 <= r.predictiveClabsiScore <= 11
    ensures r.predictiveClabsiBand == ClabsiBand(r.predictiveClabsiScore)
    ensures r.recommendedAction == RecommendedAction(r.predictiveClabsiScore)
    ensures r.actionColor == ActionColorOf(r.predictiveClabsiScore)
  {
    var domainA := ScoreDressing(input.dressing);
    var domainB := ScoreTraction(input.traction);
    var domainC := ScoreSystemicFactors(input.patientFactors);
    var checklistPassed := AllTrue(ChecklistValues(input.safetyChecklist));

    // Domain D
    var domainD := 0;
    if input.daysOnCatheter > 9 { domainD := 1; }

    var clisaScore := domainA + domainB;
    var predictiveClabsiScore := domainA + domainB + domainC + domainD;
    if checklistPassed {
      predictiveClabsiScore := Max(0, predictiveClabsiScore - 1);
    }
    assert predictiveClabsiScore == PredictiveClabsiScore(input);

    var predictiveClabsiBand :=
      if predictiveClabsiScore <= 3 then Band.Green
      else if predictiveClabsiScore <= 6 then Band.Yellow
      else Band.Red;

    var venousResistanceScore := domainB + (if input.daysOnCatheter > 7 then 1 else 0);
    var venousBand :=
      if venousResistanceScore <= 1 then Band.Green
      else if venousResistanceScore <= 2 then Band.Yellow
      else Band.Red;

    var recommendedAction := "";
    var actionColor := ActionColor.Green;
    if predictiveClabsiScore <= 3 {
      recommendedAction := RoutineFlush;
      actionColor := ActionColor.Green;
    } else if predictiveClabsiScore <= 6 {
      recommendedAction := FlushInform;
      actionColor := ActionColor.Yellow;
    } else if predictiveClabsiScore <= 9 {
      recommendedAction := FlushUltrasound;
      actionColor := ActionColor.Orange;
    } else {
      recommendedAction := StopInfusions;
      actionColor := ActionColor.Red;
    }

    r := RiskScore(clisaScore, predictiveClabsiScore, predictiveClabsiBand, venousBand,
                   recommendedAction, actionColor);
  }

  /** shouldTriggerAlert */
  function ShouldTriggerAlert(clabsiBand: Band, venousResistanceBand: Band, tractionCluster: bool): (alert: bool)
    ensures !alert <==> clabsiBand == Band.Green && venousResistanceBand == Band.Green && !tractionCluster
  {
    clabsiBand != Band.Green || venousResistanceBand != Band.Green || tractionCluster
  }

  // ---------------------------------------------------------------------------
  // Properties of the engine

  /** A red pull forces domain B to exactly 3 and never lowers it, whatever the
      yellow count. */
  lemma RedPullOverridesYellow(t: Traction)
    requires t.redPullsLast12h >= 1
    ensures DomainB(t) == 3
    ensures DomainB(t) >= DomainB(t.(redPullsLast12h := 0))
  {
  }

  /** Without red pulls, domain B steps at 2 and 5 yellow pulls. */
  lemma YellowPullSteps(t: Traction)
    requires t.redPullsLast12h == 0
    ensures t.yellowPullsLast12h < 2 ==> DomainB(t) == 0
    ensures 2 <= t.yellowPullsLast12h < 5 ==> DomainB(t) == 1
    ensures t.yellowPullsLast12h >= 5 ==> DomainB(t) == 2
  {
  }

  /** One false checklist item is enough to lose the discount. */
  lemma SingleFalseItemNoDiscount(input: RiskEngineInput)
    requires !input.safetyChecklist.capsClosed || !input.safetyChecklist.glovesWorn
          || !input.safetyChecklist.noAbnormalities || !input.safetyChecklist.dressingIntact
    ensures PredictiveClabsiScore(input) == RawClabsiScore(input)
  {
  }

  /** The documented range [0, 10] of the predictive score holds only with the
      checklist discount: every domain at its maximum and a failed checklist
      gives 11. */
  lemma PredictiveScoreReaches11()
    ensures var input := RiskEngineInput(10, Dressing(4, false), Traction(0, 1),
                                         PatientFactors(true, true, true, true, true, true, true, false, false, false),
                                         SafetyChecklist(false, true, true, true));
            ValidDressing(input.dressing) && PredictiveClabsiScore(input) == 11
  {
    var pf := PatientFactors(true, true, true, true, true, true, true, false, false, false);
    assert FactorValues(pf) == [true, true, true, true, true, true, true, false, false, false];
    assert CountTrue(FactorValues(pf)) == 7;
  }

  function BandRank(b: Band): nat {
    match b
    case Green => 0
    case Yellow => 1
    case Red => 2
  }

  function ColorRank(c: ActionColor): nat {
    match c
    case Green => 0
    case Yellow => 1
    case Orange => 2
    case Red => 3
  }

  /** Days 8 and 9 already raise the venous-resistance score but not domain D:
      the two dwell-time thresholds differ (7 and 9). */
  lemma DwellThresholdsDiffer(input: RiskEngineInput)
    requires 8 <= input.daysOnCatheter <= 9
    ensures VenousResistanceScore(input) == DomainB(input.traction) + 1
    ensures DomainD(input.daysOnCatheter) == 0
  {
  }

  /** A higher score never gives a lower band or a lower action tier. */
  lemma TiersMonotone(s: int, t: int)
    requires s <= t
    ensures BandRank(ClabsiBand(s)) <= BandRank(ClabsiBand(t))
    ensures BandRank(VenousResistanceBand(s)) <= BandRank(VenousResistanceBand(t))
    ensures ColorRank(ActionColorOf(s)) <= ColorRank(ActionColorOf(t))
  {
  }

  /** The action colour agrees with the CLABSI band: green with green, yellow
      with yellow, and orange or red exactly when the band is red. */
  lemma ActionColorMatchesBand(score: int)
    ensures ActionColorOf(score) == ActionColor.Green <==> ClabsiBand(score) == Band.Green
    ensures ActionColorOf(score) == ActionColor.Yellow <==> ClabsiBand(score) == Band.Yellow
    ensures ActionColorOf(score) in {ActionColor.Orange, ActionColor.Red} <==> ClabsiBand(score) == Band.Red
  {
  }

  /** Each of the four tiers has its own action text, so the text and the colour
      determine each other; the text of each tier is the protocol's. */
  lemma ActionTextMatchesColor(s: int, t: int)
    ensures RecommendedAction(s) == RecommendedAction(t) <==> ActionColorOf(s) == ActionColorOf(t)
    ensures ActionColorOf(s) == ActionColor.Green ==> RecommendedAction(s) == "Routine flush Q24h"
    ensures ActionColorOf(s) == ActionColor.Yellow ==> RecommendedAction(s) == "Flush Q12h + Inform Medical Officer"
    ensures ActionColorOf(s) == ActionColor.Orange ==> RecommendedAction(s) == "Flush Q8h + Urgent Ultrasound"
    ensures ActionColorOf(s) == ActionColor.Red ==> RecommendedAction(s) == "Stop infusions + Emergency Medical Officer"
  {
    assert RoutineFlush[0] != FlushInform[0];
    assert RoutineFlush[0] != FlushUltrasound[0];
    assert RoutineFlush[0] != StopInfusions[0];
    assert FlushInform[7] != FlushUltrasound[7];
    assert FlushInform[0] != StopInfusions[0];
    assert FlushUltrasound[0] != StopInfusions[0];
  }

  /** The venous-resistance band plays no part in the action: two snapshots
      with the same predictive score get the same action and colour, whatever
      their venous-resistance bands. */
  lemma ActionIgnoresVenousBand(i1: RiskEngineInput, i2: RiskEngineInput)
    requires PredictiveClabsiScore(i1) == PredictiveClabsiScore(i2)
    ensures Assessment(i1).recommendedAction == Assessment(i2).recommendedAction
    ensures Assessment(i1).actionColor == Assessment(i2).actionColor
    ensures Assessment(i1).predictiveClabsiBand == Assessment(i2).predictiveClabsiBand
  {
  }

  /** hi is at least as risky as lo in every input. */
  predicate AtLeastAsRisky(lo: RiskEngineInput, hi: RiskEngineInput) {
    && lo.daysOnCatheter <= hi.daysOnCatheter
    && lo.dressing.integrityScore <= hi.dressing.integrityScore
    && (hi.dressing.recentChange ==> lo.dressing.recentChange)
    && lo.traction.yellowPullsLast12h <= hi.traction.yellowPullsLast12h
    && lo.traction.redPullsLast12h <= hi.traction.redPullsLast12h
    && (forall i :: 0 <= i < 10 ==> FactorValues(lo.patientFactors)[i] ==> FactorValues(hi.patientFactors)[i])
    && (ChecklistPassed(hi.safetyChecklist) ==> ChecklistPassed(lo.safetyChecklist))
  }

  /** More risk in any input never lowers the predictive score, and so never
      lowers the band or the action tier. */
  lemma PredictiveScoreMonotone(lo: RiskEngineInput, hi: RiskEngineInput)
    requires ValidDressing(lo.dressing) && ValidDressing(hi.dressing)
    requires AtLeastAsRisky(lo, hi)
    ensures PredictiveClabsiScore(lo) <= PredictiveClabsiScore(hi)
    ensures BandRank(Assessment(lo).predictiveClabsiBand) <= BandRank(Assessment(hi).predictiveClabsiBand)
    ensures ColorRank(Assessment(lo).actionColor) <= ColorRank(Assessment(hi).actionColor)
  {
    RawScoreMonotone(lo, hi);
    var p, q := PredictiveClabsiScore(lo), PredictiveClabsiScore(hi);
    assert p <= q;
    TiersMonotone(p, q);
  }

  /** Each domain, and so the raw sum, never decreases with more risk. */
  lemma RawScoreMonotone(lo: RiskEngineInput, hi: RiskEngineInput)
    requires ValidDressing(lo.dressing) && ValidDressing(hi.dressing)
    requires AtLeastAsRisky(lo, hi)
    ensures RawClabsiScore(lo) <= RawClabsiScore(hi)
  {
    FactorCountMonotone(lo.patientFactors, hi.patientFactors);
    DressingMonotone(lo.dressing, hi.dressing);
    assert DomainB(lo.traction) <= DomainB(hi.traction);
  }

  /** More true factors never lower domain C. */
  lemma FactorCountMonotone(lo: PatientFactors, hi: PatientFactors)
    requires forall i :: 0 <= i < 10 ==> FactorValues(lo)[i] ==> FactorValues(hi)[i]
    ensures DomainC(RiskFactorCount(lo)) <= DomainC(RiskFactorCount(hi))
  {
    CountTrueMonotone(FactorValues(lo), FactorValues(hi));
  }

  /** A higher integrity score, or losing the recent change, never lowers domain A. */
  lemma DressingMonotone(lo: Dressing, hi: Dressing)
    requires ValidDressing(lo) && ValidDressing(hi)
    requires lo.integrityScore <= hi.integrityScore && (hi.recentChange ==> lo.recentChange)
    ensures DomainA(lo) <= DomainA(hi)
  {
  }

  /** The alert fires exactly when the predictive score is above 3, the
      venous-resistance score is above 1, or a traction cluster was seen; so
      every action other than the routine flush comes with an alert. */
  lemma AlertOnAssessment(input: RiskEngineInput, tractionCluster: bool)
    ensures var a := Assessment(input);
            ShouldTriggerAlert(a.predictiveClabsiBand, a.predictiveVenousResistanceBand, tractionCluster)
            <==> PredictiveClabsiScore(input) > 3 || VenousResistanceScore(input) > 1 || tractionCluster
    ensures Assessment(input).actionColor != ActionColor.Green ==>
            ShouldTriggerAlert(Assessment(input).predictiveClabsiBand,
                               Assessment(input).predictiveVenousResistanceBand, tractionCluster)
  {
  }

  /** Worked example: day 10, integrity 2 without a recent change, two yellow
      pulls, four risk factors and an incomplete checklist. */
  lemma ExampleDay10()
    ensures var input := RiskEngineInput(10, Dressing(2, false), Traction(2, 0),
                                         PatientFactors(true, false, false, true, true, false, false, true, false, false),
                                         SafetyChecklist(true, true, false, true));
            var a := Assessment(input);
            && DomainA(input.dressing) == 3 && DomainB(input.traction) == 1
            && DomainC(RiskFactorCount(input.patientFactors)) == 1 && DomainD(input.daysOnCatheter) == 1
            && a.clisaScore == 4 && a.predictiveClabsiScore == 6
            && a.predictiveClabsiBand == Band.Yellow
            && a.predictiveVenousResistanceBand == Band.Yellow
            && a.recommendedAction == "Flush Q12h + Inform Medical Officer"
            && a.actionColor == ActionColor.Yellow
  {
    var pf := PatientFactors(true, false, false, true, true, false, false, true, false, false);
    assert FactorValues(pf) == [true, false, false, true, true, false, false, true, false, false];
    assert CountTrue(FactorValues(pf)) == 4;
  }
}
