/** The healthcare risk-scoring engine: Probability of Default (PD), Loss
    Given Default (LGD), expected loss, the approve/review/decline decision,
    risk-adjusted pricing, the recommended term and amount, and the scores
    that feed them (behaviour, provider performance, internal payment
    history, affordability, procedure necessity, medical-aid tier).

    Every operation is a total function of its inputs. Values the service
    reads from its tables or from simulated data sources arrive as
    parameters; the two upserted snapshot rows (health score, affordability)
    are returned values. A JavaScript property that may be `undefined` and
    is then replaced by a destructuring default is an `Option`. */
module HealthcareRisk {
  import opened Common

  // ---------------------------------------------------------------------
  // Model weights (the service's PD_WEIGHTS and LGD_WEIGHTS)
  // ---------------------------------------------------------------------

  const PD_WEIGHT_HEALTH: real := 0.25
  const PD_WEIGHT_PROCEDURE: real := 0.20
  const PD_WEIGHT_AFFORDABILITY: real := 0.25
  const PD_WEIGHT_PROVIDER: real := 0.15
  const PD_WEIGHT_BEHAVIORAL: real := 0.15

  /** The linear calibration applied to the weighted PD sum. */
  const PD_CALIBRATION: real := 0.15
  const PD_FLOOR: real := 0.005
  const PD_CAP: real := 0.15

  const LGD_WEIGHT_MEDICAL_AID: real := 0.30
  const LGD_WEIGHT_FAMILY: real := 0.20
  const LGD_WEIGHT_PROCEDURE: real := 0.25
  const LGD_WEIGHT_PROVIDER: real := 0.25
  const LGD_FLOOR: real := 0.20
  const LGD_CAP: real := 0.70

  // ---------------------------------------------------------------------
  // Bands
  // ---------------------------------------------------------------------

  datatype Band = VeryLow | Low | Medium | High | VeryHigh

  /** getPDBand */
  function PdBand(pd: real): (b: Band)
    ensures b == VeryLow <==> pd <= 0.02
    ensures b == Low <==> 0.02 < pd <= 0.05
    ensures b == Medium <==> 0.05 < pd <= 0.10
    ensures b == High <==> 0.10 < pd <= 0.20
    ensures b == VeryHigh <==> pd > 0.20
  {
    if pd <= 0.02 then VeryLow
    else if pd <= 0.05 then Low
    else if pd <= 0.10 then Medium
    else if pd <= 0.20 then High
    else VeryHigh
  }

  /** getLGDBand */
  function LgdBand(lgd: real): (b: Band)
    ensures b == VeryLow <==> lgd <= 0.20
    ensures b == Low <==> 0.20 < lgd <= 0.35
    ensures b == Medium <==> 0.35 < lgd <= 0.50
    ensures b == High <==> 0.50 < lgd <= 0.70
    ensures b == VeryHigh <==> lgd > 0.70
  {
    if lgd <= 0.20 then VeryLow
    else if lgd <= 0.35 then Low
    else if lgd <= 0.50 then Medium
    else if lgd <= 0.70 then High
    else VeryHigh
  }

  datatype HealthBand = Excellent | Good | Fair | Poor

  /** getHealthScoreBand: cut at 80, 60 and 40, each bound inclusive. */
  function HealthScoreBand(score: real): (b: HealthBand)
    ensures b == Excellent <==> score >= 80.0
    ensures b == Good <==> 60.0 <= score < 80.0
    ensures b == Fair <==> 40.0 <= score < 60.0
    ensures b == Poor <==> score < 40.0
  {
    if score >= 80.0 then Excellent
    else if score >= 60.0 then Good
    else if score >= 40.0 then Fair
    else Poor
  }

  function HealthBandRank(b: HealthBand): nat {
    match b
    case Poor => 0
    case Fair => 1
    case Good => 2
    case Excellent => 3
  }

  /** A higher health payment score never lands in a worse band. */
  lemma HealthScoreBandMonotone(s1: real, s2: real)
    requires s1 <= s2
    ensures HealthBandRank(HealthScoreBand(s1)) <= HealthBandRank(HealthScoreBand(s2))
  {
  }

  // ---------------------------------------------------------------------
  // Health payment score
  // ---------------------------------------------------------------------

  /** The five sub-scores of a patient health score; 0 stands for a missing
      value, which `|| 50` replaces. */
  datatype HealthComponents = HealthComponents(
    medicalAid: real,
    medicationAdherence: real,
    providerPayment: real,
    procedureOutcome: real,
    healthcareUtilization: real)

  predicate InPercentRange(x: real) {
    0.0 <= x <= 100.0
  }

  /** calculateHealthPaymentScore: a rounded blend whose weights sum to one,
      so sub-scores on the 0–100 scale give a composite on that scale. */
  function HealthPaymentScore(c: HealthComponents): (r: int)
    ensures InPercentRange(c.medicalAid) && InPercentRange(c.medicationAdherence)
         && InPercentRange(c.providerPayment) && InPercentRange(c.procedureOutcome)
         && InPercentRange(c.healthcareUtilization)
         ==> 0 <= r <= 100
  {
    var score :=
      OrElse(c.medicalAid, 50.0) * 0.25 +
      OrElse(c.medicationAdherence, 50.0) * 0.15 +
      OrElse(c.providerPayment, 50.0) * 0.30 +
      OrElse(c.procedureOutcome, 50.0) * 0.15 +
      OrElse(c.healthcareUtilization, 50.0) * 0.15;
    JsRound(score)
  }

  // ---------------------------------------------------------------------
  // Internal payment history
  // ---------------------------------------------------------------------

  /** The aggregate the service reads from its payments table. */
  datatype PaymentStats = PaymentStats(totalPayments: nat, paidOnTime: nat, avgDaysEarlyLate: real)

  datatype PaymentHistory = PaymentHistory(paymentScore: real, isNew: bool)

  /** getInternalPaymentHistory: 50 for a customer with no payments, else
      50 + 40·(paid ratio) − 2·min(avg days late, 10) + 10 for more than
      three payments, rounded and kept within 0–100. */
  function InternalPaymentHistory(stats: PaymentStats): (h: PaymentHistory)
    ensures 0.0 <= h.paymentScore <= 100.0
    ensures h.isNew <==> stats.totalPayments == 0
    ensures h.isNew ==> h.paymentScore == 50.0
  {
    if stats.totalPayments == 0 then PaymentHistory(50.0, true)
    else
      var paidRatio := stats.paidOnTime as real / stats.totalPayments as real;
      var score := 50.0 + paidRatio * 40.0
                   - Min(stats.avgDaysEarlyLate, 10.0) * 2.0
                   + (if stats.totalPayments > 3 then 10.0 else 0.0);
      PaymentHistory(Clamp(JsRound(score) as real, 0.0, 100.0), false)
  }

  /** Paying more instalments on time, with the same history otherwise,
      never lowers the internal payment score. */
  lemma InternalPaymentMonotone(total: nat, paid1: nat, paid2: nat, avgLate: real)
    requires total > 0 && paid1 <= paid2
    ensures InternalPaymentHistory(PaymentStats(total, paid1, avgLate)).paymentScore
         <= InternalPaymentHistory(PaymentStats(total, paid2, avgLate)).paymentScore
  {
    var t := total as real;
    assert paid1 as real / t <= paid2 as real / t by {
      DivMonotone(paid1 as real, paid2 as real, t);
    }
    var bonus := if total > 3 then 10.0 else 0.0;
    var late := Min(avgLate, 10.0) * 2.0;
    var s1 := 50.0 + paid1 as real / t * 40.0 - late + bonus;
    var s2 := 50.0 + paid2 as real / t * 40.0 - late + bonus;
    JsRoundMonotone(s1, s2);
    ClampMonotone(JsRound(s1) as real, JsRound(s2) as real, 0.0, 100.0);
  }

  lemma DivMonotone(a: real, b: real, d: real)
    requires d > 0.0 && a <= b
    ensures a / d <= b / d
  {
    assert b / d - a / d == (b - a) / d;
  }

  // ---------------------------------------------------------------------
  // Procedure risk profile and necessity
  // ---------------------------------------------------------------------

  /** The columns of a procedure_risk_weights row that the engine reads. */
  datatype ProcedureRow = ProcedureRow(
    basePdRisk: real,
    baseLgdRisk: real,
    emergencyFactor: real,
    icd10Category: string)

  const ESSENTIAL_CATEGORIES: seq<string> := ["oncology", "cardiovascular", "obstetrics"]

  predicate IsEssentialCategory(category: string) {
    exists i :: 0 <= i < |ESSENTIAL_CATEGORIES| && Contains(ToLower(category), ESSENTIAL_CATEGORIES[i])
  }

  /** calculateNecessityScore: 0.5, plus 0.2 for an emergency factor above 1,
      plus 0.15 for an essential ICD-10 category, capped at 1. */
  function NecessityScore(row: ProcedureRow): (r: real)
    ensures 0.5 <= r <= 0.85
    ensures r == 0.5 + (if row.emergencyFactor > 1.0 then 0.2 else 0.0)
                     + (if row.icd10Category != "" && IsEssentialCategory(row.icd10Category) then 0.15 else 0.0)
  {
    var score := 0.5;
    var score := if row.emergencyFactor > 1.0 then score + 0.2 else score;
    var lower := ToLower(row.icd10Category);
    var essential := row.icd10Category != "" &&
      (Contains(lower, "oncology") || Contains(lower, "cardiovascular") || Contains(lower, "obstetrics"));
    assert essential <==> row.icd10Category != "" && IsEssentialCategory(row.icd10Category) by {
      assert ESSENTIAL_CATEGORIES[0] == "oncology";
      assert ESSENTIAL_CATEGORIES[1] == "cardiovascular";
      assert ESSENTIAL_CATEGORIES[2] == "obstetrics";
    }
    var score := if essential then score + 0.15 else score;
    Min(1.0, score)
  }

  datatype ProcedureRisk = ProcedureRisk(basePdRisk: real, baseLgdRisk: real, necessityScore: real)

  /** getProcedureRiskProfile, given the row its lookups found (if any):
      an unknown procedure gets the neutral profile 50/50/0.6. */
  function ProcedureRiskProfile(row: Option<ProcedureRow>): (p: ProcedureRisk)
    ensures row.None? ==> p == ProcedureRisk(50.0, 50.0, 0.6)
    ensures row.Some? ==> p.basePdRisk == row.value.basePdRisk && p.baseLgdRisk == row.value.baseLgdRisk
    ensures 0.5 <= p.necessityScore <= 0.85
  {
    match row
    case None => ProcedureRisk(50.0, 50.0, 0.6)
    case Some(r) => ProcedureRisk(r.basePdRisk, r.baseLgdRisk, NecessityScore(r))
  }

  // ---------------------------------------------------------------------
  // Provider performance
  // ---------------------------------------------------------------------

  /** The provider row and its plan counts, as the service's join returns them. */
  datatype ProviderRow = ProviderRow(
    networkPartner: bool,
    partnershipTier: string,
    completedPlans: nat,
    defaultedPlans: nat)

  datatype ProviderPerformance = ProviderPerformance(
    performanceScore: real,
    isNetworkPartner: bool,
    defaultRate: real)

  function TierBonus(tier: string): (r: real)
    ensures 0.0 <= r <= 10.0
  {
    if tier == "platinum" then 10.0
    else if tier == "gold" then 7.0
    else if tier == "silver" then 4.0
    else 0.0
  }

  /** Defaulted plans over all plans, or 0.05 for a provider with none. */
  function ProviderDefaultRate(completed: nat, defaulted: nat): (r: real)
    ensures 0.0 <= r <= 1.0
  {
    if completed + defaulted > 0 then
      var total := (completed + defaulted) as real;
      assert defaulted as real <= total;
      DivMonotone(defaulted as real, total, total);
      defaulted as real / total
    else 0.05
  }

  /** getProviderPerformance: an empty provider id or an unknown provider
      gives the neutral 50; otherwise 50, +15 (+tier bonus) for a network
      partner, +15/+10/−15 by default-rate bucket, +10/+5 by volume, kept
      within 0–100. */
  function ProviderPerformanceOf(providerId: string, row: Option<ProviderRow>): (p: ProviderPerformance)
    ensures 0.0 <= p.performanceScore <= 100.0
    ensures providerId == "" || row.None? ==> p == ProviderPerformance(50.0, false, 0.05)
    ensures p.isNetworkPartner ==> providerId != "" && row.Some? && row.value.networkPartner
    ensures 0.0 <= p.defaultRate <= 1.0
  {
    if providerId == "" || row.None? then ProviderPerformance(50.0, false, 0.05)
    else
      var data := row.value;
      var totalPlans := data.completedPlans + data.defaultedPlans;
      var defaultRate := ProviderDefaultRate(data.completedPlans, data.defaultedPlans);
      var score := 50.0;
      var score := if data.networkPartner then score + 15.0 + TierBonus(data.partnershipTier) else score;
      var score := if defaultRate < 0.02 then score + 15.0
                   else if defaultRate < 0.05 then score + 10.0
                   else if defaultRate > 0.10 then score - 15.0
                   else score;
      var score := if totalPlans > 50 then score + 10.0
                   else if totalPlans > 20 then score + 5.0
                   else score;
      ProviderPerformance(Clamp(score, 0.0, 100.0), data.networkPartner, defaultRate)
  }

  /** The adjustments can never push the provider score out of 0–100: the
      clamp only restates what the arithmetic already guarantees, and the
      score is at least 35. */
  lemma ProviderScoreFloor(providerId: string, row: Option<ProviderRow>)
    ensures ProviderPerformanceOf(providerId, row).performanceScore >= 35.0
  {
  }

  // ---------------------------------------------------------------------
  // Behavioural signals
  // ---------------------------------------------------------------------

  /** The application-behaviour snapshot; a missing field takes the
      destructuring default (180 s, hour 12, desktop, consistent, 2 edits). */
  datatype Behavior = Behavior(
    completionTimeSeconds: Option<real>,
    applicationHour: Option<real>,
    deviceType: Option<string>,
    locationConsistent: Option<bool>,
    formEditsCount: Option<real>)

  const NO_BEHAVIOR: Behavior := Behavior(None, None, None, None, None)

  function GetOr<T>(o: Option<T>, d: T): T {
    match o
    case Some(v) => v
    case None => d
  }

  function CompletionAdjustment(seconds: real): (r: real)
    ensures -15.0 <= r <= 10.0
  {
    if seconds < 60.0 then -15.0
    else if seconds > 600.0 then -10.0
    else if 120.0 <= seconds <= 300.0 then 10.0
    else 0.0
  }

  function HourAdjustment(hour: real): (r: real)
    ensures -10.0 <= r <= 5.0
  {
    if 9.0 <= hour <= 17.0 then 5.0
    else if 0.0 <= hour <= 5.0 then -10.0
    else 0.0
  }

  function EditsAdjustment(edits: real): (r: real)
    ensures -10.0 <= r <= 5.0
  {
    if 1.0 <= edits <= 4.0 then 5.0
    else if edits > 10.0 then -10.0
    else 0.0
  }

  /** analyzeBehavioralSignals: base 60 with the completion-time, hour,
      device, location and form-edit adjustments, kept within 0–100. */
  function AnalyzeBehavioralSignals(b: Behavior): (r: real)
    ensures 0.0 <= r <= 100.0
    ensures 15.0 <= r <= 90.0
  {
    var score := 60.0
      + CompletionAdjustment(GetOr(b.completionTimeSeconds, 180.0))
      + HourAdjustment(GetOr(b.applicationHour, 12.0))
      + (if GetOr(b.deviceType, "desktop") == "mobile" then 5.0 else 0.0)
      + (if GetOr(b.locationConsistent, true) then 5.0 else -10.0)
      + EditsAdjustment(GetOr(b.formEditsCount, 2.0));
    Clamp(score, 0.0, 100.0)
  }

  /** An application with no behaviour data scores 85: 60, +10 for the
      default 180 s, +5 for hour 12, +5 for a consistent location, +5 for
      two edits. */
  lemma NoBehaviorScore()
    ensures AnalyzeBehavioralSignals(NO_BEHAVIOR) == 85.0
  {
  }

  /** Submitting from a mobile device never lowers the behavioural score. */
  lemma MobileNeverLowers(b: Behavior)
    ensures AnalyzeBehavioralSignals(b.(deviceType := Some("desktop")))
         <= AnalyzeBehavioralSignals(b.(deviceType := Some("mobile")))
  {
  }

  // ---------------------------------------------------------------------
  // Affordability
  // ---------------------------------------------------------------------

  datatype AffordabilityBand = HighAffordability | MediumAffordability | LowAffordability | Insufficient

  /** The healthcare_affordability snapshot row that the service upserts and returns. */
  datatype Affordability = Affordability(
    healthcareDti: real,
    disposableIncome: real,
    healthcareCapacity: real,
    band: AffordabilityBand,
    score: real,
    maxMonthlyPayment: real,
    maxLoanAmount: real)

  /** calculateHealthcareAffordability (without its upsert). */
  function HealthcareAffordability(monthlyIncome: real, existingDebt: real, loanAmount: real, medicalAidPremium: real): (a: Affordability)
    ensures monthlyIncome <= 0.0 ==> a.healthcareDti == 1.0
    ensures monthlyIncome > 0.0 ==> a.healthcareDti * monthlyIncome == existingDebt + medicalAidPremium
    ensures a.disposableIncome == monthlyIncome - existingDebt - medicalAidPremium
    ensures a.healthcareCapacity >= 0.0
    ensures a.healthcareCapacity == Max(0.0, a.disposableIncome * 0.30)
    ensures a.maxMonthlyPayment == a.healthcareCapacity
    ensures a.maxLoanAmount == a.healthcareCapacity * 3.0 * 0.85 && a.maxLoanAmount >= 0.0
    ensures a.band == HighAffordability <==> loanAmount / 3.0 <= a.healthcareCapacity * 0.5
    ensures a.band == MediumAffordability <==> a.healthcareCapacity * 0.5 < loanAmount / 3.0 <= a.healthcareCapacity * 0.75
    ensures a.band == LowAffordability <==> a.healthcareCapacity * 0.75 < loanAmount / 3.0 <= a.healthcareCapacity
    ensures a.band == Insufficient <==> loanAmount / 3.0 > a.healthcareCapacity
    ensures a.score == AffordabilityScore(a.band)
  {
    var dti := if monthlyIncome > 0.0 then (existingDebt + medicalAidPremium) / monthlyIncome else 1.0;
    var disposable := monthlyIncome - existingDebt - medicalAidPremium;
    var capacity := Max(0.0, disposable * 0.30);
    var requested := loanAmount / 3.0;
    var band :=
      if requested <= capacity * 0.5 then HighAffordability
      else if requested <= capacity * 0.75 then MediumAffordability
      else if requested <= capacity then LowAffordability
      else Insufficient;
    Affordability(dti, disposable, capacity, band, AffordabilityScore(band), capacity, capacity * 3.0 * 0.85)
  }

  function AffordabilityScore(band: AffordabilityBand): (s: real)
    ensures 20.0 <= s <= 85.0
  {
    match band
    case HighAffordability => 85.0
    case MediumAffordability => 65.0
    case LowAffordability => 45.0
    case Insufficient => 20.0
  }

  /** Asking for more, with the same finances, never raises the affordability score. */
  lemma AffordabilityMonotoneInLoan(income: real, debt: real, premium: real, loan1: real, loan2: real)
    requires loan1 <= loan2
    ensures HealthcareAffordability(income, debt, loan2, premium).score
         <= HealthcareAffordability(income, debt, loan1, premium).score
  {
  }

  /** Income 15000, debt 2000, no premium, loan 9000: the requested 3000 a
      month is above 75% of the 3900 capacity (2925) but within it, so the
      band is low. */
  lemma AffordabilityExample()
    ensures HealthcareAffordability(15000.0, 2000.0, 9000.0, 0.0).band == LowAffordability
    ensures HealthcareAffordability(15000.0, 2000.0, 9000.0, 0.0).healthcareCapacity == 3900.0
  {
  }

  // ---------------------------------------------------------------------
  // Medical aid
  // ---------------------------------------------------------------------

  /** estimateMedicalAidPremium: the first keyword of comprehensive, classic,
      essential, smart, basic found in the lower-cased option (an empty
      option reads as "essential"), else 2000. The scheme is not consulted. */
  function EstimateMedicalAidPremium(scheme: string, option: string): (p: real)
    ensures p in {4500.0, 3000.0, 2000.0, 1500.0, 1000.0}
    ensures option == "" ==> p == 2000.0
    ensures var lower := ToLower(if option == "" then "essential" else option);
            && (p == 4500.0 <==> Contains(lower, "comprehensive"))
            && (p == 3000.0 <==> !Contains(lower, "comprehensive") && Contains(lower, "classic"))
            && (p == 1500.0 <==> !Contains(lower, "comprehensive") && !Contains(lower, "classic")
                                 && !Contains(lower, "essential") && Contains(lower, "smart"))
            && (p == 1000.0 <==> !Contains(lower, "comprehensive") && !Contains(lower, "classic")
                                 && !Contains(lower, "essential") && !Contains(lower, "smart") && Contains(lower, "basic"))
            && (p == 2000.0 <==> !Contains(lower, "comprehensive") && !Contains(lower, "classic")
                                 && (Contains(lower, "essential") || (!Contains(lower, "smart") && !Contains(lower, "basic"))))
  {
    DefaultOptionReadsEssential();
    var lower := ToLower(if option == "" then "essential" else option);
    if Contains(lower, "comprehensive") then 4500.0
    else if Contains(lower, "classic") then 3000.0
    else if Contains(lower, "essential") then 2000.0
    else if Contains(lower, "smart") then 1500.0
    else if Contains(lower, "basic") then 1000.0
    else 2000.0
  }

  /** The default option "essential" is already lower-case and names neither
      of the two dearer plans. */
  lemma DefaultOptionReadsEssential()
    ensures ToLower("essential") == "essential"
    ensures !Contains("essential", "comprehensive") && !Contains("essential", "classic")
    ensures Contains("essential", "essential")
  {
    EssentialIsLowerCase();
    EssentialNamesNoDearerPlan();
    assert IsPrefix("essential", "essential");
  }

  lemma EssentialIsLowerCase()
    ensures ToLower("essential") == "essential"
  {
    var e := "essential";
    assert forall i :: 0 <= i < |e| ==> 'a' <= e[i] <= 't';
    ToLowerNoUpper(e);
  }

  lemma EssentialNamesNoDearerPlan()
    ensures !Contains("essential", "comprehensive") && !Contains("essential", "classic")
  {
    var e := "essential";
    assert forall i :: 0 <= i < |e| ==> e[i] != 'c';
    NotContainsFirstChar(e, "comprehensive");
    NotContainsFirstChar(e, "classic");
  }

  datatype MedicalAidTier = NoAid | Comprehensive | Classic | Essential | BasicTier

  /** getMedicalAidTier: no scheme gives NoAid; otherwise the option's
      keywords in priority order comprehensive/executive, classic/priority,
      essential/smart, falling back to basic. */
  function GetMedicalAidTier(scheme: string, option: string): (t: MedicalAidTier)
    ensures t == NoAid <==> scheme == ""
    ensures var lower := ToLower(option);
            var top := Contains(lower, "comprehensive") || Contains(lower, "executive");
            var mid := Contains(lower, "classic") || Contains(lower, "priority");
            var low := Contains(lower, "essential") || Contains(lower, "smart");
            && (t == Comprehensive <==> scheme != "" && top)
            && (t == Classic <==> scheme != "" && !top && mid)
            && (t == Essential <==> scheme != "" && !top && !mid && low)
            && (t == BasicTier <==> scheme != "" && !top && !mid && !low)
  {
    if scheme == "" then NoAid
    else
      var lower := ToLower(option);
      if Contains(lower, "comprehensive") || Contains(lower, "executive") then Comprehensive
      else if Contains(lower, "classic") || Contains(lower, "priority") then Classic
      else if Contains(lower, "essential") || Contains(lower, "smart") then Essential
      else BasicTier
  }

  lemma {:induction false} ToLowerIdempotent(s: string)
    ensures ToLower(ToLower(s)) == ToLower(s)
  {
    if s != [] {
      ToLowerIdempotent(s[1..]);
      assert ToLower(s)[1..] == ToLower(s[1..]);
    }
  }

  /** The tier does not depend on the case of the option's letters. */
  lemma MedicalAidTierIgnoresCase(scheme: string, option: string)
    ensures GetMedicalAidTier(scheme, ToLower(option)) == GetMedicalAidTier(scheme, option)
  {
    ToLowerIdempotent(option);
  }

  // ---------------------------------------------------------------------
  // PD
  // ---------------------------------------------------------------------

  /** The five inputs of calculatePD; a missing one defaults to 50. */
  datatype PdScores = PdScores(
    healthScore: Option<real>,
    procedureRisk: Option<real>,
    affordabilityScore: Option<real>,
    providerScore: Option<real>,
    behavioralScore: Option<real>)

  datatype PdComponents = PdComponents(health: real, procedure: real, affordability: real, provider: real, behavioral: real)

  datatype PdResult = PdResult(pdScore: real, pdBand: Band, components: PdComponents)

  /** The weighted components: every score except procedure risk is inverted,
      so that a higher value means a higher risk. */
  function PdWeightedComponents(s: PdScores): (c: PdComponents)
    ensures c.health == (100.0 - GetOr(s.healthScore, 50.0)) / 100.0 * PD_WEIGHT_HEALTH
    ensures c.procedure == GetOr(s.procedureRisk, 50.0) / 100.0 * PD_WEIGHT_PROCEDURE
    ensures c.affordability == (100.0 - GetOr(s.affordabilityScore, 50.0)) / 100.0 * PD_WEIGHT_AFFORDABILITY
    ensures c.provider == (100.0 - GetOr(s.providerScore, 50.0)) / 100.0 * PD_WEIGHT_PROVIDER
    ensures c.behavioral == (100.0 - GetOr(s.behavioralScore, 50.0)) / 100.0 * PD_WEIGHT_BEHAVIORAL
  {
    PdComponents(
      (100.0 - GetOr(s.healthScore, 50.0)) / 100.0 * PD_WEIGHT_HEALTH,
      GetOr(s.procedureRisk, 50.0) / 100.0 * PD_WEIGHT_PROCEDURE,
      (100.0 - GetOr(s.affordabilityScore, 50.0)) / 100.0 * PD_WEIGHT_AFFORDABILITY,
      (100.0 - GetOr(s.providerScore, 50.0)) / 100.0 * PD_WEIGHT_PROVIDER,
      (100.0 - GetOr(s.behavioralScore, 50.0)) / 100.0 * PD_WEIGHT_BEHAVIORAL)
  }

  function ComponentSum(c: PdComponents): real {
    c.health + c.procedure + c.affordability + c.provider + c.behavioral
  }

  /** The calibrated, clamped PD before rounding. */
  function PdUnrounded(s: PdScores): (pd: real)
    ensures PD_FLOOR <= pd <= PD_CAP
  {
    Clamp(ComponentSum(PdWeightedComponents(s)) * PD_CALIBRATION, PD_FLOOR, PD_CAP)
  }

  function RoundComponents(c: PdComponents): PdComponents {
    PdComponents(Round4(c.health), Round4(c.procedure), Round4(c.affordability), Round4(c.provider), Round4(c.behavioral))
  }

  /** calculatePD: the score is clamp(0.15 × Σ components, 0.005, 0.15) kept
      to four decimals, so it never leaves [0.005, 0.15]; its band is taken
      from the unrounded value and is therefore never the top band. */
  function CalculatePD(s: PdScores): (r: PdResult)
    ensures PD_FLOOR <= r.pdScore <= PD_CAP
    ensures PdUnrounded(s) - 1.0 / 20000.0 < r.pdScore <= PdUnrounded(s) + 1.0 / 20000.0
    ensures r.pdBand == PdBand(PdUnrounded(s)) && r.pdBand != VeryHigh
  {
    var c := PdWeightedComponents(s);
    var pd := PdUnrounded(s);
    Round4Within(pd, 50, 1500);
    PdResult(Round4(pd), PdBand(pd), RoundComponents(c))
  }

  /** Every score the caller leaves out behaves exactly as a score of 50. */
  lemma PdMissingIsFifty()
    ensures CalculatePD(PdScores(None, None, None, None, None))
         == CalculatePD(PdScores(Some(50.0), Some(50.0), Some(50.0), Some(50.0), Some(50.0)))
  {
  }

  /** `s2` is at least as good a credit as `s1` on every PD input: higher
      health, affordability, provider and behavioural scores, lower procedure risk. */
  predicate NoRiskier(s1: PdScores, s2: PdScores) {
    && GetOr(s2.healthScore, 50.0) >= GetOr(s1.healthScore, 50.0)
    && GetOr(s2.procedureRisk, 50.0) <= GetOr(s1.procedureRisk, 50.0)
    && GetOr(s2.affordabilityScore, 50.0) >= GetOr(s1.affordabilityScore, 50.0)
    && GetOr(s2.providerScore, 50.0) >= GetOr(s1.providerScore, 50.0)
    && GetOr(s2.behavioralScore, 50.0) >= GetOr(s1.behavioralScore, 50.0)
  }

  /** PD is monotone: a better score on any input never raises it. */
  lemma PdMonotone(s1: PdScores, s2: PdScores)
    requires NoRiskier(s1, s2)
    ensures CalculatePD(s2).pdScore <= CalculatePD(s1).pdScore
  {
    var sum1 := ComponentSum(PdWeightedComponents(s1));
    var sum2 := ComponentSum(PdWeightedComponents(s2));
    assert sum2 <= sum1;
    ClampMonotone(sum2 * PD_CALIBRATION, sum1 * PD_CALIBRATION, PD_FLOOR, PD_CAP);
    Round4Monotone(PdUnrounded(s2), PdUnrounded(s1));
  }

  lemma Round4Monotone(x: real, y: real)
    requires x <= y
    ensures Round4(x) <= Round4(y)
  {
    JsRoundMonotone(x * 10000.0, y * 10000.0);
  }

  // ---------------------------------------------------------------------
  // LGD
  // ---------------------------------------------------------------------

  /** The inputs of calculateLGD, each with its destructuring default:
      no medical aid, tier none, necessity 0.5, not a network partner,
      family support 0.5. */
  datatype LgdParams = LgdParams(
    hasMedicalAid: Option<bool>,
    medicalAidTier: Option<MedicalAidTier>,
    procedureNecessity: Option<real>,
    providerNetwork: Option<bool>,
    familySupportIndicator: Option<real>)

  datatype LgdComponents = LgdComponents(medicalAidRecovery: real, familySupport: real, procedureValue: real, providerRecovery: real)

  datatype LgdResult = LgdResult(lgdScore: real, lgdBand: Band, components: LgdComponents)

  /** The recovery risk by medical-aid cover: 0.8 with none, 0.2 comprehensive,
      0.35 classic, 0.5 for any other tier. */
  function MedicalAidRecoveryRisk(hasMedicalAid: bool, tier: MedicalAidTier): (r: real)
    ensures !hasMedicalAid ==> r == 0.8
    ensures hasMedicalAid ==> r == (if tier == Comprehensive then 0.2 else if tier == Classic then 0.35 else 0.5)
  {
    if !hasMedicalAid then 0.8
    else if tier == Comprehensive then 0.2
    else if tier == Classic then 0.35
    else 0.5
  }

  function ProviderRecoveryRisk(providerNetwork: bool): (r: real)
    ensures r == (if providerNetwork then 0.3 else 0.6)
  {
    if providerNetwork then 0.3 else 0.6
  }

  /** The weighted LGD sum before clamping. */
  function LgdRaw(p: LgdParams): real {
    var necessity := GetOr(p.procedureNecessity, 0.5);
    MedicalAidRecoveryRisk(GetOr(p.hasMedicalAid, false), GetOr(p.medicalAidTier, NoAid)) * LGD_WEIGHT_MEDICAL_AID
    + (1.0 - GetOr(p.familySupportIndicator, 0.5) * necessity) * LGD_WEIGHT_FAMILY
    + (1.0 - necessity) * LGD_WEIGHT_PROCEDURE
    + ProviderRecoveryRisk(GetOr(p.providerNetwork, false)) * LGD_WEIGHT_PROVIDER
  }

  function LgdUnrounded(p: LgdParams): (lgd: real)
    ensures LGD_FLOOR <= lgd <= LGD_CAP
  {
    Clamp(LgdRaw(p), LGD_FLOOR, LGD_CAP)
  }

  /** calculateLGD: the weighted blend clamped to [0.20, 0.70] and kept to
      four decimals; its band is never the top one. */
  function CalculateLGD(p: LgdParams): (r: LgdResult)
    ensures LGD_FLOOR <= r.lgdScore <= LGD_CAP
    ensures LgdUnrounded(p) - 1.0 / 20000.0 < r.lgdScore <= LgdUnrounded(p) + 1.0 / 20000.0
    ensures r.lgdBand == LgdBand(LgdUnrounded(p)) && r.lgdBand != VeryHigh
  {
    var necessity := GetOr(p.procedureNecessity, 0.5);
    var medicalAid := MedicalAidRecoveryRisk(GetOr(p.hasMedicalAid, false), GetOr(p.medicalAidTier, NoAid));
    var family := 1.0 - GetOr(p.familySupportIndicator, 0.5) * necessity;
    var procedure := 1.0 - necessity;
    var provider := ProviderRecoveryRisk(GetOr(p.providerNetwork, false));
    var lgd := LgdUnrounded(p);
    Round4Within(lgd, 2000, 7000);
    LgdResult(Round4(lgd), LgdBand(lgd),
      LgdComponents(
        Round4(medicalAid * LGD_WEIGHT_MEDICAL_AID),
        Round4(family * LGD_WEIGHT_FAMILY),
        Round4(procedure * LGD_WEIGHT_PROCEDURE),
        Round4(provider * LGD_WEIGHT_PROVIDER)))
  }

  /** A more necessary procedure never raises LGD (for a non-negative family
      support indicator): both the family term and the procedure term fall. */
  lemma LgdFallsWithNecessity(p: LgdParams, n1: real, n2: real)
    requires n1 <= n2
    requires GetOr(p.familySupportIndicator, 0.5) >= 0.0
    ensures CalculateLGD(p.(procedureNecessity := Some(n2))).lgdScore
         <= CalculateLGD(p.(procedureNecessity := Some(n1))).lgdScore
  {
    var f := GetOr(p.familySupportIndicator, 0.5);
    var p1 := p.(procedureNecessity := Some(n1));
    var p2 := p.(procedureNecessity := Some(n2));
    assert f * n1 <= f * n2 by {
      MulMonotone(f, n1, n2);
    }
    assert LgdRaw(p2) <= LgdRaw(p1);
    ClampMonotone(LgdRaw(p2), LgdRaw(p1), LGD_FLOOR, LGD_CAP);
    Round4Monotone(LgdUnrounded(p2), LgdUnrounded(p1));
  }

  lemma MulMonotone(f: real, a: real, b: real)
    requires f >= 0.0 && a <= b
    ensures f * a <= f * b
  {
    assert f * b - f * a == f * (b - a);
  }

  /** Recovery through a network partner never raises LGD. */
  lemma NetworkPartnerLowersLgd(p: LgdParams)
    ensures CalculateLGD(p.(providerNetwork := Some(true))).lgdScore
         <= CalculateLGD(p.(providerNetwork := Some(false))).lgdScore
  {
    var pt := p.(providerNetwork := Some(true));
    var pf := p.(providerNetwork := Some(false));
    assert LgdRaw(pt) <= LgdRaw(pf);
    ClampMonotone(LgdRaw(pt), LgdRaw(pf), LGD_FLOOR, LGD_CAP);
    Round4Monotone(LgdUnrounded(pt), LgdUnrounded(pf));
  }

  // ---------------------------------------------------------------------
  // Decision, pricing, term and amount
  // ---------------------------------------------------------------------

  datatype DecisionKind = Approve | Review | Decline

  datatype RiskDecision = RiskDecision(decision: DecisionKind, reason: string, confidence: real)

  /** makeRiskDecision: tiers on the expected-loss rate alone, each upper
      bound inclusive: ≤1% approve (0.95), ≤2.5% approve (0.85), ≤5% review
      (0.70), above that decline (0.90). */
  function MakeRiskDecision(pdScore: real, lgdScore: real, expectedLossRate: real): (d: RiskDecision)
    ensures d.decision == Approve <==> expectedLossRate <= 0.025
    ensures d.decision == Review <==> 0.025 < expectedLossRate <= 0.05
    ensures d.decision == Decline <==> expectedLossRate > 0.05
    ensures d.confidence == (if expectedLossRate <= 0.01 then 0.95
                             else if expectedLossRate <= 0.025 then 0.85
                             else if expectedLossRate <= 0.05 then 0.70
                             else 0.90)
  {
    if expectedLossRate <= 0.01 then RiskDecision(Approve, "Low expected loss rate", 0.95)
    else if expectedLossRate <= 0.025 then RiskDecision(Approve, "Acceptable expected loss within risk appetite", 0.85)
    else if expectedLossRate <= 0.05 then RiskDecision(Review, "Elevated risk - manual review recommended", 0.70)
    else RiskDecision(Decline, "Expected loss exceeds risk appetite", 0.90)
  }

  /** The decision does not look at PD or LGD themselves. */
  lemma DecisionOnlyOnLossRate(pd1: real, lgd1: real, pd2: real, lgd2: real, rate: real)
    ensures MakeRiskDecision(pd1, lgd1, rate) == MakeRiskDecision(pd2, lgd2, rate)
  {
  }

  function Severity(k: DecisionKind): nat {
    match k
    case Approve => 0
    case Review => 1
    case Decline => 2
  }

  /** A higher expected-loss rate never gets a more lenient decision. */
  lemma DecisionMonotone(pd: real, lgd: real, rate1: real, rate2: real)
    requires rate1 <= rate2
    ensures Severity(MakeRiskDecision(pd, lgd, rate1).decision) <= Severity(MakeRiskDecision(pd, lgd, rate2).decision)
  {
  }

  const RISK_FREE_RATE: real := 0.08
  const CAPITAL_CHARGE: real := 0.02
  const TARGET_RETURN: real := 0.03
  const MIN_RATE: real := 0.15
  const MAX_RATE: real := 0.28

  /** calculateRiskAdjustedPricing: 0.08 + 2·PD·LGD + 0.02 + 0.03, capped to
      the [15%, 28%] band. */
  function RiskAdjustedPricing(pdScore: real, lgdScore: real): (rate: real)
    ensures MIN_RATE <= rate <= MAX_RATE
    ensures rate == Clamp(RISK_FREE_RATE + pdScore * lgdScore * 2.0 + CAPITAL_CHARGE + TARGET_RETURN, MIN_RATE, MAX_RATE)
  {
    var expectedLoss := pdScore * lgdScore;
    var riskPremium := expectedLoss * 2.0;
    Clamp(RISK_FREE_RATE + riskPremium + CAPITAL_CHARGE + TARGET_RETURN, MIN_RATE, MAX_RATE)
  }

  /** Pricing is non-decreasing in the expected-loss rate PD·LGD. */
  lemma PricingMonotone(pd1: real, lgd1: real, pd2: real, lgd2: real)
    requires pd1 * lgd1 <= pd2 * lgd2
    ensures RiskAdjustedPricing(pd1, lgd1) <= RiskAdjustedPricing(pd2, lgd2)
  {
    ClampMonotone(RISK_FREE_RATE + pd1 * lgd1 * 2.0 + CAPITAL_CHARGE + TARGET_RETURN,
                  RISK_FREE_RATE + pd2 * lgd2 * 2.0 + CAPITAL_CHARGE + TARGET_RETURN, MIN_RATE, MAX_RATE);
  }

  /** getRecommendedTerm: 6 months only for PD ≤ 3% and more than 10000,
      4 months only for 3% < PD ≤ 5% and more than 15000, otherwise 3. */
  function RecommendedTerm(pdScore: real, loanAmount: real): (months: nat)
    ensures months in {3, 4, 6}
    ensures months == 6 <==> pdScore <= 0.03 && loanAmount > 10000.0
    ensures months == 4 <==> 0.03 < pdScore <= 0.05 && loanAmount > 15000.0
  {
    if pdScore <= 0.03 then (if loanAmount > 10000.0 then 6 else 3)
    else if pdScore <= 0.05 then (if loanAmount > 15000.0 then 4 else 3)
    else 3
  }

  /** The multiplier on the affordability maximum: 1.0 / 0.85 / 0.70 / 0.50
      for PD ≤ 3% / 5% / 8% / above. */
  function RiskMultiplier(pdScore: real): (m: real)
    ensures m in {1.0, 0.85, 0.70, 0.50}
    ensures m == 1.0 <==> pdScore <= 0.03
    ensures m == 0.85 <==> 0.03 < pdScore <= 0.05
    ensures m == 0.70 <==> 0.05 < pdScore <= 0.08
    ensures m == 0.50 <==> pdScore > 0.08
  {
    if pdScore <= 0.03 then 1.0
    else if pdScore <= 0.05 then 0.85
    else if pdScore <= 0.08 then 0.70
    else 0.50
  }

  /** calculateMaxApprovedAmount: the affordability maximum times the risk
      multiplier, rounded to whole rand. */
  function MaxApprovedAmount(affordabilityMax: real, pdScore: real): (amount: real)
    ensures affordabilityMax * RiskMultiplier(pdScore) - 0.5 < amount <= affordabilityMax * RiskMultiplier(pdScore) + 0.5
    ensures affordabilityMax >= 0.0 ==> amount >= 0.0
  {
    JsRound(affordabilityMax * RiskMultiplier(pdScore)) as real
  }

  /** A riskier borrower is never approved for more. */
  lemma MaxApprovedNonIncreasing(affordabilityMax: real, pd1: real, pd2: real)
    requires affordabilityMax >= 0.0 && pd1 <= pd2
    ensures MaxApprovedAmount(affordabilityMax, pd2) <= MaxApprovedAmount(affordabilityMax, pd1)
  {
    assert RiskMultiplier(pd2) <= RiskMultiplier(pd1);
    MulMonotone(affordabilityMax, RiskMultiplier(pd2), RiskMultiplier(pd1));
    JsRoundMonotone(affordabilityMax * RiskMultiplier(pd2), affordabilityMax * RiskMultiplier(pd1));
  }

  // ---------------------------------------------------------------------
  // Model confidence
  // ---------------------------------------------------------------------

  /** The columns of a patient_health_scores row the engine reads; a zero
      score is a missing one. */
  datatype HealthScoreRow = HealthScoreRow(
    healthPaymentScore: real,
    medicalAidScore: real,
    medicationAdherenceScore: real,
    providerPaymentScore: real,
    familySupportIndicator: real)

  /** calculateModelConfidence: 0.5, +0.1 and +0.1 for a medical-aid and an
      adherence score, +0.15 for a payment score, +0.15 for a known ICD-10
      code, capped at 0.95. */
  function ModelConfidence(health: HealthScoreRow, icd10Code: string): (c: real)
    ensures 0.5 <= c <= 0.95
    ensures icd10Code == "" ==> c <= 0.85
  {
    var confidence := 0.5
      + (if health.medicalAidScore != 0.0 then 0.1 else 0.0)
      + (if health.medicationAdherenceScore != 0.0 then 0.1 else 0.0)
      + (if health.providerPaymentScore != 0.0 then 0.15 else 0.0)
      + (if icd10Code != "" then 0.15 else 0.0);
    Min(0.95, confidence)
  }

  // ---------------------------------------------------------------------
  // The assessment
  // ---------------------------------------------------------------------

  /** What calculateRiskAssessment gathers before it computes: the request
      fields plus the rows and scores its data sources return. */
  datatype AssessmentInputs = AssessmentInputs(
    loanAmount: real,
    monthlyIncome: real,
    existingDebt: real,
    medicalAidScheme: string,
    medicalAidOption: string,
    health: HealthScoreRow,
    procedure: ProcedureRisk,
    provider: ProviderPerformance,
    behavior: Behavior)

  datatype Pricing = Pricing(baseRate: real, riskPremium: real, finalRate: real)

  datatype Assessment = Assessment(
    pd: PdResult,
    lgd: LgdResult,
    exposure: real,
    expectedLoss: real,
    expectedLossRate: real,
    decision: RiskDecision,
    pricing: Pricing,
    recommendedTerm: nat,
    maxApprovedAmount: real,
    modelConfidence: real,
    affordability: Affordability)

  /** The computation inside calculateRiskAssessment, after its data sources
      have answered: affordability (with the premium estimate only when a
      scheme is named), behaviour, PD, LGD, expected loss, decision, pricing,
      term, amount and confidence. */
  function Assess(inp: AssessmentInputs): (a: Assessment)
    ensures PD_FLOOR <= a.pd.pdScore <= PD_CAP
    ensures LGD_FLOOR <= a.lgd.lgdScore <= LGD_CAP
    ensures a.expectedLossRate == ExpectedLossRate(a.pd.pdScore, a.lgd.lgdScore)
    ensures a.exposure == inp.loanAmount
    ensures 0.001 <= a.expectedLossRate <= 0.105
    ensures a.decision == MakeRiskDecision(a.pd.pdScore, a.lgd.lgdScore, a.expectedLossRate)
    ensures MIN_RATE <= a.pricing.finalRate <= MAX_RATE
    ensures a.pricing.riskPremium == a.pricing.finalRate - 0.18
    ensures a.recommendedTerm in {3, 4, 6}
    ensures 0.5 <= a.modelConfidence <= 0.85
    ensures a.affordability == HealthcareAffordability(inp.monthlyIncome, inp.existingDebt, inp.loanAmount,
                                 if inp.medicalAidScheme != "" then EstimateMedicalAidPremium(inp.medicalAidScheme, inp.medicalAidOption) else 0.0)
    ensures a.pd == CalculatePD(PdScores(Some(inp.health.healthPaymentScore), Some(inp.procedure.basePdRisk),
                                         Some(a.affordability.score), Some(inp.provider.performanceScore),
                                         Some(AnalyzeBehavioralSignals(inp.behavior))))
    ensures a.lgd == CalculateLGD(LgdParams(Some(inp.medicalAidScheme != ""),
                                            Some(GetMedicalAidTier(inp.medicalAidScheme, inp.medicalAidOption)),
                                            Some(inp.procedure.necessityScore), Some(inp.provider.isNetworkPartner),
                                            Some(OrElse(inp.health.familySupportIndicator, 0.5))))
    ensures a.pricing.finalRate == RiskAdjustedPricing(a.pd.pdScore, a.lgd.lgdScore)
    ensures a.recommendedTerm == RecommendedTerm(a.pd.pdScore, inp.loanAmount)
    ensures a.maxApprovedAmount == MaxApprovedAmount(a.affordability.maxLoanAmount, a.pd.pdScore)
    ensures a.modelConfidence == ModelConfidence(inp.health, "")
  {
    var affordability := AssessAffordability(inp);
    var pd := AssessPd(inp, affordability);
    var lgd := AssessLgd(inp);
    var a := Combine(inp, affordability, pd, lgd);
    a
  }

  /** The figures derived once PD, LGD and affordability are known. */
  function Combine(inp: AssessmentInputs, affordability: Affordability, pd: PdResult, lgd: LgdResult): (a: Assessment)
    requires PD_FLOOR <= pd.pdScore <= PD_CAP && LGD_FLOOR <= lgd.lgdScore <= LGD_CAP
    ensures a.pd == pd && a.lgd == lgd
    ensures a.expectedLossRate == pd.pdScore * lgd.lgdScore
    ensures a.expectedLoss == a.expectedLossRate * inp.loanAmount
    ensures a.exposure == inp.loanAmount
    ensures 0.001 <= a.expectedLossRate <= 0.105
    ensures a.decision == MakeRiskDecision(pd.pdScore, lgd.lgdScore, a.expectedLossRate)
    ensures MIN_RATE <= a.pricing.finalRate <= MAX_RATE
    ensures a.pricing.riskPremium == a.pricing.finalRate - 0.18
    ensures a.recommendedTerm in {3, 4, 6}
    ensures 0.5 <= a.modelConfidence <= 0.85
    ensures a.affordability == affordability
    ensures a.pricing.baseRate == 0.18 && a.pricing.finalRate == RiskAdjustedPricing(pd.pdScore, lgd.lgdScore)
    ensures a.recommendedTerm == RecommendedTerm(pd.pdScore, inp.loanAmount)
    ensures a.maxApprovedAmount == MaxApprovedAmount(affordability.maxLoanAmount, pd.pdScore)
    ensures a.modelConfidence == ModelConfidence(inp.health, "")
  {
    var rate := ExpectedLossRate(pd.pdScore, lgd.lgdScore);
    var finalRate := RiskAdjustedPricing(pd.pdScore, lgd.lgdScore);
    Assessment(
      pd, lgd, inp.loanAmount, rate * inp.loanAmount, rate,
      MakeRiskDecision(pd.pdScore, lgd.lgdScore, rate),
      Pricing(0.18, finalRate - 0.18, finalRate),
      RecommendedTerm(pd.pdScore, inp.loanAmount),
      MaxApprovedAmount(affordability.maxLoanAmount, pd.pdScore),
      // the procedure profile carries no ICD-10 code, so that bonus never applies
      ModelConfidence(inp.health, ""),
      affordability)
  }

  /** A lower PD with the same LGD, loan and affordability never raises the
      price nor lowers the approved amount. */
  lemma CombineLowerPd(inp1: AssessmentInputs, inp2: AssessmentInputs, aff: Affordability,
                       pd1: PdResult, pd2: PdResult, lgd: LgdResult)
    requires PD_FLOOR <= pd1.pdScore <= PD_CAP && PD_FLOOR <= pd2.pdScore <= PD_CAP
    requires LGD_FLOOR <= lgd.lgdScore <= LGD_CAP
    requires pd2.pdScore <= pd1.pdScore && inp1.loanAmount == inp2.loanAmount
    ensures Combine(inp2, aff, pd2, lgd).pricing.finalRate <= Combine(inp1, aff, pd1, lgd).pricing.finalRate
    ensures aff.maxLoanAmount >= 0.0 ==>
              Combine(inp2, aff, pd2, lgd).maxApprovedAmount >= Combine(inp1, aff, pd1, lgd).maxApprovedAmount
  {
    MulMonotone(lgd.lgdScore, pd2.pdScore, pd1.pdScore);
    assert pd2.pdScore * lgd.lgdScore <= pd1.pdScore * lgd.lgdScore;
    PricingMonotone(pd2.pdScore, lgd.lgdScore, pd1.pdScore, lgd.lgdScore);
    if aff.maxLoanAmount >= 0.0 {
      MaxApprovedNonIncreasing(aff.maxLoanAmount, pd2.pdScore, pd1.pdScore);
    }
  }

  /** A borrower whose health payment score is higher, all else equal, is
      never assessed a higher PD, a different LGD, a higher price or (when
      anything is affordable) a smaller approved amount. */
  lemma AssessHealthierNeverRiskier(inp: AssessmentInputs, h: real)
    requires h >= inp.health.healthPaymentScore
    ensures var better := Assess(inp.(health := inp.health.(healthPaymentScore := h)));
            && better.pd.pdScore <= Assess(inp).pd.pdScore
            && better.lgd == Assess(inp).lgd
            && better.pricing.finalRate <= Assess(inp).pricing.finalRate
            && (better.affordability.maxLoanAmount >= 0.0 ==>
                  better.maxApprovedAmount >= Assess(inp).maxApprovedAmount)
  {
    var inp2 := inp.(health := inp.health.(healthPaymentScore := h));
    var aff := AssessAffordability(inp);
    assert AssessAffordability(inp2) == aff;
    assert AssessLgd(inp2) == AssessLgd(inp);
    var pd1 := AssessPd(inp, aff);
    var pd2 := AssessPd(inp2, aff);
    PdMonotone(PdScores(Some(inp.health.healthPaymentScore), Some(inp.procedure.basePdRisk),
                        Some(aff.score), Some(inp.provider.performanceScore),
                        Some(AnalyzeBehavioralSignals(inp.behavior))),
               PdScores(Some(h), Some(inp.procedure.basePdRisk),
                        Some(aff.score), Some(inp.provider.performanceScore),
                        Some(AnalyzeBehavioralSignals(inp.behavior))));
    CombineLowerPd(inp, inp2, aff, pd1, pd2, AssessLgd(inp));
  }

  /** Price and decision follow the expected loss: for any two sets of
      PD/LGD figures, a higher loss rate is never priced lower nor decided
      more leniently. */
  lemma CombineFollowsLoss(inp1: AssessmentInputs, aff1: Affordability, pd1: PdResult, lgd1: LgdResult,
                           inp2: AssessmentInputs, aff2: Affordability, pd2: PdResult, lgd2: LgdResult)
    requires PD_FLOOR <= pd1.pdScore <= PD_CAP && LGD_FLOOR <= lgd1.lgdScore <= LGD_CAP
    requires PD_FLOOR <= pd2.pdScore <= PD_CAP && LGD_FLOOR <= lgd2.lgdScore <= LGD_CAP
    requires ExpectedLossRate(pd1.pdScore, lgd1.lgdScore) <= ExpectedLossRate(pd2.pdScore, lgd2.lgdScore)
    ensures Severity(Combine(inp1, aff1, pd1, lgd1).decision.decision) <= Severity(Combine(inp2, aff2, pd2, lgd2).decision.decision)
    ensures Combine(inp1, aff1, pd1, lgd1).pricing.finalRate <= Combine(inp2, aff2, pd2, lgd2).pricing.finalRate
  {
    var r1 := ExpectedLossRate(pd1.pdScore, lgd1.lgdScore);
    var r2 := ExpectedLossRate(pd2.pdScore, lgd2.lgdScore);
    DecisionMonotone(pd1.pdScore, lgd1.lgdScore, r1, r2);
    DecisionOnlyOnLossRate(pd1.pdScore, lgd1.lgdScore, pd2.pdScore, lgd2.lgdScore, r2);
    PricingMonotone(pd1.pdScore, lgd1.lgdScore, pd2.pdScore, lgd2.lgdScore);
  }

  /** For any two applicants, the one with the higher expected-loss rate is
      never priced lower nor decided more leniently. */
  lemma AssessFollowsLoss(inp1: AssessmentInputs, inp2: AssessmentInputs)
    requires Assess(inp1).expectedLossRate <= Assess(inp2).expectedLossRate
    ensures Severity(Assess(inp1).decision.decision) <= Severity(Assess(inp2).decision.decision)
    ensures Assess(inp1).pricing.finalRate <= Assess(inp2).pricing.finalRate
  {
    var aff1 := AssessAffordability(inp1);
    var aff2 := AssessAffordability(inp2);
    CombineFollowsLoss(inp1, aff1, AssessPd(inp1, aff1), AssessLgd(inp1), inp2, aff2, AssessPd(inp2, aff2), AssessLgd(inp2));
  }

  /** Affordability, with a premium estimate only when a scheme is named. */
  function AssessAffordability(inp: AssessmentInputs): Affordability {
    var premium := if inp.medicalAidScheme != "" then EstimateMedicalAidPremium(inp.medicalAidScheme, inp.medicalAidOption) else 0.0;
    HealthcareAffordability(inp.monthlyIncome, inp.existingDebt, inp.loanAmount, premium)
  }

  function AssessPd(inp: AssessmentInputs, affordability: Affordability): (pd: PdResult)
    ensures PD_FLOOR <= pd.pdScore <= PD_CAP
  {
    CalculatePD(PdScores(
      Some(inp.health.healthPaymentScore),
      Some(inp.procedure.basePdRisk),
      Some(affordability.score),
      Some(inp.provider.performanceScore),
      Some(AnalyzeBehavioralSignals(inp.behavior))))
  }

  function AssessLgd(inp: AssessmentInputs): (lgd: LgdResult)
    ensures LGD_FLOOR <= lgd.lgdScore <= LGD_CAP
  {
    CalculateLGD(LgdParams(
      Some(inp.medicalAidScheme != ""),
      Some(GetMedicalAidTier(inp.medicalAidScheme, inp.medicalAidOption)),
      Some(inp.procedure.necessityScore),
      Some(inp.provider.isNetworkPartner),
      Some(OrElse(inp.health.familySupportIndicator, 0.5))))
  }

  /** PD·LGD, the expected loss per rand lent. */
  function ExpectedLossRate(pd: real, lgd: real): (rate: real)
    requires PD_FLOOR <= pd <= PD_CAP && LGD_FLOOR <= lgd <= LGD_CAP
    ensures rate == pd * lgd
    ensures 0.001 <= rate <= 0.105
  {
    ExpectedLossBounds(pd, lgd);
    pd * lgd
  }

  lemma ExpectedLossBounds(pd: real, lgd: real)
    requires PD_FLOOR <= pd <= PD_CAP && LGD_FLOOR <= lgd <= LGD_CAP
    ensures 0.001 <= pd * lgd <= 0.105
  {
    MulMonotone(pd, lgd, 0.7);
    assert pd * lgd <= pd * 0.7;
    assert pd * 0.7 <= 0.105;
    MulMonotone(pd, 0.2, lgd);
    assert pd * 0.2 <= pd * lgd;
    assert pd * 0.2 >= 0.001;
  }

  /** Because PD and LGD are clamped, even the worst borrower's loss rate is
      10.5%: a decline needs a rate above 5%, which is reachable, while an
      approval at the 0.95 confidence tier needs PD·LGD ≤ 1%. */
  lemma WorstCaseIsDecline()
    ensures MakeRiskDecision(PD_CAP, LGD_CAP, PD_CAP * LGD_CAP).decision == Decline
  {
  }
}
