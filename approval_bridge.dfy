/** The bridge from the platform's existing approval flow to the lender
    marketplace: it fills in whatever underwriting results the caller did
    not supply with house defaults and submits the result.

    The random draw behind the default risk score is a parameter `u` in
    [0, 1), the value Math.random would have returned. */
module ApprovalBridge {
  import opened Common
  import opened Amortization
  import opened MarketplaceAuction

  /** The parameters of sendToMarketplace; zero numbers and empty strings
      stand for values the caller did not supply. */
  datatype BridgeRequest = BridgeRequest(
    userId: string,
    providerId: string,
    procedureType: string,
    procedureCode: string,
    procedureDescription: string,
    loanAmount: real,
    requestedTerm: nat,
    existingRiskScore: real,
    existingAffordabilityScore: real,
    existingDebtToIncomeRatio: real,
    existingMonthlyIncome: real,
    existingEmploymentStatus: string,
    existingEmploymentDurationMonths: nat,
    existingRecommendedRate: real,
    existingRecommendedTerm: nat,
    existingMonthlyPayment: real,
    bureauCheckId: string,
    bureauScore: real,
    ipAddress: string,
    userAgent: string)

  /** calculateDefaultRiskScore: floor(u·31) + 50, a whole score from 50 to 80. */
  function DefaultRiskScore(u: real): (score: int)
    requires 0.0 <= u < 1.0
    ensures 50 <= score <= 80
  {
    (u * 31.0).Floor + 50
  }

  /** Every score from 50 to 80 is a possible default. */
  lemma DefaultRiskScoreReachesAll(s: int)
    requires 50 <= s <= 80
    ensures DefaultRiskScore((s - 50) as real / 31.0) == s
  {
    var u := (s - 50) as real / 31.0;
    assert u * 31.0 == (s - 50) as real;
  }

  /** calculateDefaultRate: 18% plus 2%, 5% or 10% by score, cut at 70 and 40. */
  function DefaultRate(riskScore: real): (rate: real)
    ensures riskScore >= 70.0 ==> rate == 0.20
    ensures 40.0 <= riskScore < 70.0 ==> rate == 0.23
    ensures riskScore < 40.0 ==> rate == 0.28
  {
    var baseRate := 0.18;
    if riskScore >= 70.0 then baseRate + 0.02
    else if riskScore >= 40.0 then baseRate + 0.05
    else baseRate + 0.10
  }

  /** The house rate is what the marketplace would charge for a lender at
      base 18% with no premiums of its own, for any non-zero score: the bridge
      and the auction share their tier cut points. */
  lemma DefaultRateMatchesLenderRate(riskScore: real, lender: Lender)
    requires riskScore != 0.0
    requires lender.baseRate == 0.18
    requires lender.riskPremiumLow == 0.0 && lender.riskPremiumMid == 0.0 && lender.riskPremiumHigh == 0.0
    ensures DefaultRate(riskScore) == CalculateLenderRate(lender, riskScore)
  {
  }

  /** calculatePayment: the bridge's own copy of the amortization formula. */
  function CalculatePayment(principal: real, annualRate: real, term: nat): (m: real)
    requires annualRate >= 0.0 && term >= 1
    ensures m == MonthlyPayment(principal, annualRate, term)
  {
    var monthlyRate := annualRate / 12.0;
    if monthlyRate == 0.0 then principal / term as real
    else
      var g := Pow(1.0 + monthlyRate, term);
      var m := principal * (monthlyRate * g) / (g - 1.0);
      SameAnnuity(principal, monthlyRate, g, m);
      m
  }

  /** Any value with the annuity's defining property is the annuity. */
  lemma SameAnnuity(principal: real, r: real, g: real, m: real)
    requires r > 0.0 && g > 1.0
    requires m == principal * (r * g) / (g - 1.0)
    ensures m == Annuity(principal, r, g)
  {
    var a := Annuity(principal, r, g);
    DivTimes(principal * (r * g), g - 1.0);
    assert m * (g - 1.0) == principal * r * g;
    assert (m - a) * (g - 1.0) == m * (g - 1.0) - a * (g - 1.0);
    ZeroFactor(m - a, g - 1.0);
  }

  /** The submission sendToMarketplace builds: the caller's values where
      given, otherwise a default risk score, affordability 60, income 0,
      employment UNKNOWN, the house rate for the score, the requested term
      and the amortized payment. */
  function ToSubmission(req: BridgeRequest, u: real): (p: Submission)
    requires 0.0 <= u < 1.0 && req.requestedTerm >= 1 && req.existingRecommendedRate >= 0.0
    ensures p.userId == req.userId && p.providerId == req.providerId && p.procedureType == req.procedureType
    ensures p.procedureCode == req.procedureCode && p.procedureDescription == req.procedureDescription
    ensures p.loanAmount == req.loanAmount && p.requestedTerm == req.requestedTerm
    ensures p.riskScore == OrElse(req.existingRiskScore, DefaultRiskScore(u) as real)
    ensures p.affordabilityScore == OrElse(req.existingAffordabilityScore, 60.0)
    ensures p.debtToIncomeRatio == req.existingDebtToIncomeRatio
    ensures p.monthlyIncome == req.existingMonthlyIncome
    ensures p.employmentStatus == OrElseStr(req.existingEmploymentStatus, "UNKNOWN")
    ensures p.employmentDurationMonths == req.existingEmploymentDurationMonths
    ensures p.recommendedRate == OrElse(req.existingRecommendedRate, DefaultRate(p.riskScore))
    ensures p.recommendedRate > 0.0 || req.existingRecommendedRate < 0.0
    ensures p.recommendedTerm == OrElseNat(req.existingRecommendedTerm, req.requestedTerm) && p.recommendedTerm >= 1
    ensures p.recommendedMonthlyPayment
         == OrElse(req.existingMonthlyPayment, MonthlyPayment(req.loanAmount, p.recommendedRate, p.recommendedTerm))
    ensures p.bureauCheckId == req.bureauCheckId && p.bureauScore == req.bureauScore
    ensures p.ipAddress == req.ipAddress && p.userAgent == req.userAgent
  {
    var riskScore := OrElse(req.existingRiskScore, DefaultRiskScore(u) as real);
    var rate := OrElse(req.existingRecommendedRate, DefaultRate(riskScore));
    var term := OrElseNat(req.existingRecommendedTerm, req.requestedTerm);
    Submission(
      req.userId, req.providerId, req.procedureType, req.procedureCode, req.procedureDescription,
      req.loanAmount, req.requestedTerm,
      riskScore,
      OrElse(req.existingAffordabilityScore, 60.0),
      req.existingDebtToIncomeRatio,
      OrElse(req.existingMonthlyIncome, 0.0),
      OrElseStr(req.existingEmploymentStatus, "UNKNOWN"),
      req.existingEmploymentDurationMonths,
      rate, term,
      OrElse(req.existingMonthlyPayment, CalculatePayment(req.loanAmount, rate, term)),
      req.bureauCheckId, req.bureauScore, req.ipAddress, req.userAgent)
  }

  /** The request quickSubmit passes on: only the five basic fields. */
  function QuickRequest(userId: string, providerId: string, procedureType: string, loanAmount: real, term: nat): (req: BridgeRequest)
    ensures req.userId == userId && req.providerId == providerId && req.procedureType == procedureType
    ensures req.loanAmount == loanAmount && req.requestedTerm == term
    ensures req.existingRiskScore == 0.0 && req.existingRecommendedRate == 0.0
    ensures req.existingRecommendedTerm == 0 && req.existingMonthlyPayment == 0.0
  {
    BridgeRequest(userId, providerId, procedureType, "", "", loanAmount, term,
                  0.0, 0.0, 0.0, 0.0, "", 0, 0.0, 0, 0.0, "", 0.0, "", "")
  }

  /** A quick submission is priced entirely from house defaults: a score from
      50 to 80, so LOW or MEDIUM tier, the matching 20% or 23% rate, the
      requested term and the amortized payment that repays the loan. */
  lemma QuickSubmissionDefaults(userId: string, providerId: string, procedureType: string,
                                loanAmount: real, term: nat, u: real)
    requires 0.0 <= u < 1.0 && term >= 1
    ensures var p := ToSubmission(QuickRequest(userId, providerId, procedureType, loanAmount, term), u);
            && 50.0 <= p.riskScore <= 80.0
            && GetRiskTier(p.riskScore) != HighRisk
            && (p.recommendedRate == 0.20 || p.recommendedRate == 0.23)
            && p.recommendedTerm == term
            && p.affordabilityScore == 60.0 && p.monthlyIncome == 0.0 && p.employmentStatus == "UNKNOWN"
            && Balance(loanAmount, p.recommendedRate / 12.0, p.recommendedMonthlyPayment, term) == 0.0
  {
    var p := ToSubmission(QuickRequest(userId, providerId, procedureType, loanAmount, term), u);
    PaidOff(loanAmount, p.recommendedRate, term);
  }

  /** sendToMarketplace: fill in the defaults, then submit. */
  method SendToMarketplace(market: Marketplace, req: BridgeRequest, u: real) returns (applicationId: nat)
    requires market.Valid() && 0.0 <= u < 1.0 && req.requestedTerm >= 1 && req.existingRecommendedRate >= 0.0
    modifies market
    ensures market.Valid()
    ensures applicationId == |old(market.applications)|
    ensures market.applications == old(market.applications) + [NewApplication(ToSubmission(req, u)).(status := Underwriting)]
    ensures var p := ToSubmission(req, u);
            var eligible := EligibleLenders(old(market.lenders), p.loanAmount, OrElse(p.riskScore, 50.0));
            && market.offers == FanOutOffers(old(market.offers), eligible, PackageFor(p, applicationId))
            && market.audit == old(market.audit) + [AuditEntry("loan_application", "create")] + FanOutAudit(eligible)
    ensures market.lenders == old(market.lenders)
    ensures market.loans == old(market.loans) && market.repayments == old(market.repayments)
  {
    var p := ToSubmission(req, u);
    applicationId := market.SubmitToMarketplace(p);
  }

  /** quickSubmit: sendToMarketplace with only the five basic fields. */
  method QuickSubmit(market: Marketplace, userId: string, providerId: string, procedureType: string,
                     loanAmount: real, term: nat, u: real) returns (applicationId: nat)
    requires market.Valid() && 0.0 <= u < 1.0 && term >= 1
    modifies market
    ensures market.Valid()
    ensures applicationId == |old(market.applications)|
    ensures market.applications == old(market.applications)
              + [NewApplication(ToSubmission(QuickRequest(userId, providerId, procedureType, loanAmount, term), u)).(status := Underwriting)]
    ensures var p := ToSubmission(QuickRequest(userId, providerId, procedureType, loanAmount, term), u);
            var eligible := EligibleLenders(old(market.lenders), p.loanAmount, OrElse(p.riskScore, 50.0));
            && market.offers == FanOutOffers(old(market.offers), eligible, PackageFor(p, applicationId))
            && market.audit == old(market.audit) + [AuditEntry("loan_application", "create")] + FanOutAudit(eligible)
    ensures market.lenders == old(market.lenders)
    ensures market.loans == old(market.loans) && market.repayments == old(market.repayments)
  {
    applicationId := SendToMarketplace(market, QuickRequest(userId, providerId, procedureType, loanAmount, term), u);
  }
}
