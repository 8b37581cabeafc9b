/** The lender marketplace: an application that the underwriting has already
    priced is offered to the lenders whose appetite it fits; lenders answer
    with offers at (possibly adjusted) terms; the patient accepts one, which
    declines the rest, creates the loan and writes its repayment schedule.

    The database tables are sequences held by one `Marketplace` object; a
    row's identifier is its position in its table. */
module MarketplaceAuction {
  import opened Common
  import opened Amortization

  // ---------------------------------------------------------------------
  // Risk tier and lender pricing
  // ---------------------------------------------------------------------

  datatype RiskTier = LowRisk | MediumRisk | HighRisk

  /** getRiskTier: a missing or zero score is MEDIUM; otherwise LOW from 70,
      MEDIUM from 40, HIGH below. */
  function GetRiskTier(score: real): (t: RiskTier)
    ensures score == 0.0 ==> t == MediumRisk
    ensures score != 0.0 ==> (t == LowRisk <==> score >= 70.0)
    ensures score != 0.0 ==> (t == MediumRisk <==> 40.0 <= score < 70.0)
    ensures score != 0.0 ==> (t == HighRisk <==> score < 40.0)
  {
    if score == 0.0 then MediumRisk
    else if score >= 70.0 then LowRisk
    else if score >= 40.0 then MediumRisk
    else HighRisk
  }

  /** The columns of a lenders row that the auction and the webhook gate
      read; a zero premium or an empty key is a missing one. */
  datatype Lender = Lender(
    lenderId: nat,
    code: string,
    name: string,
    lenderType: string,
    active: bool,
    minLoanAmount: real,
    maxLoanAmount: real,
    minRiskScore: real,
    maxRiskScore: real,
    baseRate: real,
    riskPremiumLow: real,
    riskPremiumMid: real,
    riskPremiumHigh: real,
    apiKeyEncrypted: string)

  /** The lender type that funds from the platform's own balance sheet and
      is offered the loan automatically. */
  const BALANCE_SHEET: string := "PAYSICK_BALANCE_SHEET"

  /** The lender's premium for a tier, or the house default 2% / 5% / 10%
      when the lender has none. */
  function RiskPremium(lender: Lender, tier: RiskTier): (p: real)
    ensures p != 0.0
    ensures tier == LowRisk ==> p == OrElse(lender.riskPremiumLow, 0.02)
    ensures tier == MediumRisk ==> p == OrElse(lender.riskPremiumMid, 0.05)
    ensures tier == HighRisk ==> p == OrElse(lender.riskPremiumHigh, 0.10)
  {
    match tier
    case LowRisk => OrElse(lender.riskPremiumLow, 0.02)
    case MediumRisk => OrElse(lender.riskPremiumMid, 0.05)
    case HighRisk => OrElse(lender.riskPremiumHigh, 0.10)
  }

  predicate RatesNonNegative(lender: Lender) {
    lender.baseRate >= 0.0 && lender.riskPremiumLow >= 0.0
    && lender.riskPremiumMid >= 0.0 && lender.riskPremiumHigh >= 0.0
  }

  /** calculateLenderRate: base rate plus the premium for the score's tier;
      the premium is never zero, so the rate always differs from the base. */
  function CalculateLenderRate(lender: Lender, score: real): (rate: real)
    ensures rate == lender.baseRate + RiskPremium(lender, GetRiskTier(score))
    ensures rate != lender.baseRate
    ensures RatesNonNegative(lender) ==> rate > lender.baseRate >= 0.0
  {
    lender.baseRate + RiskPremium(lender, GetRiskTier(score))
  }

  /** A lender that publishes no premiums prices at base + 2% / 5% / 10%,
      and a missing score is priced as MEDIUM. */
  lemma LenderRateDefaults(lender: Lender, score: real)
    requires lender.riskPremiumLow == 0.0 && lender.riskPremiumMid == 0.0 && lender.riskPremiumHigh == 0.0
    ensures score >= 70.0 ==> CalculateLenderRate(lender, score) == lender.baseRate + 0.02
    ensures (score == 0.0 || 40.0 <= score < 70.0) ==> CalculateLenderRate(lender, score) == lender.baseRate + 0.05
    ensures (score != 0.0 && score < 40.0) ==> CalculateLenderRate(lender, score) == lender.baseRate + 0.10
  {
  }

  /** When a lender's effective premiums rise from LOW to HIGH, a better
      (positive) score is never charged more. */
  lemma LenderRateMonotone(lender: Lender, s1: real, s2: real)
    requires 0.0 < s1 <= s2
    requires RiskPremium(lender, LowRisk) <= RiskPremium(lender, MediumRisk) <= RiskPremium(lender, HighRisk)
    ensures CalculateLenderRate(lender, s2) <= CalculateLenderRate(lender, s1)
  {
  }

  // ---------------------------------------------------------------------
  // Eligible lenders
  // ---------------------------------------------------------------------

  /** The WHERE clause of getEligibleLenders. */
  predicate IsEligible(lender: Lender, loanAmount: real, riskScore: real) {
    && lender.active
    && lender.minLoanAmount <= loanAmount <= lender.maxLoanAmount
    && lender.minRiskScore <= riskScore <= lender.maxRiskScore
  }

  predicate SortedByRate(ls: seq<Lender>) {
    forall i, j :: 0 <= i < j < |ls| ==> ls[i].baseRate <= ls[j].baseRate
  }

  function FilterEligible(lenders: seq<Lender>, loanAmount: real, riskScore: real): (r: seq<Lender>)
    ensures forall l :: l in r <==> l in lenders && IsEligible(l, loanAmount, riskScore)
  {
    if lenders == [] then []
    else
      var rest := FilterEligible(lenders[1..], loanAmount, riskScore);
      assert forall l :: l in lenders <==> l == lenders[0] || l in lenders[1..];
      if IsEligible(lenders[0], loanAmount, riskScore) then [lenders[0]] + rest else rest
  }

  function InsertByRate(l: Lender, s: seq<Lender>): (r: seq<Lender>)
    requires SortedByRate(s)
    ensures SortedByRate(r)
    ensures multiset(r) == multiset(s) + multiset{l}
    ensures forall x :: x in r <==> x == l || x in s
  {
    if s == [] then [l]
    else if l.baseRate <= s[0].baseRate then [l] + s
    else
      var rest := InsertByRate(l, s[1..]);
      assert s == [s[0]] + s[1..];
      assert forall x :: x in rest ==> s[0].baseRate <= x.baseRate;
      [s[0]] + rest
  }

  function SortByRate(s: seq<Lender>): (r: seq<Lender>)
    ensures SortedByRate(r)
    ensures multiset(r) == multiset(s)
    ensures forall x :: x in r <==> x in s
  {
    if s == [] then []
    else
      assert s == [s[0]] + s[1..];
      InsertByRate(s[0], SortByRate(s[1..]))
  }

  /** getEligibleLenders: exactly the active lenders whose amount and score
      ranges both contain the request, each as often as it is listed, in
      ascending order of base rate. */
  function EligibleLenders(lenders: seq<Lender>, loanAmount: real, riskScore: real): (r: seq<Lender>)
    ensures forall l :: l in r <==> l in lenders && IsEligible(l, loanAmount, riskScore)
    ensures multiset(r) == multiset(FilterEligible(lenders, loanAmount, riskScore))
    ensures SortedByRate(r)
  {
    SortByRate(FilterEligible(lenders, loanAmount, riskScore))
  }

  // ---------------------------------------------------------------------
  // Rows
  // ---------------------------------------------------------------------

  /** The parameters of submitToMarketplace: the request and the results of
      the platform's own underwriting. Zero numbers and empty strings stand
      for values the caller did not supply. */
  datatype Submission = Submission(
    userId: string,
    providerId: string,
    procedureType: string,
    procedureCode: string,
    procedureDescription: string,
    loanAmount: real,
    requestedTerm: nat,
    riskScore: real,
    affordabilityScore: real,
    debtToIncomeRatio: real,
    monthlyIncome: real,
    employmentStatus: string,
    employmentDurationMonths: nat,
    recommendedRate: real,
    recommendedTerm: nat,
    recommendedMonthlyPayment: real,
    bureauCheckId: string,
    bureauScore: real,
    ipAddress: string,
    userAgent: string)

  datatype AppStatus = Submitted | Underwriting | OffersReceived | OfferSelected

  /** A loan_applications row: the submission as stored, with its tier, the
      term the lenders are shown, the status and the selected offer. */
  datatype Application = Application(
    request: Submission,
    riskTier: RiskTier,
    recommendedTerm: nat,
    status: AppStatus,
    selectedOffer: Option<nat>)

  /** The row submitToMarketplace inserts. */
  function NewApplication(p: Submission): (a: Application)
    ensures a.request == p && a.status == Submitted && a.selectedOffer == None
    ensures a.riskTier == GetRiskTier(p.riskScore)
    ensures a.recommendedTerm == OrElseNat(p.recommendedTerm, p.requestedTerm)
  {
    Application(p, GetRiskTier(p.riskScore), OrElseNat(p.recommendedTerm, p.requestedTerm), Submitted, None)
  }

  datatype OfferStatus = Pending | Accepted | Declined

  /** A lender_offers row. */
  datatype Offer = Offer(
    applicationId: nat,
    lenderId: nat,
    approvedAmount: real,
    interestRate: real,
    term: nat,
    monthlyPayment: real,
    totalRepayable: real,
    originationFee: real,
    status: OfferStatus,
    lenderNotes: string,
    conditions: string,
    declineReason: string)

  /** The offer createLenderOffer writes: the amortized payment, the total
      repayable over the term and a 2.5% origination fee, PENDING. */
  function OfferTerms(applicationId: nat, lenderId: nat, amount: real, rate: real, term: nat,
                      lenderNotes: string, conditions: string): (o: Offer)
    requires rate >= 0.0 && term >= 1
    ensures o.applicationId == applicationId && o.lenderId == lenderId && o.status == Pending
    ensures WellFormedOffer(o)
    ensures o.approvedAmount == amount && o.interestRate == rate && o.term == term
    ensures Balance(amount, rate / 12.0, o.monthlyPayment, term) == 0.0
    ensures o.totalRepayable == o.monthlyPayment * term as real
    ensures o.originationFee == amount * 0.025
    ensures amount >= 0.0 ==> o.totalRepayable >= amount
  {
    var m := MonthlyPayment(amount, rate, term);
    PaidOff(amount, rate, term);
    TotalCoversPrincipal(amount, rate, term);
    Offer(applicationId, lenderId, amount, rate, term, m, m * term as real, amount * 0.025,
          Pending, lenderNotes, conditions, "")
  }

  datatype LoanStatus = PendingDisbursement

  /** A marketplace_loans row. */
  datatype Loan = Loan(
    applicationId: nat,
    offerId: nat,
    lenderId: nat,
    userId: string,
    providerId: string,
    principalAmount: real,
    interestRate: real,
    term: nat,
    monthlyPayment: real,
    totalRepayable: real,
    originationFee: real,
    totalFees: real,
    status: LoanStatus,
    outstandingPrincipal: real,
    totalOutstanding: real)

  /** The loan acceptOffer creates from an offer: the offer's terms, nothing
      disbursed yet, the whole principal and fee outstanding. */
  function NewLoan(offer: Offer, offerId: nat, app: Application): (l: Loan)
    ensures l.applicationId == offer.applicationId && l.offerId == offerId && l.lenderId == offer.lenderId
    ensures l.userId == app.request.userId && l.providerId == app.request.providerId
    ensures l.principalAmount == offer.approvedAmount && l.interestRate == offer.interestRate && l.term == offer.term
    ensures l.monthlyPayment == offer.monthlyPayment && l.totalRepayable == offer.totalRepayable
    ensures l.originationFee == offer.originationFee && l.totalFees == offer.originationFee
    ensures l.status == PendingDisbursement
    ensures l.outstandingPrincipal == offer.approvedAmount
    ensures l.totalOutstanding == offer.approvedAmount + offer.originationFee
  {
    Loan(offer.applicationId, offerId, offer.lenderId, app.request.userId, app.request.providerId,
         offer.approvedAmount, offer.interestRate, offer.term, offer.monthlyPayment, offer.totalRepayable,
         offer.originationFee, offer.originationFee, PendingDisbursement,
         offer.approvedAmount, offer.approvedAmount + offer.originationFee)
  }

  datatype RepaymentStatus = Scheduled

  /** A loan_repayments row; the due date is `paymentNumber` months ahead. */
  datatype Repayment = Repayment(
    loanId: nat,
    userId: string,
    paymentNumber: nat,
    scheduledAmount: real,
    principalPortion: real,
    interestPortion: real,
    status: RepaymentStatus)

  /** The audit trail, as entity type and action. */
  datatype AuditEntry = AuditEntry(entityType: string, action: string)

  // ---------------------------------------------------------------------
  // The offer upsert
  // ---------------------------------------------------------------------

  /** The position of the offer for (application, lender), searching from `from`. */
  function FindOfferFrom(offers: seq<Offer>, applicationId: nat, lenderId: nat, from: nat): (r: Option<nat>)
    requires from <= |offers|
    ensures r.Some? ==> (from <= r.value < |offers|
                     && offers[r.value].applicationId == applicationId && offers[r.value].lenderId == lenderId)
    ensures r.None? ==> forall i :: from <= i < |offers| ==>
                     !(offers[i].applicationId == applicationId && offers[i].lenderId == lenderId)
    decreases |offers| - from
  {
    if from == |offers| then None
    else if offers[from].applicationId == applicationId && offers[from].lenderId == lenderId then Some(from)
    else FindOfferFrom(offers, applicationId, lenderId, from + 1)
  }

  function FindOffer(offers: seq<Offer>, applicationId: nat, lenderId: nat): (r: Option<nat>)
    ensures r.Some? ==> (r.value < |offers|
                     && offers[r.value].applicationId == applicationId && offers[r.value].lenderId == lenderId)
    ensures r.None? ==> forall i :: 0 <= i < |offers| ==>
                     !(offers[i].applicationId == applicationId && offers[i].lenderId == lenderId)
  {
    FindOfferFrom(offers, applicationId, lenderId, 0)
  }

  /** At most one offer per (application, lender): the table's unique key. */
  predicate UniquePairs(offers: seq<Offer>) {
    forall i, j :: 0 <= i < j < |offers| ==>
      !(offers[i].applicationId == offers[j].applicationId && offers[i].lenderId == offers[j].lenderId)
  }

  /** Every stored offer was priced by OfferTerms: a term of at least one
      month, a non-negative rate, and the amortized payment for its amount. */
  predicate WellFormedOffer(o: Offer)
  {
    o.term >= 1 && o.interestRate >= 0.0 && o.monthlyPayment == MonthlyPayment(o.approvedAmount, o.interestRate, o.term)
  }

  /** The INSERT ... ON CONFLICT (application_id, lender_id) DO UPDATE of
      createLenderOffer: a new pair is appended; an existing one takes the new
      terms but keeps its status and decline reason. */
  function UpsertOffer(offers: seq<Offer>, o: Offer): (r: seq<Offer>)
    ensures |r| == |offers| || r == offers + [o]
  {
    match FindOffer(offers, o.applicationId, o.lenderId)
    case None => offers + [o]
    case Some(i) => offers[i := o.(status := offers[i].status, declineReason := offers[i].declineReason)]
  }

  /** The upsert never creates a second row for a pair, and afterwards the
      pair's row carries the new terms; only a first offer is PENDING by
      construction, a repeat keeps whatever status the row had. */
  lemma UpsertOffer_Properties(offers: seq<Offer>, o: Offer)
    requires UniquePairs(offers)
    ensures UniquePairs(UpsertOffer(offers, o))
    ensures FindOffer(UpsertOffer(offers, o), o.applicationId, o.lenderId).Some?
    ensures var k := FindOffer(offers, o.applicationId, o.lenderId);
            var r := UpsertOffer(offers, o);
            match k
            case None => |r| == |offers| + 1 && r[|offers|] == o
            case Some(i) => |r| == |offers| && r[i] == o.(status := offers[i].status, declineReason := offers[i].declineReason)
                            && forall j :: 0 <= j < |offers| && j != i ==> r[j] == offers[j]
  {
    var r := UpsertOffer(offers, o);
    match FindOffer(offers, o.applicationId, o.lenderId)
    case None =>
      assert r[|offers|].applicationId == o.applicationId && r[|offers|].lenderId == o.lenderId;
    case Some(i) =>
      assert r[i].applicationId == o.applicationId && r[i].lenderId == o.lenderId;
  }

  /** An offer that already exists keeps its status when re-submitted: a
      DECLINED or ACCEPTED offer is not reopened by a lender's second answer. */
  lemma UpsertKeepsStatus(offers: seq<Offer>, o: Offer, i: nat)
    requires UniquePairs(offers) && i < |offers|
    requires offers[i].applicationId == o.applicationId && offers[i].lenderId == o.lenderId
    ensures i < |UpsertOffer(offers, o)| && UpsertOffer(offers, o)[i].status == offers[i].status
    ensures UpsertOffer(offers, o)[i].interestRate == o.interestRate
  {
    var k := FindOffer(offers, o.applicationId, o.lenderId);
    assert k == Some(i);
  }

  /** The application transition of createLenderOffer: SUBMITTED and
      UNDERWRITING become OFFERS_RECEIVED, any later status stays. */
  function AfterOffer(a: Application): (r: Application)
    ensures r == a.(status := r.status)
    ensures r.status == (if a.status == Submitted || a.status == Underwriting then OffersReceived else a.status)
  {
    if a.status == Submitted || a.status == Underwriting then a.(status := OffersReceived) else a
  }

  // ---------------------------------------------------------------------
  // Fan-out and acceptance, as functions of the tables
  // ---------------------------------------------------------------------

  /** The pre-approved package sent to every eligible lender. */
  datatype LoanPackage = LoanPackage(
    applicationId: nat,
    amount: real,
    rate: real,
    term: nat,
    monthlyPayment: real,
    score: real,
    tier: RiskTier,
    affordability: real,
    income: real,
    employment: string)

  /** The package submitToMarketplace builds: missing rate 20%, term the
      requested one, payment amortized from those, score 50, affordability 60. */
  function PackageFor(p: Submission, applicationId: nat): (k: LoanPackage)
    requires p.requestedTerm >= 1 && p.recommendedRate >= 0.0
    ensures k.applicationId == applicationId && k.amount == p.loanAmount
    ensures k.rate == OrElse(p.recommendedRate, 0.20) && k.term == OrElseNat(p.recommendedTerm, p.requestedTerm)
    ensures k.term >= 1
    ensures k.monthlyPayment == OrElse(p.recommendedMonthlyPayment, MonthlyPayment(p.loanAmount, k.rate, k.term))
    ensures k.score == OrElse(p.riskScore, 50.0) && k.tier == GetRiskTier(p.riskScore)
    ensures k.affordability == OrElse(p.affordabilityScore, 60.0)
  {
    var rate := OrElse(p.recommendedRate, 0.20);
    var term := OrElseNat(p.recommendedTerm, p.requestedTerm);
    LoanPackage(applicationId, p.loanAmount, rate, term,
      OrElse(p.recommendedMonthlyPayment, MonthlyPayment(p.loanAmount, rate, term)),
      OrElse(p.riskScore, 50.0), GetRiskTier(p.riskScore), OrElse(p.affordabilityScore, 60.0),
      p.monthlyIncome, p.employmentStatus)
  }

  predicate AllRatesNonNegative(ls: seq<Lender>) {
    forall l :: l in ls ==> RatesNonNegative(l)
  }

  /** The offer a balance-sheet lender is given automatically. */
  function AutoOffer(lender: Lender, pkg: LoanPackage): (o: Offer)
    requires RatesNonNegative(lender) && pkg.term >= 1
    ensures o.applicationId == pkg.applicationId && o.lenderId == lender.lenderId && o.status == Pending
    ensures o.interestRate == CalculateLenderRate(lender, pkg.score) && o.term == pkg.term
    ensures o.approvedAmount == pkg.amount
  {
    OfferTerms(pkg.applicationId, lender.lenderId, pkg.amount, CalculateLenderRate(lender, pkg.score), pkg.term, "", "")
  }

  /** The offers table after the package went to `ls` in order: only the
      balance-sheet lenders make an offer. */
  function FanOutOffers(offers: seq<Offer>, ls: seq<Lender>, pkg: LoanPackage): seq<Offer>
    requires AllRatesNonNegative(ls) && pkg.term >= 1
    decreases |ls|
  {
    if ls == [] then offers
    else
      var l := ls[|ls| - 1];
      assert l in ls;
      var prev := FanOutOffers(offers, ls[..|ls| - 1], pkg);
      if l.lenderType == BALANCE_SHEET then UpsertOffer(prev, AutoOffer(l, pkg)) else prev
  }

  /** The audit entries of the fan-out: an offer creation for a balance-sheet
      lender, a notification for every other lender. */
  function FanOutAudit(ls: seq<Lender>): (r: seq<AuditEntry>)
    ensures |r| == |ls|
  {
    if ls == [] then []
    else
      var l := ls[|ls| - 1];
      FanOutAudit(ls[..|ls| - 1]) +
      [if l.lenderType == BALANCE_SHEET then AuditEntry("lender_offer", "create")
       else AuditEntry("loan_application", "lender_notified")]
  }

  /** No balance-sheet lender is ever logged as notified: its package turns
      straight into an offer. */
  lemma {:induction false} FanOutAuditNotified(ls: seq<Lender>, i: nat)
    requires i < |ls|
    ensures FanOutAudit(ls)[i].action == "lender_notified" <==> ls[i].lenderType != BALANCE_SHEET
  {
    if i < |ls| - 1 {
      FanOutAuditNotified(ls[..|ls| - 1], i);
    }
  }

  /** What the fan-out to `ls` promises about the table `r` it leaves, for a
      new application (no offers yet): every earlier offer is left alone,
      each balance-sheet lender in `ls` has a PENDING offer, and no other
      lender got one. */
  ghost predicate FannedOut(offers: seq<Offer>, ls: seq<Lender>, pkg: LoanPackage, r: seq<Offer>) {
    && UniquePairs(r)
    && |r| >= |offers| && r[..|offers|] == offers
    && (forall i :: |offers| <= i < |r| ==>
          r[i].applicationId == pkg.applicationId && r[i].status == Pending
          && exists l :: l in ls && l.lenderType == BALANCE_SHEET && l.lenderId == r[i].lenderId)
    && (forall l :: l in ls && l.lenderType == BALANCE_SHEET ==>
          FindOffer(r, pkg.applicationId, l.lenderId).Some?)
  }

  /** The fan-out keeps its promise for every list of lenders. */
  lemma {:induction false} FanOutOffers_Properties(offers: seq<Offer>, ls: seq<Lender>, pkg: LoanPackage)
    requires AllRatesNonNegative(ls) && pkg.term >= 1
    requires UniquePairs(offers)
    requires forall i :: 0 <= i < |offers| ==> offers[i].applicationId != pkg.applicationId
    ensures FannedOut(offers, ls, pkg, FanOutOffers(offers, ls, pkg))
    decreases |ls|
  {
    if ls == [] {
      assert offers[..|offers|] == offers;
    } else {
      var l := ls[|ls| - 1];
      var init := ls[..|ls| - 1];
      assert l in ls;
      assert forall x :: x in init ==> x in ls;
      FanOutOffers_Properties(offers, init, pkg);
      assert ls == init + [l];
      FanOutStep(offers, init, l, pkg, FanOutOffers(offers, init, pkg), FanOutOffers(offers, ls, pkg));
    }
  }

  /** One lender more: the package to `l` after the lenders `init`. */
  lemma FanOutStep(offers: seq<Offer>, init: seq<Lender>, l: Lender, pkg: LoanPackage, prev: seq<Offer>, r: seq<Offer>)
    requires RatesNonNegative(l) && pkg.term >= 1
    requires forall i :: 0 <= i < |offers| ==> offers[i].applicationId != pkg.applicationId
    requires FannedOut(offers, init, pkg, prev)
    requires r == if l.lenderType == BALANCE_SHEET then UpsertOffer(prev, AutoOffer(l, pkg)) else prev
    ensures FannedOut(offers, init + [l], pkg, r)
  {
    var ls := init + [l];
    assert forall x :: x in ls ==> x in init || x == l;
    assert forall x :: x in init ==> x in ls;
    if l.lenderType == BALANCE_SHEET {
      UpsertOffer_Properties(prev, AutoOffer(l, pkg));
      UpsertKeepsEarlier(offers, init, l, pkg, prev, r);
      UpsertAddsOwnRows(offers, init, l, pkg, prev, r);
      UpsertFindsEveryLender(offers, init, l, pkg, prev, r);
    }
  }

  /** The auto-offer to a balance-sheet lender leaves the rows before the
      new application untouched. */
  lemma UpsertKeepsEarlier(offers: seq<Offer>, init: seq<Lender>, l: Lender, pkg: LoanPackage, prev: seq<Offer>, r: seq<Offer>)
    requires RatesNonNegative(l) && pkg.term >= 1 && l.lenderType == BALANCE_SHEET
    requires forall i :: 0 <= i < |offers| ==> offers[i].applicationId != pkg.applicationId
    requires FannedOut(offers, init, pkg, prev)
    requires r == UpsertOffer(prev, AutoOffer(l, pkg))
    ensures |r| >= |offers| && r[..|offers|] == offers
  {
    var o := AutoOffer(l, pkg);
    UpsertOffer_Properties(prev, o);
    var found := FindOffer(prev, o.applicationId, o.lenderId);
    if found.Some? {
      assert found.value >= |offers|;
    }
    assert forall i :: 0 <= i < |offers| ==> r[i] == prev[i];
  }

  /** Every row after the earlier ones is a PENDING offer for the new
      application from a balance-sheet lender of `init + [l]`. */
  lemma UpsertAddsOwnRows(offers: seq<Offer>, init: seq<Lender>, l: Lender, pkg: LoanPackage, prev: seq<Offer>, r: seq<Offer>)
    requires RatesNonNegative(l) && pkg.term >= 1 && l.lenderType == BALANCE_SHEET
    requires FannedOut(offers, init, pkg, prev)
    requires r == UpsertOffer(prev, AutoOffer(l, pkg))
    ensures forall i :: |offers| <= i < |r| ==>
              r[i].applicationId == pkg.applicationId && r[i].status == Pending
              && exists x :: x in init + [l] && x.lenderType == BALANCE_SHEET && x.lenderId == r[i].lenderId
  {
    var ls := init + [l];
    var o := AutoOffer(l, pkg);
    UpsertOffer_Properties(prev, o);
    var found := FindOffer(prev, o.applicationId, o.lenderId);
    forall i | |offers| <= i < |r|
      ensures r[i].applicationId == pkg.applicationId && r[i].status == Pending
      ensures exists x :: x in ls && x.lenderType == BALANCE_SHEET && x.lenderId == r[i].lenderId
    {
      if i < |prev| && (found.None? || i != found.value) {
        assert r[i] == prev[i];
        assert forall x :: x in init ==> x in ls;
      } else {
        assert r[i].lenderId == l.lenderId && l in ls;
      }
    }
  }

  /** Every balance-sheet lender of `init + [l]` has an offer for the new
      application, and the key stays unique. */
  lemma UpsertFindsEveryLender(offers: seq<Offer>, init: seq<Lender>, l: Lender, pkg: LoanPackage, prev: seq<Offer>, r: seq<Offer>)
    requires RatesNonNegative(l) && pkg.term >= 1 && l.lenderType == BALANCE_SHEET
    requires FannedOut(offers, init, pkg, prev)
    requires r == UpsertOffer(prev, AutoOffer(l, pkg))
    ensures UniquePairs(r)
    ensures forall x :: x in init + [l] && x.lenderType == BALANCE_SHEET ==> FindOffer(r, pkg.applicationId, x.lenderId).Some?
  {
    var ls := init + [l];
    var o := AutoOffer(l, pkg);
    UpsertOffer_Properties(prev, o);
    forall x | x in ls && x.lenderType == BALANCE_SHEET
      ensures FindOffer(r, pkg.applicationId, x.lenderId).Some?
    {
      if x != l {
        assert x in init;
        var j := FindOffer(prev, pkg.applicationId, x.lenderId).value;
        assert r[j].applicationId == pkg.applicationId && r[j].lenderId == x.lenderId;
      }
    }
  }

  /** The offers table after acceptOffer settles offer `k`: it becomes
      ACCEPTED, the other PENDING offers of its application become DECLINED
      with "Another offer accepted", every other row is unchanged. */
  function SettleOffers(offers: seq<Offer>, k: nat): (r: seq<Offer>)
    requires k < |offers|
    ensures |r| == |offers|
  {
    seq(|offers|, i requires 0 <= i < |offers| =>
      if i == k then offers[i].(status := Accepted)
      else if offers[i].applicationId == offers[k].applicationId && offers[i].status == Pending
      then offers[i].(status := Declined, declineReason := "Another offer accepted")
      else offers[i])
  }

  /** After settling, the accepted offer is the only one of its application
      that is not DECLINED unless it was decided before; no offer of the
      application is left PENDING; other applications' offers, and every
      offer's terms, are untouched; the unique key still holds. */
  lemma SettleOffers_Properties(offers: seq<Offer>, k: nat)
    requires k < |offers|
    ensures var r := SettleOffers(offers, k);
            && r[k].status == Accepted
            && (forall i :: 0 <= i < |r| && r[i].applicationId == offers[k].applicationId ==> r[i].status != Pending)
            && (forall i :: (0 <= i < |r| && i != k && offers[i].status == Pending
                  && offers[i].applicationId == offers[k].applicationId) ==> r[i].status == Declined)
            && (forall i :: 0 <= i < |r| && offers[i].applicationId != offers[k].applicationId ==> r[i] == offers[i])
            && (forall i :: 0 <= i < |r| ==> r[i] == offers[i].(status := r[i].status, declineReason := r[i].declineReason))
            && (UniquePairs(offers) ==> UniquePairs(r))
  {
  }

  // ---------------------------------------------------------------------
  // The repayment schedule
  // ---------------------------------------------------------------------

  /** Row `n` (1-based) of a schedule, given the principal still owed before it. */
  function ScheduleRow(loanId: nat, userId: string, n: nat, remaining: real, rate: real, monthlyPayment: real): (row: Repayment)
    ensures row.paymentNumber == n && row.scheduledAmount == monthlyPayment && row.status == Scheduled
    ensures row.interestPortion == Interest(remaining, rate / 12.0)
    ensures row.principalPortion + row.interestPortion == monthlyPayment
  {
    var interest := Interest(remaining, rate / 12.0);
    Repayment(loanId, userId, n, monthlyPayment, monthlyPayment - interest, interest, Scheduled)
  }

  /** The rows createRepaymentSchedule writes: row i is payment i+1, with
      interest on the balance left after i instalments. */
  function ScheduleRows(loanId: nat, userId: string, principal: real, rate: real, monthlyPayment: real, term: nat): (rows: seq<Repayment>)
    ensures |rows| == term
  {
    seq(term, i requires 0 <= i < term =>
      ScheduleRow(loanId, userId, i + 1, Balance(principal, rate / 12.0, monthlyPayment, i), rate, monthlyPayment))
  }

  function SumPrincipal(rows: seq<Repayment>): real
    decreases |rows|
  {
    if rows == [] then 0.0 else SumPrincipal(rows[..|rows| - 1]) + rows[|rows| - 1].principalPortion
  }

  /** The first k rows retire exactly the principal the balance has lost. */
  lemma {:induction false} SchedulePrefixPrincipal(loanId: nat, userId: string, principal: real, rate: real,
                                                   monthlyPayment: real, term: nat, k: nat)
    requires k <= term
    ensures SumPrincipal(ScheduleRows(loanId, userId, principal, rate, monthlyPayment, term)[..k])
         == principal - Balance(principal, rate / 12.0, monthlyPayment, k)
  {
    var rows := ScheduleRows(loanId, userId, principal, rate, monthlyPayment, term);
    if k > 0 {
      SchedulePrefixPrincipal(loanId, userId, principal, rate, monthlyPayment, term, k - 1);
      var x := rate / 12.0;
      var b := Balance(principal, x, monthlyPayment, k - 1);
      assert rows[..k][..k - 1] == rows[..k - 1];
      assert SumPrincipal(rows[..k]) == SumPrincipal(rows[..k - 1]) + rows[k - 1].principalPortion;
      SchedulePortion(loanId, userId, principal, rate, monthlyPayment, term, k - 1);
      BalanceUnfold(principal, x, monthlyPayment, k);
      PrefixStep(SumPrincipal(rows[..k - 1]), SumPrincipal(rows[..k]), rows[k - 1].principalPortion,
                 principal, b, Balance(principal, x, monthlyPayment, k), monthlyPayment, Interest(b, x));
    }
  }

  /** Row i retires the payment less the interest on the balance after i instalments. */
  lemma SchedulePortion(loanId: nat, userId: string, principal: real, rate: real, monthlyPayment: real, term: nat, i: nat)
    requires i < term
    ensures var b := Balance(principal, rate / 12.0, monthlyPayment, i);
            ScheduleRows(loanId, userId, principal, rate, monthlyPayment, term)[i].principalPortion
              == monthlyPayment - Interest(b, rate / 12.0)
  {
    var b := Balance(principal, rate / 12.0, monthlyPayment, i);
    assert ScheduleRows(loanId, userId, principal, rate, monthlyPayment, term)[i]
        == ScheduleRow(loanId, userId, i + 1, b, rate, monthlyPayment);
  }

  /** One row of SchedulePrefixPrincipal over plain unknowns (`bx` is the interest). */
  lemma PrefixStep(before: real, after: real, portion: real, principal: real, b: real, bk: real, m: real, bx: real)
    requires before == principal - b && after == before + portion
    requires portion == m - bx && bk == b - (m - bx)
    ensures after == principal - bk
  {
  }

  /** A schedule at the amortized payment has `term` rows numbered 1..term,
      each for that payment, whose principal portions add up to the amount
      lent. */
  lemma ScheduleRepaysPrincipal(loanId: nat, userId: string, principal: real, rate: real, term: nat)
    requires rate >= 0.0 && term >= 1
    ensures var m := MonthlyPayment(principal, rate, term);
            var rows := ScheduleRows(loanId, userId, principal, rate, m, term);
            && |rows| == term
            && (forall i :: 0 <= i < term ==> rows[i].paymentNumber == i + 1 && rows[i].scheduledAmount == m)
            && SumPrincipal(rows) == principal
  {
    var m := MonthlyPayment(principal, rate, term);
    var rows := ScheduleRows(loanId, userId, principal, rate, m, term);
    SchedulePrefixPrincipal(loanId, userId, principal, rate, m, term, term);
    assert rows[..term] == rows;
    PaidOff(principal, rate, term);
  }

  // ---------------------------------------------------------------------
  // Lender responses
  // ---------------------------------------------------------------------

  /** The parameters of receiveLenderOffer; zero and "" stand for missing. */
  datatype LenderResponse = LenderResponse(
    applicationId: nat,
    lenderCode: string,
    accepted: bool,
    adjustedRate: real,
    adjustedTerm: nat,
    reason: string,
    lenderNotes: string,
    conditions: string)

  /** The first lender with the code, as `rows[0]` of the lookup. */
  function LenderByCode(lenders: seq<Lender>, code: string): (r: Option<Lender>)
    ensures r.Some? ==> r.value in lenders && r.value.code == code
    ensures r.None? ==> forall l :: l in lenders ==> l.code != code
  {
    if lenders == [] then None
    else if lenders[0].code == code then Some(lenders[0])
    else
      assert forall l :: l in lenders ==> l == lenders[0] || l in lenders[1..];
      LenderByCode(lenders[1..], code)
  }

  /** The rate of an accepted response: the lender's adjusted rate, else the
      application's recommended rate, else the lender's own rate for the
      application's score. */
  function ResponseRate(resp: LenderResponse, app: Application, lender: Lender): (rate: real)
    ensures resp.adjustedRate != 0.0 ==> rate == resp.adjustedRate
    ensures resp.adjustedRate == 0.0 && app.request.recommendedRate != 0.0 ==> rate == app.request.recommendedRate
    ensures resp.adjustedRate == 0.0 && app.request.recommendedRate == 0.0 ==> rate == CalculateLenderRate(lender, app.request.riskScore)
    ensures resp.adjustedRate >= 0.0 && app.request.recommendedRate >= 0.0 && RatesNonNegative(lender) ==> rate >= 0.0
  {
    OrElse(resp.adjustedRate, OrElse(app.request.recommendedRate, CalculateLenderRate(lender, app.request.riskScore)))
  }

  /** The term of an accepted response: adjusted, else recommended, else requested. */
  function ResponseTerm(resp: LenderResponse, app: Application): (term: nat)
    ensures resp.adjustedTerm != 0 ==> term == resp.adjustedTerm
    ensures resp.adjustedTerm == 0 && app.recommendedTerm != 0 ==> term == app.recommendedTerm
    ensures resp.adjustedTerm == 0 && app.recommendedTerm == 0 ==> term == app.request.requestedTerm
    ensures app.request.requestedTerm >= 1 ==> term >= 1
  {
    OrElseNat(resp.adjustedTerm, OrElseNat(app.recommendedTerm, app.request.requestedTerm))
  }

  datatype Acceptance = Acceptance(loanId: nat, offerId: nat, applicationId: nat)

  // ---------------------------------------------------------------------
  // The marketplace
  // ---------------------------------------------------------------------

  class Marketplace {
    var lenders: seq<Lender>
    var applications: seq<Application>
    var offers: seq<Offer>
    var loans: seq<Loan>
    var repayments: seq<Repayment>
    ghost var audit: seq<AuditEntry>

    /** Every offer belongs to a stored application, at most one per
        (application, lender); stored terms and rates allow an amortized
        payment to be computed. */
    ghost predicate Valid()
      reads this
    {
      && (forall i :: 0 <= i < |offers| ==> offers[i].applicationId < |applications|)
      && (forall i :: 0 <= i < |offers| ==> WellFormedOffer(offers[i]))
      && UniquePairs(offers)
      && (forall i :: 0 <= i < |applications| ==>
            applications[i].request.requestedTerm >= 1 && applications[i].request.recommendedRate >= 0.0)
      && AllRatesNonNegative(lenders)
    }

    constructor (lenders: seq<Lender>)
      requires AllRatesNonNegative(lenders)
      ensures Valid()
      ensures this.lenders == lenders && applications == [] && offers == [] && loans == [] && repayments == []
      ensures audit == []
    {
      this.lenders := lenders;
      applications := [];
      offers := [];
      loans := [];
      repayments := [];
      audit := [];
    }

    /** createLenderOffer: upsert the offer, move a SUBMITTED or UNDERWRITING
        application to OFFERS_RECEIVED, log the creation. */
    method CreateLenderOffer(applicationId: nat, lenderId: nat, amount: real, rate: real, term: nat,
                             lenderNotes: string, conditions: string) returns (offerId: nat)
      requires Valid() && applicationId < |applications| && rate >= 0.0 && term >= 1
      modifies this
      ensures Valid()
      ensures offers == UpsertOffer(old(offers), OfferTerms(applicationId, lenderId, amount, rate, term, lenderNotes, conditions))
      ensures offerId < |offers| && offers[offerId].applicationId == applicationId && offers[offerId].lenderId == lenderId
      ensures applications == old(applications)[applicationId := AfterOffer(old(applications)[applicationId])]
      ensures lenders == old(lenders) && loans == old(loans) && repayments == old(repayments)
      ensures audit == old(audit) + [AuditEntry("lender_offer", "create")]
    {
      var o := OfferTerms(applicationId, lenderId, amount, rate, term, lenderNotes, conditions);
      UpsertOffer_Properties(offers, o);
      var found := FindOffer(offers, applicationId, lenderId);
      offers := UpsertOffer(offers, o);
      offerId := if found.Some? then found.value else |offers| - 1;
      applications := applications[applicationId := AfterOffer(applications[applicationId])];
      audit := audit + [AuditEntry("lender_offer", "create")];
    }

    /** sendLoanPackageToLender: a balance-sheet lender gets an offer at its
        own rate for the package's score and nothing else is logged; any
        other lender is logged as notified. */
    method SendLoanPackageToLender(lender: Lender, pkg: LoanPackage)
      requires Valid() && RatesNonNegative(lender) && pkg.term >= 1 && pkg.applicationId < |applications|
      modifies this
      ensures Valid()
      ensures lender.lenderType == BALANCE_SHEET ==>
                offers == UpsertOffer(old(offers), AutoOffer(lender, pkg))
                && applications == old(applications)[pkg.applicationId := AfterOffer(old(applications)[pkg.applicationId])]
                && audit == old(audit) + [AuditEntry("lender_offer", "create")]
      ensures lender.lenderType != BALANCE_SHEET ==>
                offers == old(offers) && applications == old(applications)
                && audit == old(audit) + [AuditEntry("loan_application", "lender_notified")]
      ensures lenders == old(lenders) && loans == old(loans) && repayments == old(repayments)
    {
      if lender.lenderType == BALANCE_SHEET {
        var _ := CreateLenderOffer(pkg.applicationId, lender.lenderId, pkg.amount,
                                   CalculateLenderRate(lender, pkg.score), pkg.term, "", "");
        return;
      }
      audit := audit + [AuditEntry("loan_application", "lender_notified")];
    }

    /** submitToMarketplace: store the application, send the package to every
        eligible lender in rate order, then set the status to UNDERWRITING
        whatever the fan-out did. */
    method SubmitToMarketplace(p: Submission) returns (applicationId: nat)
      requires Valid() && p.requestedTerm >= 1 && p.recommendedRate >= 0.0
      modifies this
      ensures Valid()
      ensures applicationId == |old(applications)|
      ensures applications == old(applications) + [NewApplication(p).(status := Underwriting)]
      ensures offers == FanOutOffers(old(offers), EligibleLenders(lenders, p.loanAmount, OrElse(p.riskScore, 50.0)),
                                     PackageFor(p, applicationId))
      ensures audit == old(audit) + [AuditEntry("loan_application", "create")]
                       + FanOutAudit(EligibleLenders(lenders, p.loanAmount, OrElse(p.riskScore, 50.0)))
      ensures lenders == old(lenders) && loans == old(loans) && repayments == old(repayments)
    {
      applicationId := |applications|;
      var app := NewApplication(p);
      applications := applications + [app];
      audit := audit + [AuditEntry("loan_application", "create")];
      var eligible := EligibleLenders(lenders, p.loanAmount, OrElse(p.riskScore, 50.0));
      NotifyLenders(eligible, PackageFor(p, applicationId));
      applications := applications[applicationId := app.(status := Underwriting)];
    }

    /** The fan-out loop of submitToMarketplace: the package goes to each
        lender in turn. The application may pick up OFFERS_RECEIVED on the way. */
    method NotifyLenders(eligible: seq<Lender>, pkg: LoanPackage)
      requires Valid() && pkg.term >= 1 && pkg.applicationId < |applications|
      requires forall l :: l in eligible ==> l in lenders
      modifies this
      ensures Valid()
      ensures lenders == old(lenders) && loans == old(loans) && repayments == old(repayments)
      ensures |applications| == |old(applications)|
      ensures forall i :: 0 <= i < |applications| && i != pkg.applicationId ==> applications[i] == old(applications)[i]
      ensures applications[pkg.applicationId] == AfterOffer(old(applications)[pkg.applicationId])
              || applications[pkg.applicationId] == old(applications)[pkg.applicationId]
      ensures offers == FanOutOffers(old(offers), eligible, pkg)
      ensures audit == old(audit) + FanOutAudit(eligible)
    {
      assert AllRatesNonNegative(eligible);
      for i := 0 to |eligible|
        invariant Valid()
        invariant lenders == old(lenders) && loans == old(loans) && repayments == old(repayments)
        invariant |applications| == |old(applications)|
        invariant forall j :: 0 <= j < |applications| && j != pkg.applicationId ==> applications[j] == old(applications)[j]
        invariant applications[pkg.applicationId] == AfterOffer(old(applications)[pkg.applicationId])
                  || applications[pkg.applicationId] == old(applications)[pkg.applicationId]
        invariant offers == FanOutOffers(old(offers), eligible[..i], pkg)
        invariant audit == old(audit) + FanOutAudit(eligible[..i])
      {
        SendLoanPackageToLender(eligible[i], pkg);
        assert eligible[..i + 1][..i] == eligible[..i];
      }
      assert eligible[..|eligible|] == eligible;
    }

    /** receiveLenderOffer: an unknown lender code or application is an
        error and changes nothing; a decline is only logged; an acceptance
        becomes an offer for the application's amount at the response's
        rate and term. The result says whether the lender declined. */
    method ReceiveLenderOffer(resp: LenderResponse) returns (r: Result<bool, string>)
      requires Valid() && resp.adjustedRate >= 0.0
      modifies this
      ensures Valid()
      ensures lenders == old(lenders) && loans == old(loans) && repayments == old(repayments)
      ensures LenderByCode(lenders, resp.lenderCode).None? ==>
                r == Err("Unknown lender: " + resp.lenderCode) && unchanged(this)
      ensures LenderByCode(lenders, resp.lenderCode).Some? && resp.applicationId >= |old(applications)| ==>
                r == Err("Application not found") && unchanged(this)
      ensures LenderByCode(lenders, resp.lenderCode).Some? && resp.applicationId < |old(applications)| && !resp.accepted ==>
                r == Ok(true) && offers == old(offers) && applications == old(applications)
                && audit == old(audit) + [AuditEntry("loan_application", "lender_declined")]
      ensures LenderByCode(lenders, resp.lenderCode).Some? && resp.applicationId < |old(applications)| && resp.accepted ==>
                var lender := LenderByCode(lenders, resp.lenderCode).value;
                var app := old(applications)[resp.applicationId];
                && r == Ok(false)
                && offers == UpsertOffer(old(offers), OfferTerms(resp.applicationId, lender.lenderId, app.request.loanAmount,
                                           ResponseRate(resp, app, lender), ResponseTerm(resp, app),
                                           resp.lenderNotes, resp.conditions))
                && applications == old(applications)[resp.applicationId := AfterOffer(app)]
                && audit == old(audit) + [AuditEntry("lender_offer", "create")]
    {
      var found := LenderByCode(lenders, resp.lenderCode);
      if found.None? {
        return Err("Unknown lender: " + resp.lenderCode);
      }
      var lender := found.value;
      if resp.applicationId >= |applications| {
        return Err("Application not found");
      }
      var app := applications[resp.applicationId];
      if !resp.accepted {
        audit := audit + [AuditEntry("loan_application", "lender_declined")];
        return Ok(true);
      }
      var _ := CreateLenderOffer(resp.applicationId, lender.lenderId, app.request.loanAmount,
                                 ResponseRate(resp, app, lender), ResponseTerm(resp, app),
                                 resp.lenderNotes, resp.conditions);
      r := Ok(false);
    }

    /** acceptOffer, all or nothing: an offer that is not PENDING, or that
        belongs to another user's application, is an error and changes
        nothing; otherwise the offers are settled, the application records
        the selection, exactly one loan is created and its schedule written. */
    method AcceptOffer(offerId: nat, userId: string) returns (r: Result<Acceptance, string>)
      requires Valid()
      modifies this
      ensures Valid()
      ensures lenders == old(lenders)
      ensures (offerId >= |old(offers)| || old(offers)[offerId].status != Pending) ==>
                r == Err("Offer not found or no longer available") && unchanged(this)
      ensures offerId < |old(offers)| && old(offers)[offerId].status == Pending
              && old(applications)[old(offers)[offerId].applicationId].request.userId != userId ==>
                r == Err("Unauthorized") && unchanged(this)
      ensures (offerId < |old(offers)| && old(offers)[offerId].status == Pending
               && old(applications)[old(offers)[offerId].applicationId].request.userId == userId) ==> r.Ok?
      ensures r.Ok? ==> |old(repayments)| <= |repayments|
                        && SumPrincipal(repayments[|old(repayments)|..]) == old(offers)[offerId].approvedAmount
      ensures r.Ok? ==>
                var offer := old(offers)[offerId];
                var app := old(applications)[offer.applicationId];
                && offerId < |old(offers)| && offer.status == Pending && app.request.userId == userId
                && r.value == Acceptance(|old(loans)|, offerId, offer.applicationId)
                && offers == SettleOffers(old(offers), offerId)
                && applications == old(applications)[offer.applicationId :=
                                     app.(status := OfferSelected, selectedOffer := Some(offerId))]
                && loans == old(loans) + [NewLoan(offer, offerId, app)]
                && repayments == old(repayments) + ScheduleRows(|old(loans)|, app.request.userId, offer.approvedAmount,
                                                                offer.interestRate, offer.monthlyPayment, offer.term)
                && audit == old(audit)
      ensures r.Err? ==> unchanged(this)
    {
      if offerId >= |offers| || offers[offerId].status != Pending {
        return Err("Offer not found or no longer available");
      }
      var offer := offers[offerId];
      var app := applications[offer.applicationId];
      if app.request.userId != userId {
        return Err("Unauthorized");
      }
      SettleOffers_Properties(offers, offerId);
      offers := SettleOffers(offers, offerId);
      applications := applications[offer.applicationId := app.(status := OfferSelected, selectedOffer := Some(offerId))];
      var loanId := |loans|;
      loans := loans + [NewLoan(offer, offerId, app)];
      ghost var before := repayments;
      CreateRepaymentSchedule(loanId, app.request.userId, offer.approvedAmount, offer.interestRate,
                              offer.monthlyPayment, offer.term);
      ScheduleRepaysPrincipal(loanId, app.request.userId, offer.approvedAmount, offer.interestRate, offer.term);
      assert repayments[|before|..] == ScheduleRows(loanId, app.request.userId, offer.approvedAmount,
                                                    offer.interestRate, offer.monthlyPayment, offer.term);
      r := Ok(Acceptance(loanId, offerId, offer.applicationId));
    }

    /** createRepaymentSchedule: for payments 1..term, interest on the
        remaining principal at rate/12, the rest of the payment retires
        principal. */
    method CreateRepaymentSchedule(loanId: nat, userId: string, principal: real, rate: real,
                                   monthlyPayment: real, term: nat)
      modifies this
      ensures repayments == old(repayments) + ScheduleRows(loanId, userId, principal, rate, monthlyPayment, term)
      ensures lenders == old(lenders) && applications == old(applications) && offers == old(offers)
      ensures loans == old(loans) && audit == old(audit)
    {
      var remaining := principal;
      var monthlyRate := rate / 12.0;
      ghost var rows := ScheduleRows(loanId, userId, principal, rate, monthlyPayment, term);
      for i := 1 to term + 1
        invariant remaining == Balance(principal, monthlyRate, monthlyPayment, i - 1)
        invariant repayments == old(repayments) + rows[..i - 1]
        invariant lenders == old(lenders) && applications == old(applications) && offers == old(offers)
        invariant loans == old(loans) && audit == old(audit)
      {
        var interestPortion := remaining * monthlyRate;
        assert interestPortion == Interest(remaining, monthlyRate);
        var principalPortion := monthlyPayment - interestPortion;
        assert rows[i - 1] == Repayment(loanId, userId, i, monthlyPayment, principalPortion, interestPortion, Scheduled);
        repayments := repayments + [Repayment(loanId, userId, i, monthlyPayment, principalPortion, interestPortion, Scheduled)];
        assert rows[..i] == rows[..i - 1] + [rows[i - 1]];
        remaining := remaining - principalPortion;
      }
      assert rows[..term] == rows;
    }
  }

  /** acceptOffer looks only at the offer's status and the owner, never at
      the application's status: once an application is OFFER_SELECTED, a
      lender's later first offer is created PENDING (the OFFERS_RECEIVED
      guard leaves the status alone) and is itself acceptable, which would
      create a second loan for the same application. */
  lemma LateOfferStaysAcceptable(offers: seq<Offer>, app: Application, o: Offer)
    requires UniquePairs(offers) && app.status == OfferSelected
    requires o.status == Pending && FindOffer(offers, o.applicationId, o.lenderId).None?
    ensures AfterOffer(app).status == OfferSelected
    ensures var r := UpsertOffer(offers, o); |r| == |offers| + 1 && r[|offers|].status == Pending
  {
  }
}
