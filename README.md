# PaySick lending core in Dafny

PaySick finances medical procedures. This project models the core of its
backend and proves properties about it.

- **Healthcare risk engine** (`healthcare_risk.dfy`). It computes Probability of Default (PD), Loss Given Default
  (LGD), the expected-loss rate, the approve/review/decline decision,
  risk-adjusted pricing, the recommended term and the maximum approved amount.
  It also computes the scores that feed them: behavioural signals, provider
  performance, internal payment history, affordability, procedure necessity,
  the medical-aid tier and premium estimate, and model confidence.
- **Lender marketplace auction** (`marketplace_auction.dfy`, with the
  amortization arithmetic in `amortization.dfy`). It covers:
  - risk tiers and lender rates;
  - the eligibility filter and its ordering;
  - the fan-out of a new application to lenders, with automatic offers from
    the platform's balance-sheet lender;
  - the offer upsert keyed on (application, lender);
  - the atomic acceptance of one offer, which creates the loan and its
    declining-balance repayment schedule.

  The tables are sequences held in the class `Marketplace`, and a row's
  position is its id.
- **Approval bridge** (`approval_bridge.dfy`). It fills in house defaults for
  any underwriting results the caller did not supply, then submits to the
  marketplace.
- **Route rules.** Covered are:
  - bearer-token authentication (`auth.dfy`);
  - the lender webhook signature gate and the body guards of the marketplace
    routes (`marketplace_routes.dfy`);
  - the pay-in-three product (`plan_store.dfy`, `application_routes.dfy`,
    `payment_routes.dfy`): the R500–R850 bill guard, the score-60 approval
    rule, the three-instalment plan, and the manual payment that moves a plan
    towards completion.

Conventions:
- Money, rates and scores are `real`.
- JavaScript's `x || d` treats 0, "" and a missing value alike. The model
  writes these as `OrElse`, `OrElseNat` and `OrElseStr`, with 0 or "" as the
  missing value.
- A destructuring default applies only to `undefined`, so it is an `Option`.
- `Math.round` is `floor(x + 1/2)` (`Common.JsRound`).
- Random draws, JWT verification and HMAC are parameters.

Behaviours of the source that the model keeps as written, and that its
lemmas make visible:

- submitToMarketplace sets the application to UNDERWRITING at the end, with
  no guard on its status. This overwrites the OFFERS_RECEIVED status that
  an automatic balance-sheet offer has just set. A new application therefore
  always ends in UNDERWRITING, even when it already holds an offer
  (`MarketplaceAuction.Marketplace.SubmitToMarketplace`).
- The offer upsert's `DO UPDATE` leaves `status` alone. A lender that
  re-offers on a DECLINED or ACCEPTED offer changes its terms but not its
  status (`MarketplaceAuction.UpsertKeepsStatus`).
- acceptOffer checks only that the offer is PENDING and that the user owns
  it. It does not check the application's status. An offer that arrives
  after another was accepted is inserted as PENDING and can still be
  accepted, which creates a second loan for the same application
  (`MarketplaceAuction.LateOfferStaysAcceptable`).
- calculateRiskAssessment passes the procedure profile to
  calculateModelConfidence, but that profile never carries an `icd10_code`.
  The +0.15 known-procedure bonus therefore never applies, and the
  confidence of an assessment is at most 0.85 (`HealthcareRisk.Assess`).
- The bridge's default risk score ranges over 50..80. The demo score in the
  pay-in-three route ranges over 50..79, so it approves exactly when the
  draw is at least 1/3 (`ApplicationRoutes.DemoApprovalThreshold`).
- A third of the bill, to the cent, times three can exceed the bill. A paid-off R500 plan
  ends with an outstanding balance of −R0.01
  (`ApplicationRoutes.FiveHundredOverpaysByOneCent`).
- The webhook signature is compared only when NODE_ENV is production.
  Elsewhere any non-empty signature passes
  (`MarketplaceRoutes.SignatureIgnoredOutsideProduction`).

## Model

| member | source | states |
|---|---|---|
| HealthcareRisk.PdBand | backend/src/services/healthcare-risk.service.js:960-966 | each PD band holds exactly the PDs in its interval: ≤0.02, ≤0.05, ≤0.10, ≤0.20, above |
| HealthcareRisk.LgdBand | backend/src/services/healthcare-risk.service.js:968-974 | each LGD band holds exactly the LGDs in its interval: ≤0.20, ≤0.35, ≤0.50, ≤0.70, above |
| HealthcareRisk.HealthScoreBand | backend/src/services/healthcare-risk.service.js:976-981 | excellent iff ≥80, good iff in [60, 80), fair iff in [40, 60), poor iff <40 |
| HealthcareRisk.HealthScoreBandMonotone | backend/src/services/healthcare-risk.service.js:976-981 | a higher health score never lands in a worse band |
| HealthcareRisk.HealthPaymentScore | backend/src/services/healthcare-risk.service.js:938-955 | the rounded blend of five sub-scores, whose weights sum to one, lies in [0, 100] whenever every sub-score does |
| HealthcareRisk.InternalPaymentHistory | backend/src/services/healthcare-risk.service.js:347-365 | the score is in [0, 100]; the customer is new iff there are no payments, and a new customer scores 50 |
| HealthcareRisk.InternalPaymentMonotone | backend/src/services/healthcare-risk.service.js:352-362 | more on-time payments out of the same total never lower the score |
| HealthcareRisk.NecessityScore | backend/src/services/healthcare-risk.service.js:454-476 | 0.5, +0.2 for an emergency factor above 1, +0.15 for an oncology/cardiovascular/obstetrics category (case-insensitive substring); always in [0.5, 0.85] |
| HealthcareRisk.ProcedureRiskProfile | backend/src/services/healthcare-risk.service.js:425-447 | a found row gives its base PD/LGD risks with necessity in [0.5, 0.85]; no row gives 50/50 with necessity 0.6 |
| HealthcareRisk.ProviderPerformanceOf | backend/src/services/healthcare-risk.service.js:481-545 | the score is in [0, 100]; a missing id or row gives (50, not a partner, 0.05); only a found partner row is a network partner |
| HealthcareRisk.ProviderScoreFloor | backend/src/services/healthcare-risk.service.js:519-541 | no provider scores below 35, since the only penalty is −15 on the base 50 |
| HealthcareRisk.AnalyzeBehavioralSignals | backend/src/services/healthcare-risk.service.js:550-582 | the behavioural score lies in [0, 100], and in fact in [15, 90] |
| HealthcareRisk.NoBehaviorScore | backend/src/services/healthcare-risk.service.js:550-582 | an application with no behaviour data scores 85 from the defaults 180 s, 12h, desktop, consistent location, 2 edits |
| HealthcareRisk.MobileNeverLowers | backend/src/services/healthcare-risk.service.js:568-569 | switching the device to mobile never lowers the behavioural score |
| HealthcareRisk.HealthcareAffordability | backend/src/services/healthcare-risk.service.js:587-631 | DTI is 1 when income ≤ 0, else (debt + premium)/income; capacity = max(0, 0.30·disposable) ≥ 0; max loan = capacity·3·0.85; band high/medium/low/insufficient iff loan/3 is within 0.5·, 0.75·, 1·capacity or above it |
| HealthcareRisk.AffordabilityMonotoneInLoan | backend/src/services/healthcare-risk.service.js:613-628 | a larger loan never gets a better affordability score |
| HealthcareRisk.AffordabilityExample | backend/src/services/healthcare-risk.service.js:595-628 | income 15000, debt 2000, loan 9000, no premium: capacity 3900, band low |
| HealthcareRisk.EstimateMedicalAidPremium | backend/src/services/healthcare-risk.service.js:692-709 | on the lower-cased option ("essential" when empty): 4500 iff it mentions comprehensive; 3000 iff classic and not comprehensive; 1500 iff smart and none of comprehensive, classic, essential; 1000 iff basic and none of those nor smart; 2000 in every other case |
| HealthcareRisk.GetMedicalAidTier | backend/src/services/healthcare-risk.service.js:811-825 | none iff there is no scheme; with a scheme, on the lower-cased option: comprehensive iff it mentions comprehensive or executive; classic iff not those but classic or priority; essential iff none of those but essential or smart; basic iff none of the six keywords |
| HealthcareRisk.MedicalAidTierIgnoresCase | backend/src/services/healthcare-risk.service.js:814-824 | the tier does not depend on the option's letter case |
| HealthcareRisk.CalculatePD | backend/src/services/healthcare-risk.service.js:714-749 | pd = clamp(0.15·Σ weighted inverted components, 0.005, 0.15) to four decimals, so it stays in [0.005, 0.15]; its band comes from the unrounded value and is never very_high |
| HealthcareRisk.PdMissingIsFifty | backend/src/services/healthcare-risk.service.js:715-721 | missing PD inputs behave exactly like inputs of 50 |
| HealthcareRisk.PdMonotone | backend/src/services/healthcare-risk.service.js:723-736 | better scores (higher health/affordability/provider/behaviour, lower procedure risk) never raise PD |
| HealthcareRisk.CalculateLGD | backend/src/services/healthcare-risk.service.js:754-806 | the LGD is the clamped blend kept to four decimals: it stays in [0.20, 0.70], within 0.00005 of the unrounded value, and its band comes from the unrounded value and is never very_high |
| HealthcareRisk.MedicalAidRecoveryRisk | backend/src/services/healthcare-risk.service.js:764-775 | 0.8 without medical aid, else 0.2 comprehensive, 0.35 classic, 0.5 otherwise |
| HealthcareRisk.LgdFallsWithNecessity | backend/src/services/healthcare-risk.service.js:777-797 | a more necessary procedure never raises LGD when family support is non-negative |
| HealthcareRisk.NetworkPartnerLowersLgd | backend/src/services/healthcare-risk.service.js:783-797 | a network-partner provider never raises LGD |
| HealthcareRisk.MakeRiskDecision | backend/src/services/healthcare-risk.service.js:830-857 | approve iff rate ≤ 0.025, review iff in (0.025, 0.05], decline iff above; confidence 0.95/0.85/0.70/0.90 by the inclusive cut points |
| HealthcareRisk.DecisionOnlyOnLossRate | backend/src/services/healthcare-risk.service.js:830-857 | the decision ignores the PD and LGD arguments and depends on the loss rate alone |
| HealthcareRisk.DecisionMonotone | backend/src/services/healthcare-risk.service.js:832-856 | a higher loss rate never gets a more lenient decision |
| HealthcareRisk.RiskAdjustedPricing | backend/src/services/healthcare-risk.service.js:862-880 | rate = clamp(0.08 + 2·pd·lgd + 0.02 + 0.03, 0.15, 0.28), always in [0.15, 0.28] |
| HealthcareRisk.PricingMonotone | backend/src/services/healthcare-risk.service.js:862-880 | the rate is non-decreasing in pd·lgd |
| HealthcareRisk.RecommendedTerm | backend/src/services/healthcare-risk.service.js:885-896 | the term is 3, 4 or 6; 6 iff pd ≤ 0.03 and amount > 10000; 4 iff 0.03 < pd ≤ 0.05 and amount > 15000 |
| HealthcareRisk.RiskMultiplier | backend/src/services/healthcare-risk.service.js:903-913 | 1.0 iff pd ≤ 0.03, 0.85 iff pd in (0.03, 0.05], 0.70 iff pd in (0.05, 0.08], 0.50 iff pd > 0.08 |
| HealthcareRisk.MaxApprovedAmount | backend/src/services/healthcare-risk.service.js:901-916 | the amount is affordability max × multiplier rounded to a whole rand, and never negative |
| HealthcareRisk.MaxApprovedNonIncreasing | backend/src/services/healthcare-risk.service.js:901-916 | a higher PD never raises the approved amount |
| HealthcareRisk.ModelConfidence | backend/src/services/healthcare-risk.service.js:921-933 | the confidence is in [0.5, 0.95], and at most 0.85 without an ICD-10 code |
| HealthcareRisk.ExpectedLossRate | backend/src/services/healthcare-risk.service.js:106-109 | the loss rate is pd·lgd and, with both clamped, lies in [0.001, 0.105] |
| HealthcareRisk.ExpectedLossBounds | backend/src/services/healthcare-risk.service.js:106-109 | for clamped PD and LGD, 0.001 ≤ pd·lgd ≤ 0.105 |
| HealthcareRisk.WorstCaseIsDecline | backend/src/services/healthcare-risk.service.js:106-113 | the worst clamped borrower (pd 0.15, lgd 0.70) is declined |
| HealthcareRisk.Combine | backend/src/services/healthcare-risk.service.js:106-125 | keeps the affordability, PD and LGD it is given; expected loss = pd·lgd × exposure and the decision is taken on pd·lgd; the price is `RiskAdjustedPricing(pd, lgd)` over the 18% base, the term `RecommendedTerm(pd, amount)`, the approved amount `MaxApprovedAmount(max loan, pd)`, and confidence `ModelConfidence` without an ICD-10 code |
| HealthcareRisk.Assess | backend/src/services/healthcare-risk.service.js:48-199 | affordability is `HealthcareAffordability` with the premium estimate only when a scheme is named; PD is `CalculatePD` of the health, procedure, affordability, provider and behavioural scores; LGD is `CalculateLGD` of the scheme, tier, necessity, partner flag and family support (else 0.5); the loss rate is pd·lgd in [0.001, 0.105] and the decision is taken on it; the price is `RiskAdjustedPricing(pd, lgd)` in [0.15, 0.28], the term `RecommendedTerm(pd, amount)`, the approved amount `MaxApprovedAmount(max loan, pd)`, and confidence `ModelConfidence` without an ICD-10 code, so at most 0.85 |
| HealthcareRisk.CombineLowerPd | backend/src/services/healthcare-risk.service.js:115-124 | with the same LGD, loan and affordability, a lower PD never raises the price and, when the maximum loan is non-negative, never lowers the approved amount |
| HealthcareRisk.AssessHealthierNeverRiskier | backend/src/services/healthcare-risk.service.js:88-124 | a higher health payment score, all else equal, never raises PD, leaves LGD unchanged, never raises the price, and never lowers a non-negative approved amount |
| HealthcareRisk.CombineFollowsLoss | backend/src/services/healthcare-risk.service.js:106-115 | of two PD/LGD pairs, the one with the higher loss rate is never decided more leniently nor priced lower |
| HealthcareRisk.AssessFollowsLoss | backend/src/services/healthcare-risk.service.js:48-124 | of two applicants, the one with the higher expected-loss rate is never decided more leniently nor priced lower |
| Amortization.MonthlyPayment | backend/src/services/marketplace-auction.service.js:648-655 | at rate 0, payment × term = principal; a non-negative principal gives a non-negative payment |
| Amortization.BalanceClosedForm | backend/src/services/marketplace-auction.service.js:567-597 | after k instalments the balance b satisfies b·r = P·r·(1+r)^k − payment·((1+r)^k − 1) |
| Amortization.BalanceZeroRate | backend/src/services/marketplace-auction.service.js:567-597 | at rate 0 the balance after k instalments is P − k·payment |
| Amortization.PaidOff | backend/src/services/marketplace-auction.service.js:648-655 | the amortized payment brings the balance to exactly 0 after the term |
| Amortization.TotalCoversPrincipal | backend/src/services/marketplace-auction.service.js:648-655 | for a non-negative principal and rate, payment × term ≥ principal |
| MarketplaceAuction.GetRiskTier | backend/src/services/marketplace-auction.service.js:683-688 | a zero or missing score is MEDIUM; otherwise LOW iff ≥70, MEDIUM iff in [40, 70), HIGH iff <40 |
| MarketplaceAuction.RiskPremium | backend/src/services/marketplace-auction.service.js:664-675 | the tier's premium, or 0.02/0.05/0.10 when the lender's is zero or missing; never zero |
| MarketplaceAuction.CalculateLenderRate | backend/src/services/marketplace-auction.service.js:660-678 | the lender's rate is base + the tier's premium, and lies strictly above the base for non-negative rates |
| MarketplaceAuction.LenderRateDefaults | backend/src/services/marketplace-auction.service.js:664-675 | a lender with no premiums charges base + 2% / 5% / 10%, a missing score being priced as MEDIUM |
| MarketplaceAuction.LenderRateMonotone | backend/src/services/marketplace-auction.service.js:660-688 | with premiums ordered by tier, a better (non-zero) score never gets a higher rate |
| MarketplaceAuction.FilterEligible | backend/src/services/marketplace-auction.service.js:604-615 | a lender is kept iff it is active and its loan and score ranges contain the amount and score, ends included |
| MarketplaceAuction.SortByRate | backend/src/services/marketplace-auction.service.js:612 | the output is sorted by base rate and is a permutation of the input |
| MarketplaceAuction.EligibleLenders | backend/src/services/marketplace-auction.service.js:604-617 | exactly the eligible lenders (the same multiset as the filter), in ascending base rate |
| MarketplaceAuction.NewApplication | backend/src/services/marketplace-auction.service.js:64-140 | a new application stores the submission, its risk tier and term (recommended, else requested), status SUBMITTED and no selected offer |
| MarketplaceAuction.OfferTerms | backend/src/services/marketplace-auction.service.js:348-362 | a new offer is PENDING with the amortized payment for its amount, rate and term; that payment brings the balance to 0 over the term; total = payment × term ≥ amount; fee = 2.5% |
| MarketplaceAuction.NewLoan | backend/src/services/marketplace-auction.service.js:496-542 | the loan copies the offer's terms, is PENDING_DISBURSEMENT, with outstanding principal = principal and total outstanding = principal + origination fee |
| MarketplaceAuction.FindOffer | backend/src/services/marketplace-auction.service.js:382-383 | finds the row for an (application, lender) pair, or proves there is none |
| MarketplaceAuction.UpsertOffer_Properties | backend/src/services/marketplace-auction.service.js:367-408 | after the upsert there is still at most one row per pair and the pair has a row; a new pair is appended; an existing one takes the new terms and keeps its status and decline reason, all other rows unchanged |
| MarketplaceAuction.UpsertKeepsStatus | backend/src/services/marketplace-auction.service.js:382-393 | re-offering on an existing pair updates the rate but never the status |
| MarketplaceAuction.AfterOffer | backend/src/services/marketplace-auction.service.js:413-418 | only SUBMITTED and UNDERWRITING move to OFFERS_RECEIVED; every other status and every other field is kept |
| MarketplaceAuction.PackageFor | backend/src/services/marketplace-auction.service.js:156-175 | the package offers the amount at the recommended rate (else 20%), the recommended term (else requested), the given payment (else the amortized one), score (else 50), tier and affordability (else 60) |
| MarketplaceAuction.AutoOffer | backend/src/services/marketplace-auction.service.js:198-207 | the balance-sheet lender's offer is for the package's amount and term at that lender's own rate for the score |
| MarketplaceAuction.FanOutAuditNotified | backend/src/services/marketplace-auction.service.js:198-271 | each eligible lender leaves one audit entry, "lender_notified" exactly for those that are not the balance sheet |
| MarketplaceAuction.FanOutOffers_Properties | backend/src/services/marketplace-auction.service.js:155-176 | the fan-out keeps the old offers, adds only PENDING offers of this application from balance-sheet lenders, gives every eligible balance-sheet lender one, and keeps one row per pair (`FannedOut`) |
| MarketplaceAuction.SettleOffers_Properties | backend/src/services/marketplace-auction.service.js:478-492 | the chosen offer is ACCEPTED; every other PENDING offer of its application is DECLINED; none of that application's offers stays PENDING; other applications' offers and all terms are untouched |
| MarketplaceAuction.ScheduleRow | backend/src/services/marketplace-auction.service.js:568-597 | each row's interest is remaining × rate/12 and its principal and interest add up to the payment |
| MarketplaceAuction.ScheduleRows | backend/src/services/marketplace-auction.service.js:567-598 | the schedule has exactly `term` rows |
| MarketplaceAuction.SchedulePrefixPrincipal | backend/src/services/marketplace-auction.service.js:567-598 | the principal portions of the first k rows add up to the principal less the balance after k instalments |
| MarketplaceAuction.ScheduleRepaysPrincipal | backend/src/services/marketplace-auction.service.js:559-598 | with the amortized payment, the schedule's rows are numbered 1..term, each for the payment, and their principal portions add up to the principal |
| MarketplaceAuction.LenderByCode | backend/src/services/marketplace-auction.service.js:291-300 | finds a lender with the code, or proves there is none |
| MarketplaceAuction.ResponseRate | backend/src/services/marketplace-auction.service.js:325 | the rate is the lender's adjusted rate, else the application's recommended rate, else the lender's own rate for the score |
| MarketplaceAuction.ResponseTerm | backend/src/services/marketplace-auction.service.js:326 | the term is the adjusted term, else the recommended term, else the requested term, and is at least 1 |
| MarketplaceAuction.Marketplace.CreateLenderOffer | backend/src/services/marketplace-auction.service.js:348-432 | offers become the upsert of the new terms, the application moves as `AfterOffer` says, and one audit entry is added; nothing else changes |
| MarketplaceAuction.Marketplace.SendLoanPackageToLender | backend/src/services/marketplace-auction.service.js:196-272 | a balance-sheet lender gets its automatic offer; any other lender only leaves a "lender_notified" audit entry |
| MarketplaceAuction.Marketplace.NotifyLenders | backend/src/services/marketplace-auction.service.js:155-176 | after notifying the eligible lenders in order, offers and audit are exactly the fan-out's, and only this application may have moved |
| MarketplaceAuction.Marketplace.SubmitToMarketplace | backend/src/services/marketplace-auction.service.js:31-189 | the application is appended and ends in UNDERWRITING; offers are the fan-out to the eligible lenders ordered by rate; the audit gains "create" and one entry per lender |
| MarketplaceAuction.Marketplace.ReceiveLenderOffer | backend/src/services/marketplace-auction.service.js:279-343 | an unknown lender or application is an error with nothing changed; a decline is only audited; an acceptance upserts an offer for the application's amount at the response's rate and term |
| MarketplaceAuction.Marketplace.AcceptOffer | backend/src/services/marketplace-auction.service.js:457-554 | a missing/non-PENDING offer or a foreign user is an error with nothing changed, and a PENDING offer accepted by its owner always succeeds; on success the offer is accepted, its PENDING rivals are declined, the application is OFFER_SELECTED with that offer, exactly one loan is appended, and its full schedule is written, whose principal portions add up to the approved amount |
| MarketplaceAuction.Marketplace.CreateRepaymentSchedule | backend/src/services/marketplace-auction.service.js:559-599 | the loop appends exactly the declining-balance rows of `ScheduleRows` |
| MarketplaceAuction.LateOfferStaysAcceptable | backend/src/services/marketplace-auction.service.js:457-475 | an offer that arrives after another was accepted leaves the application OFFER_SELECTED but is stored PENDING, so acceptance would still take it |
| ApprovalBridge.DefaultRiskScore | backend/src/services/loan-approval-bridge.service.js:129-132 | the default score is a whole number in [50, 80] |
| ApprovalBridge.DefaultRiskScoreReachesAll | backend/src/services/loan-approval-bridge.service.js:129-132 | every whole score from 50 to 80 is reachable |
| ApprovalBridge.DefaultRate | backend/src/services/loan-approval-bridge.service.js:137-148 | 20% for score ≥ 70, 23% for ≥ 40, 28% below |
| ApprovalBridge.DefaultRateMatchesLenderRate | backend/src/services/loan-approval-bridge.service.js:137-148 | for non-zero scores the house rate equals the auction's rate for an 18% lender with default premiums: the two services share their tier cut points |
| ApprovalBridge.CalculatePayment | backend/src/services/loan-approval-bridge.service.js:153-160 | the bridge's own copy of the formula equals the auction's amortized payment |
| ApprovalBridge.ToSubmission | backend/src/services/loan-approval-bridge.service.js:72-108 | supplied values pass through unchanged; missing ones become a default score, affordability 60, income 0, UNKNOWN employment, the house rate for the score, the requested term and the amortized payment |
| ApprovalBridge.QuickRequest | backend/src/services/loan-approval-bridge.service.js:115-123 | the quick request carries only user, provider, procedure, amount and term |
| ApprovalBridge.QuickSubmissionDefaults | backend/src/services/loan-approval-bridge.service.js:115-123 | a quick submission has score in [50, 80], a LOW or MEDIUM tier, rate 20% or 23%, the requested term, and a payment that pays the loan off |
| ApprovalBridge.SendToMarketplace | backend/src/services/loan-approval-bridge.service.js:41-109 | submits the defaulted submission: one application appended in UNDERWRITING, offers the fan-out to the eligible lenders, the audit gains "create" and one entry per lender; lenders, loans and repayments unchanged |
| ApprovalBridge.QuickSubmit | backend/src/services/loan-approval-bridge.service.js:115-123 | the same as sending the quick request: its application appended in UNDERWRITING, its fan-out offers and audit; lenders, loans and repayments unchanged |
| HttpAuth.BearerToken | backend/src/routes/marketplace.js:30-31 | the token is the second space-separated word of a non-empty header, when that word is non-empty |
| HttpAuth.BearerTokenOfScheme | backend/src/routes/marketplace.js:30-31 | "Bearer t" and "Bearer t …" both yield t |
| HttpAuth.BareTokenRejected | backend/src/routes/marketplace.js:30-35 | a header with no space carries no token |
| HttpAuth.Authenticate | backend/src/routes/marketplace.js:30-46 | no token gives 401, a token that fails verification gives 403, otherwise the token is accepted |
| MarketplaceRoutes.ActiveLenderKey | backend/src/routes/marketplace.js:60-68 | a key is found iff some active lender has the code, and it is that lender's key |
| MarketplaceRoutes.WebhookGate | backend/src/routes/marketplace.js:51-89 | a missing signature or code, or an unknown or inactive lender, is always 401; the call passes iff those hold and, in production, the signature matches the HMAC under the key (or "default-key") |
| MarketplaceRoutes.SignatureIgnoredOutsideProduction | backend/src/routes/marketplace.js:79-82 | outside production any two non-empty signatures get the same answer |
| MarketplaceRoutes.ProductionNeedsSignature | backend/src/routes/marketplace.js:79-82 | in production an active lender's call passes iff its signature is the expected one |
| MarketplaceRoutes.ValidateSubmission | backend/src/routes/marketplace.js:139-173 | missing fields give 400 first; the body is accepted iff the amount is in [1000, 500000] and the term in [3, 60], and the request handed on carries exactly the user, body and metadata fields |
| MarketplaceRoutes.SubmitApplication | backend/src/routes/marketplace.js:124-186 | an authentication or validation failure changes nothing, and a request that passes both always succeeds; success appends the bridge's application and its fan-out offers and audit, and leaves lenders, loans and repayments alone |
| MarketplaceRoutes.ValidateWebhook | backend/src/routes/marketplace.js:403-419 | the three fields must be present and the decision ACCEPT or DECLINE; the response passed on is an acceptance exactly when the decision is ACCEPT |
| MarketplaceRoutes.ValidateManualOffer | backend/src/routes/marketplace.js:477-482 | the body is accepted iff the application id, lender code and a boolean `accepted` are present; the flag is passed on as given |
| MarketplaceRoutes.WebhookMatchesManualEntry | backend/src/routes/marketplace.js:403-491 | a webhook decision and the matching manual entry give the service the same response |
| MarketplaceRoutes.Forward | backend/src/routes/marketplace.js:421-437 | the outcome `Forwarded`: an unknown lender or application is a 500 with the service's message and nothing changed; a decline is audited and answered with the decline message; an acceptance upserts the priced offer, moves the application on, is audited and answered with the acceptance message; lenders, loans and repayments never change |
| MarketplaceRoutes.HandleOfferWebhook | backend/src/routes/marketplace.js:390-441 | a failed signature gate or body guard changes nothing; once both pass, the answer and the new state are the `Forwarded` outcome of the validated response, and success answers "Offer recorded" or "Decline recorded" by the decision |
| MarketplaceRoutes.HandleManualOffer | backend/src/routes/marketplace.js:464-505 | a failed admin authentication or body guard changes nothing; once both pass, the answer and the new state are the `Forwarded` outcome of the validated response, and success answers "Offer created" or "Decline recorded" by the flag |
| PaymentPlans.ScheduledPayments | backend/src/routes/applications.js:107-114 | three payments numbered 1..3, due 1..3 months ahead, each for the monthly amount and scheduled |
| PaymentPlans.AfterPayment | backend/src/routes/payments.js:165-179 | one more payment made, the amount moved from outstanding to paid (their sum kept), and completed with a completion date iff payments made + 1 ≥ number of payments |
| PaymentPlans.AfterPaymentsSummary | backend/src/routes/payments.js:165-179 | after any run of payments the counters have moved by its length and total, and the plan is completed iff the run reached the number of payments |
| PaymentPlans.FreshPlanCompletesOnThird | backend/src/routes/payments.js:165-179 | a new plan stays active after one and two payments and is completed by the third, with 3 × monthly paid |
| PaymentPlans.FindUser | backend/src/routes/applications.js:45-52 | finds the user row, or proves there is none |
| ApplicationRoutes.ValidateApplication | backend/src/routes/applications.js:36-42 | missing fields give 400 first; the body is accepted iff treatment and provider are given and the bill is in [500, 850] |
| ApplicationRoutes.DemoRiskScore | backend/src/routes/applications.js:59 | the demo score is a whole number in [50, 79] |
| ApplicationRoutes.DemoApprovalThreshold | backend/src/routes/applications.js:59-62 | the demo score reaches 60 exactly when the draw is at least 1/3 |
| ApplicationRoutes.Decide | backend/src/routes/applications.js:62-64 | approved iff score ≥ 60; approved sets the amount to the bill and the monthly payment to a third of it to the cent; under review sets neither |
| ApplicationRoutes.InstalmentsCoverBill | backend/src/routes/applications.js:64 | three instalments of a third of the bill, rounded to the cent, are within 1.5 cents of the bill |
| ApplicationRoutes.FiveHundredOverpaysByOneCent | backend/src/routes/applications.js:64 | a R500 bill gives R166.67 instalments, and the paid-off plan ends at −R0.01 outstanding |
| ApplicationRoutes.CreatePlan | backend/src/routes/applications.js:93-117 | appends one plan of three payments for the bill and exactly its three scheduled instalments |
| ApplicationRoutes.CreateApplication | backend/src/routes/applications.js:25-131 | authentication, validation, an unknown user (404) and an inactive user (403) change nothing, and an active user's valid request always succeeds; the application is appended with its decision, and only an approved one gets its plan and instalments |
| PaymentRoutes.Paid | backend/src/routes/payments.js:155-162 | the payment becomes paid, with its payment date set and the debit order successful, and keeps all other fields |
| PaymentRoutes.PaymentTransaction | backend/src/routes/payments.js:182-196 | the transaction is completed, for the payment's amount, typed by the payment method or "manual_payment" |
| PaymentRoutes.Pay | backend/src/routes/payments.js:128-209 | a payment not owned by the user gives 404 and an already-paid one 400, with nothing changed; an authenticated owner's unpaid payment always succeeds: it is paid, its plan moves by the payment's own amount (the body's amount is ignored), and exactly one transaction is appended |

## Left out

- I/O: SQL queries and transactions, console logging, the EventEmitter
  events, and the webhook HTTP dispatch, which is commented out in the
  source. Tables are sequences, and the audit log is a ghost sequence of
  (entity, action) pairs.
- Wall-clock time: the offers deadline, the 24-hour offer expiry, and the
  scheduled dates. Payments are kept as due 1..n months ahead.
- Randomness: `Math.random`, in the default and demo risk scores, is a
  parameter `u` in [0, 1).
- JWT verification and HMAC-SHA-256 (RFC 2104): these are function
  parameters.
- The 500 answer when a database call throws, other than the service's own
  errors.
- Concurrency between competing acceptOffer calls. Each call is one atomic
  method.
- IEEE-754 floating point: money and rates are exact reals. `toFixed(2)` is
  modelled as half-up rounding to the cent, which can differ from the binary
  result at exact half-cents.
- getOrCreateHealthScore, fetchHealthDataSources, and the simulated
  medical-aid and adherence scores: their rows are inputs to
  `HealthcareRisk.Assess`. The same holds for the lookups in
  getProcedureRiskProfile and getProviderPerformance, whose query results
  arrive as `Option` rows. storeRiskAssessment and the portfolio and
  distribution reports are left out too.
- getApplicationOffers, getPendingApplications, and the read-only GET routes:
  these are listings with no logic to verify.
- The marketplace's own loan-servicing routes, and the other route files
  (users, providers, risk): CRUD plumbing and reports.
- Rows identified by UUIDs are identified by their position. An id that is
  "missing" in a request body is `None`.
- Amortization.MonthlyPayment: requires a non-negative rate and a term of at
  least 1. The source divides by zero for a term of 0; a negative rate is
  priced by the same formula. Nothing in the source produces a negative rate
  or a zero term except unchecked lender input.
- MarketplaceAuction.Marketplace.ReceiveLenderOffer: requires a
  non-negative adjusted rate. The webhook and manual routes do not check
  it.
- MarketplaceRoutes.HandleOfferWebhook: requires a non-negative adjusted
  rate, for the same reason.
- MarketplaceRoutes.HandleManualOffer: requires a non-negative adjusted
  rate, for the same reason.
- MarketplaceRoutes.Forward: requires a non-negative adjusted rate, for the
  same reason.
- ApprovalBridge.ToSubmission: requires a non-negative supplied rate and a
  requested term of at least 1. The routes that call the bridge guarantee the
  term.
- ApprovalBridge.SendToMarketplace: requires a non-negative supplied rate
  and a requested term of at least 1, as for `ToSubmission`.
- MarketplaceAuction.SortByRate: lenders with equal base rates may come out
  in any order. SQL's `ORDER BY` does not fix that order either, so the
  contract states sortedness and permutation only.
- The recommended term passed to lenders is taken as a whole number of
  months, and terms are naturals throughout.
