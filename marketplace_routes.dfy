/** The request guards of the marketplace routes: the lender webhook
    signature gate, and the checks that POST /applications,
    POST /webhooks/offer-response and POST /admin/manual-offers make before
    they call the services.

    HMAC-SHA-256 is a parameter (`hmac`); the NODE_ENV test is the boolean
    `production`. */
module MarketplaceRoutes {
  import opened Common
  import opened MarketplaceAuction
  import opened ApprovalBridge
  import opened HttpAuth

  // ---------------------------------------------------------------------
  // Webhook signature gate
  // ---------------------------------------------------------------------

  /** The key of the first active lender with the code, "" when its key is empty. */
  function ActiveLenderKey(lenders: seq<Lender>, code: string): (r: Option<string>)
    ensures r.Some? <==> exists l :: l in lenders && l.code == code && l.active
    ensures r.Some? ==> exists l :: l in lenders && l.code == code && l.active && l.apiKeyEncrypted == r.value
  {
    if lenders == [] then None
    else if lenders[0].code == code && lenders[0].active then Some(lenders[0].apiKeyEncrypted)
    else
      assert forall l :: l in lenders ==> l == lenders[0] || l in lenders[1..];
      ActiveLenderKey(lenders[1..], code)
  }

  /** The signature a lender's webhook call must carry: HMAC of the payload
      under the lender's key, or under "default-key" when it has none. */
  function ExpectedSignature(key: string, payload: string, hmac: (string, string) -> string): string {
    hmac(OrElseStr(key, "default-key"), payload)
  }

  /** validateWebhookSignature. A missing signature or lender code, and an
      unknown or inactive lender, are always rejected; a wrong signature is
      rejected only in production. */
  function WebhookGate(lenders: seq<Lender>, signature: string, lenderCode: string, payload: string,
                       production: bool, hmac: (string, string) -> string): (r: Result<(), HttpError>)
    ensures (signature == "" || lenderCode == "") ==> r == Err(HttpError(401, "Missing signature or lender code"))
    ensures signature != "" && lenderCode != "" && ActiveLenderKey(lenders, lenderCode).None? ==>
              r == Err(HttpError(401, "Unknown lender"))
    ensures r.Ok? <==> (signature != "" && lenderCode != "" && ActiveLenderKey(lenders, lenderCode).Some?
                        && (!production || signature == ExpectedSignature(ActiveLenderKey(lenders, lenderCode).value, payload, hmac)))
    ensures r.Err? ==> r.error.status == 401
  {
    if signature == "" || lenderCode == "" then Err(HttpError(401, "Missing signature or lender code"))
    else match ActiveLenderKey(lenders, lenderCode)
      case None => Err(HttpError(401, "Unknown lender"))
      case Some(key) =>
        if production && signature != ExpectedSignature(key, payload, hmac) then Err(HttpError(401, "Invalid signature"))
        else Ok(())
  }

  /** Outside production the signature's value is never looked at: any two
      non-empty signatures get the same answer. */
  lemma SignatureIgnoredOutsideProduction(lenders: seq<Lender>, s1: string, s2: string, lenderCode: string,
                                          payload: string, hmac: (string, string) -> string)
    requires s1 != "" && s2 != ""
    ensures WebhookGate(lenders, s1, lenderCode, payload, false, hmac) == WebhookGate(lenders, s2, lenderCode, payload, false, hmac)
  {
  }

  /** In production a known, active lender's call passes exactly when it
      carries the expected signature. */
  lemma ProductionNeedsSignature(lenders: seq<Lender>, l: Lender, signature: string, payload: string,
                                 hmac: (string, string) -> string)
    requires l in lenders && l.active && l.code != "" && signature != ""
    ensures WebhookGate(lenders, signature, l.code, payload, true, hmac).Ok?
            <==> signature == ExpectedSignature(ActiveLenderKey(lenders, l.code).value, payload, hmac)
  {
  }

  // ---------------------------------------------------------------------
  // POST /applications
  // ---------------------------------------------------------------------

  /** The body fields the route reads; "" and 0 stand for missing ones. */
  datatype SubmissionBody = SubmissionBody(
    providerId: string,
    procedureType: string,
    procedureCode: string,
    procedureDescription: string,
    loanAmount: real,
    requestedTerm: int,
    monthlyIncome: real,
    employmentStatus: string,
    employmentDurationMonths: nat)

  /** The guards of POST /applications, and on success the request it hands
      to the bridge: amounts from R1,000 to R500,000 and terms from 3 to 60
      months, both ends included. */
  function ValidateSubmission(body: SubmissionBody, userId: string, ip: string, userAgent: string): (r: Result<BridgeRequest, HttpError>)
    ensures (body.procedureType == "" || body.loanAmount == 0.0 || body.requestedTerm == 0) ==>
              r == Err(HttpError(400, "Required fields missing"))
    ensures r.Ok? <==> body.procedureType != "" && 1000.0 <= body.loanAmount <= 500000.0 && 3 <= body.requestedTerm <= 60
    ensures r.Err? ==> r.error.status == 400
    ensures r.Ok? ==> var q := r.value;
              && q.userId == userId && q.providerId == body.providerId && q.procedureType == body.procedureType
              && q.procedureCode == body.procedureCode && q.procedureDescription == body.procedureDescription
              && q.loanAmount == body.loanAmount && q.requestedTerm == body.requestedTerm
              && q.existingMonthlyIncome == body.monthlyIncome && q.existingEmploymentStatus == body.employmentStatus
              && q.existingEmploymentDurationMonths == body.employmentDurationMonths
              && q.ipAddress == ip && q.userAgent == userAgent
              && q.existingRiskScore == 0.0 && q.existingRecommendedRate == 0.0
              && q.existingRecommendedTerm == 0 && q.existingMonthlyPayment == 0.0
  {
    if body.procedureType == "" || body.loanAmount == 0.0 || body.requestedTerm == 0 then
      Err(HttpError(400, "Required fields missing"))
    else if body.loanAmount < 1000.0 || body.loanAmount > 500000.0 then
      Err(HttpError(400, "Loan amount must be between R1,000 and R500,000"))
    else if body.requestedTerm < 3 || body.requestedTerm > 60 then
      Err(HttpError(400, "Loan term must be between 3 and 60 months"))
    else
      Ok(BridgeRequest(userId, body.providerId, body.procedureType, body.procedureCode, body.procedureDescription,
                       body.loanAmount, body.requestedTerm as nat,
                       0.0, 0.0, 0.0, body.monthlyIncome, body.employmentStatus, body.employmentDurationMonths,
                       0.0, 0, 0.0, "", 0.0, ip, userAgent))
  }

  /** POST /applications: authentication, then the body guards; every
      rejection changes nothing, and an accepted body is submitted through
      the bridge. `userId` is the user the verified token names. */
  method SubmitApplication(market: Marketplace, header: string, tokenValid: string -> bool, userId: string,
                           body: SubmissionBody, ip: string, userAgent: string, u: real)
    returns (r: Result<nat, HttpError>)
    requires market.Valid() && 0.0 <= u < 1.0
    modifies market
    ensures market.Valid()
    ensures Authenticate(header, tokenValid, USER_TOKEN_MISSING).Err? ==>
              r == Err(Authenticate(header, tokenValid, USER_TOKEN_MISSING).error) && unchanged(market)
    ensures Authenticate(header, tokenValid, USER_TOKEN_MISSING).Ok? && ValidateSubmission(body, userId, ip, userAgent).Err? ==>
              r == Err(ValidateSubmission(body, userId, ip, userAgent).error) && unchanged(market)
    ensures Authenticate(header, tokenValid, USER_TOKEN_MISSING).Ok? && ValidateSubmission(body, userId, ip, userAgent).Ok? ==>
              r.Ok?
    ensures r.Ok? ==>
              var p := ToSubmission(ValidateSubmission(body, userId, ip, userAgent).value, u);
              var eligible := EligibleLenders(old(market.lenders), p.loanAmount, OrElse(p.riskScore, 50.0));
              && ValidateSubmission(body, userId, ip, userAgent).Ok?
              && r.value == |old(market.applications)|
              && market.applications == old(market.applications) + [NewApplication(p).(status := Underwriting)]
              && market.offers == FanOutOffers(old(market.offers), eligible, PackageFor(p, r.value))
              && market.audit == old(market.audit) + [AuditEntry("loan_application", "create")] + FanOutAudit(eligible)
              && market.lenders == old(market.lenders)
              && market.loans == old(market.loans) && market.repayments == old(market.repayments)
  {
    var auth := Authenticate(header, tokenValid, USER_TOKEN_MISSING);
    if auth.Err? {
      return Err(auth.error);
    }
    var v := ValidateSubmission(body, userId, ip, userAgent);
    if v.Err? {
      return Err(v.error);
    }
    var applicationId := SendToMarketplace(market, v.value, u);
    return Ok(applicationId);
  }

  // ---------------------------------------------------------------------
  // Lender responses: webhook and manual entry
  // ---------------------------------------------------------------------

  /** The webhook body; a missing application id is None, "" and 0 stand
      for the other missing fields. */
  datatype WebhookBody = WebhookBody(
    applicationId: Option<nat>,
    lenderCode: string,
    decision: string,
    adjustedRate: real,
    adjustedTerm: nat,
    declineReason: string,
    lenderNotes: string,
    conditions: string)

  /** The guards of POST /webhooks/offer-response: all three required fields,
      a decision of ACCEPT or DECLINE, and the response handed on is an
      acceptance exactly when the decision is ACCEPT. */
  function ValidateWebhook(body: WebhookBody): (r: Result<LenderResponse, HttpError>)
    ensures (body.applicationId.None? || body.lenderCode == "" || body.decision == "") ==>
              r == Err(HttpError(400, "Missing required fields"))
    ensures r.Ok? <==> body.applicationId.Some? && body.lenderCode != "" && (body.decision == "ACCEPT" || body.decision == "DECLINE")
    ensures r.Err? ==> r.error.status == 400
    ensures r.Ok? ==> r.value.accepted == (body.decision == "ACCEPT")
    ensures r.Ok? ==> r.value.applicationId == body.applicationId.value && r.value.lenderCode == body.lenderCode
                      && r.value.adjustedRate == body.adjustedRate && r.value.adjustedTerm == body.adjustedTerm
                      && r.value.reason == body.declineReason && r.value.lenderNotes == body.lenderNotes
                      && r.value.conditions == body.conditions
  {
    if body.applicationId.None? || body.lenderCode == "" || body.decision == "" then
      Err(HttpError(400, "Missing required fields"))
    else if body.decision != "ACCEPT" && body.decision != "DECLINE" then
      Err(HttpError(400, "Decision must be ACCEPT or DECLINE"))
    else
      Ok(LenderResponse(body.applicationId.value, body.lenderCode, body.decision == "ACCEPT",
                        body.adjustedRate, body.adjustedTerm, body.declineReason, body.lenderNotes, body.conditions))
  }

  /** The manual-offer body; `accepted` is None when it is not a boolean. */
  datatype ManualOfferBody = ManualOfferBody(
    applicationId: Option<nat>,
    lenderCode: string,
    accepted: Option<bool>,
    adjustedRate: real,
    adjustedTerm: nat,
    reason: string,
    lenderNotes: string,
    conditions: string)

  /** The guards of POST /admin/manual-offers: an application id, a lender
      code and a boolean `accepted`, which is handed on as it is. */
  function ValidateManualOffer(body: ManualOfferBody): (r: Result<LenderResponse, HttpError>)
    ensures r.Ok? <==> body.applicationId.Some? && body.lenderCode != "" && body.accepted.Some?
    ensures r.Err? ==> r == Err(HttpError(400, "Missing required fields"))
    ensures r.Ok? ==> r.value.accepted == body.accepted.value
    ensures r.Ok? ==> r.value.applicationId == body.applicationId.value && r.value.lenderCode == body.lenderCode
                      && r.value.adjustedRate == body.adjustedRate && r.value.adjustedTerm == body.adjustedTerm
                      && r.value.reason == body.reason && r.value.lenderNotes == body.lenderNotes
                      && r.value.conditions == body.conditions
  {
    if body.applicationId.None? || body.lenderCode == "" || body.accepted.None? then
      Err(HttpError(400, "Missing required fields"))
    else
      Ok(LenderResponse(body.applicationId.value, body.lenderCode, body.accepted.value,
                        body.adjustedRate, body.adjustedTerm, body.reason, body.lenderNotes, body.conditions))
  }

  /** A webhook decision and the equivalent manual entry hand the service the
      same response. */
  lemma WebhookMatchesManualEntry(body: WebhookBody)
    requires ValidateWebhook(body).Ok?
    ensures ValidateManualOffer(ManualOfferBody(body.applicationId, body.lenderCode, Some(body.decision == "ACCEPT"),
                                                body.adjustedRate, body.adjustedTerm, body.declineReason,
                                                body.lenderNotes, body.conditions))
            == ValidateWebhook(body)
  {
  }

  /** The outcome of handing a validated response to the auction service:
      an unknown lender or application is a 500 carrying the service's
      message and changes nothing; a decline is logged and answered with
      `declinedMessage`; an acceptance upserts the offer priced for the
      application's amount, moves the application on, is logged, and is
      answered with `acceptedMessage`. Lenders, loans and repayments never
      change. */
  twostate predicate Forwarded(market: Marketplace, resp: LenderResponse, acceptedMessage: string,
                               declinedMessage: string, new r: Result<string, HttpError>)
    requires old(market.Valid()) && resp.adjustedRate >= 0.0
    reads market
  {
    var found := LenderByCode(old(market.lenders), resp.lenderCode);
    if found.None? then
      r == Err(HttpError(500, "Unknown lender: " + resp.lenderCode)) && unchanged(market)
    else if resp.applicationId >= |old(market.applications)| then
      r == Err(HttpError(500, "Application not found")) && unchanged(market)
    else
      && market.lenders == old(market.lenders) && market.loans == old(market.loans)
      && market.repayments == old(market.repayments)
      && if !resp.accepted then
           && r == Ok(declinedMessage)
           && market.offers == old(market.offers) && market.applications == old(market.applications)
           && market.audit == old(market.audit) + [AuditEntry("loan_application", "lender_declined")]
         else
           var app := old(market.applications)[resp.applicationId];
           && r == Ok(acceptedMessage)
           && market.offers == UpsertOffer(old(market.offers),
                OfferTerms(resp.applicationId, found.value.lenderId, app.request.loanAmount,
                           ResponseRate(resp, app, found.value), ResponseTerm(resp, app),
                           resp.lenderNotes, resp.conditions))
           && market.applications == old(market.applications)[resp.applicationId := AfterOffer(app)]
           && market.audit == old(market.audit) + [AuditEntry("lender_offer", "create")]
  }

  /** Passes a validated response to the auction service; a service error
      becomes a 500 carrying its message, and changes nothing. */
  method Forward(market: Marketplace, resp: LenderResponse, acceptedMessage: string, declinedMessage: string)
    returns (r: Result<string, HttpError>)
    requires market.Valid() && resp.adjustedRate >= 0.0
    modifies market
    ensures market.Valid()
    ensures Forwarded(market, resp, acceptedMessage, declinedMessage, r)
  {
    var result := market.ReceiveLenderOffer(resp);
    match result
    case Err(message) =>
      r := Err(HttpError(500, message));
    case Ok(_) =>
      r := Ok(if resp.accepted then acceptedMessage else declinedMessage);
  }

  /** POST /webhooks/offer-response: the signature gate, then the body
      guards, then the auction service. Every rejection changes nothing. */
  method HandleOfferWebhook(market: Marketplace, signature: string, payload: string, production: bool,
                            hmac: (string, string) -> string, body: WebhookBody)
    returns (r: Result<string, HttpError>)
    requires market.Valid() && body.adjustedRate >= 0.0
    modifies market
    ensures market.Valid()
    ensures WebhookGate(old(market.lenders), signature, body.lenderCode, payload, production, hmac).Err? ==>
              r == Err(WebhookGate(old(market.lenders), signature, body.lenderCode, payload, production, hmac).error)
              && unchanged(market)
    ensures WebhookGate(old(market.lenders), signature, body.lenderCode, payload, production, hmac).Ok?
            && ValidateWebhook(body).Err? ==>
              r == Err(ValidateWebhook(body).error) && unchanged(market)
    ensures WebhookGate(old(market.lenders), signature, body.lenderCode, payload, production, hmac).Ok?
            && ValidateWebhook(body).Ok? ==>
              Forwarded(market, ValidateWebhook(body).value, "Offer recorded", "Decline recorded", r)
    ensures r.Ok? ==> r.value == (if body.decision == "ACCEPT" then "Offer recorded" else "Decline recorded")
    ensures r.Ok? ==> body.decision == "ACCEPT" || body.decision == "DECLINE"
  {
    var gate := WebhookGate(market.lenders, signature, body.lenderCode, payload, production, hmac);
    if gate.Err? {
      return Err(gate.error);
    }
    var v := ValidateWebhook(body);
    if v.Err? {
      return Err(v.error);
    }
    r := Forward(market, v.value, "Offer recorded", "Decline recorded");
  }

  /** POST /admin/manual-offers: admin authentication, then the body
      guards, then the auction service. Every rejection changes nothing. */
  method HandleManualOffer(market: Marketplace, header: string, tokenValid: string -> bool, body: ManualOfferBody)
    returns (r: Result<string, HttpError>)
    requires market.Valid() && body.adjustedRate >= 0.0
    modifies market
    ensures market.Valid()
    ensures Authenticate(header, tokenValid, ADMIN_TOKEN_MISSING).Err? ==>
              r == Err(Authenticate(header, tokenValid, ADMIN_TOKEN_MISSING).error) && unchanged(market)
    ensures Authenticate(header, tokenValid, ADMIN_TOKEN_MISSING).Ok? && ValidateManualOffer(body).Err? ==>
              r == Err(HttpError(400, "Missing required fields")) && unchanged(market)
    ensures Authenticate(header, tokenValid, ADMIN_TOKEN_MISSING).Ok? && ValidateManualOffer(body).Ok? ==>
              Forwarded(market, ValidateManualOffer(body).value, "Offer created", "Decline recorded", r)
    ensures r.Ok? ==> body.accepted.Some? && r.value == (if body.accepted.value then "Offer created" else "Decline recorded")
  {
    var auth := Authenticate(header, tokenValid, ADMIN_TOKEN_MISSING);
    if auth.Err? {
      return Err(auth.error);
    }
    var v := ValidateManualOffer(body);
    if v.Err? {
      return Err(v.error);
    }
    r := Forward(market, v.value, "Offer created", "Decline recorded");
  }
}
