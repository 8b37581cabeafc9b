/** POST /applications of the pay-in-three product: the body guards, the
    demonstration approval rule and, for an approved bill, the plan of three
    monthly instalments.

    The random draw behind the risk score is a parameter `u` in [0, 1). */
module ApplicationRoutes {
  import opened Common
  import opened HttpAuth
  import opened PaymentPlans

  /** The body fields the route reads; 0 and "" stand for missing ones. */
  datatype ApplicationBody = ApplicationBody(
    billAmount: real,
    treatmentType: string,
    providerName: string,
    existingPatient: bool,
    providerId: string)

  /** The body guards: all three required fields, and a bill from R500 to
      R850, both ends included. */
  function ValidateApplication(body: ApplicationBody): (r: Result<(), HttpError>)
    ensures (body.billAmount == 0.0 || body.treatmentType == "" || body.providerName == "") ==>
              r == Err(HttpError(400, "Required fields missing"))
    ensures r.Ok? <==> body.treatmentType != "" && body.providerName != "" && 500.0 <= body.billAmount <= 850.0
    ensures r.Err? ==> r.error.status == 400
  {
    if body.billAmount == 0.0 || body.treatmentType == "" || body.providerName == "" then
      Err(HttpError(400, "Required fields missing"))
    else if body.billAmount < 500.0 || body.billAmount > 850.0 then
      Err(HttpError(400, "Bill amount must be between R500 and R850"))
    else Ok(())
  }

  /** floor(u·30) + 50: a whole score from 50 to 79. */
  function DemoRiskScore(u: real): (score: int)
    requires 0.0 <= u < 1.0
    ensures 50 <= score <= 79
  {
    (u * 30.0).Floor + 50
  }

  /** A draw approves exactly when it is at least one third. */
  lemma DemoApprovalThreshold(u: real)
    requires 0.0 <= u < 1.0
    ensures DemoRiskScore(u) >= 60 <==> u >= 1.0 / 3.0
  {
    if u >= 1.0 / 3.0 {
      assert u * 30.0 >= 10.0;
    } else {
      assert u * 30.0 < 10.0;
    }
  }

  /** The decision columns of the new application. */
  datatype Outcome = Outcome(status: Decision, approvedAmount: Option<real>, monthlyPayment: Option<real>)

  /** Approved iff the score is at least 60; only then are the approved
      amount (the whole bill) and the monthly payment (a third of it, to the
      cent) set. */
  function Decide(bill: real, riskScore: int): (o: Outcome)
    ensures o.status == Approved <==> riskScore >= 60
    ensures o.status == Approved ==> o.approvedAmount == Some(bill) && o.monthlyPayment == Some(RoundCents(bill / 3.0))
    ensures o.status == UnderReview ==> o.approvedAmount.None? && o.monthlyPayment.None?
  {
    if riskScore >= 60 then Outcome(Approved, Some(bill), Some(RoundCents(bill / 3.0)))
    else Outcome(UnderReview, None, None)
  }

  /** Three instalments of a third of the bill, to the cent, pay the bill to
      within a cent and a half either way. */
  lemma {:induction false} InstalmentsCoverBill(bill: real)
    ensures bill - 0.015 < 3.0 * RoundCents(bill / 3.0) <= bill + 0.015
  {
    var m := RoundCents(bill / 3.0);
    assert bill / 3.0 - 1.0 / 200.0 < m <= bill / 3.0 + 1.0 / 200.0;
    assert 3.0 * (bill / 3.0) == bill;
  }

  /** Paying off a R500 bill leaves the plan one cent overpaid: each of the
      three instalments is R166.67. */
  lemma FiveHundredOverpaysByOneCent()
    ensures RoundCents(500.0 / 3.0) == 166.67
    ensures AfterPayments(NewPlan(0, "", 500.0, 166.67), [166.67, 166.67, 166.67]).outstandingBalance == -0.01
  {
    var x := 500.0 / 3.0 * 100.0 + 1.0 / 2.0;
    assert 16667.0 <= x < 16668.0;
    assert x.Floor == 16667;
    FreshPlanCompletesOnThird(0, "", 500.0, 166.67);
  }

  /** The applications row the route inserts. */
  function ApplicationRowFor(userId: string, body: ApplicationBody, riskScore: int, ip: string, userAgent: string): ApplicationRow {
    var o := Decide(body.billAmount, riskScore);
    ApplicationRow(userId, body.providerId, body.billAmount, body.treatmentType, body.providerName,
                   body.existingPatient, riskScore, o.status, o.approvedAmount, o.monthlyPayment, ip, userAgent)
  }

  /** The plan transaction: one plan of three payments and its three
      scheduled instalments, numbered 1 to 3 and due 1 to 3 months ahead. */
  method CreatePlan(store: Store, applicationId: nat, userId: string, bill: real, monthly: real) returns (planId: nat)
    requires store.Valid() && applicationId < |store.applications|
    modifies store
    ensures store.Valid()
    ensures planId == |old(store.plans)|
    ensures store.plans == old(store.plans) + [NewPlan(applicationId, userId, bill, monthly)]
    ensures store.payments == old(store.payments) + ScheduledPayments(planId, userId, monthly)
    ensures store.users == old(store.users) && store.applications == old(store.applications)
    ensures store.transactions == old(store.transactions)
  {
    planId := |store.plans|;
    store.plans := store.plans + [NewPlan(applicationId, userId, bill, monthly)];
    ghost var scheduled := ScheduledPayments(planId, userId, monthly);
    for i := 1 to PLAN_INSTALMENTS + 1
      invariant store.Valid()
      invariant store.plans == old(store.plans) + [NewPlan(applicationId, userId, bill, monthly)]
      invariant store.payments == old(store.payments) + scheduled[..i - 1]
      invariant store.users == old(store.users) && store.applications == old(store.applications)
      invariant store.transactions == old(store.transactions)
    {
      assert scheduled[..i] == scheduled[..i - 1] + [ScheduledPayment(planId, userId, monthly, i)];
      store.payments := store.payments + [ScheduledPayment(planId, userId, monthly, i)];
    }
    assert scheduled[..PLAN_INSTALMENTS] == scheduled;
  }

  /** POST /applications. Authentication, the body guards, an unknown user
      (404) and an inactive one (403) reject the request with nothing
      written. Otherwise the application is inserted with its decision, and
      an approved one gets its plan and three instalments; one under review
      gets neither. */
  method CreateApplication(store: Store, header: string, tokenValid: string -> bool, userId: string,
                           body: ApplicationBody, ip: string, userAgent: string, u: real)
    returns (r: Result<nat, HttpError>)
    requires store.Valid() && 0.0 <= u < 1.0
    modifies store
    ensures store.Valid()
    ensures Authenticate(header, tokenValid, USER_TOKEN_MISSING).Err? ==>
              r == Err(Authenticate(header, tokenValid, USER_TOKEN_MISSING).error) && unchanged(store)
    ensures Authenticate(header, tokenValid, USER_TOKEN_MISSING).Ok? && ValidateApplication(body).Err? ==>
              r == Err(ValidateApplication(body).error) && unchanged(store)
    ensures Authenticate(header, tokenValid, USER_TOKEN_MISSING).Ok? && ValidateApplication(body).Ok?
            && FindUser(old(store.users), userId).None? ==>
              r == Err(HttpError(404, "User not found")) && unchanged(store)
    ensures Authenticate(header, tokenValid, USER_TOKEN_MISSING).Ok? && ValidateApplication(body).Ok?
            && FindUser(old(store.users), userId).Some? && FindUser(old(store.users), userId).value.status != "active" ==>
              r == Err(HttpError(403, "Account not active")) && unchanged(store)
    ensures Authenticate(header, tokenValid, USER_TOKEN_MISSING).Ok? && ValidateApplication(body).Ok?
            && FindUser(old(store.users), userId).Some? && FindUser(old(store.users), userId).value.status == "active" ==>
              r.Ok?
    ensures r.Ok? ==>
              var row := ApplicationRowFor(userId, body, DemoRiskScore(u), ip, userAgent);
              && ValidateApplication(body).Ok?
              && FindUser(old(store.users), userId).Some? && FindUser(old(store.users), userId).value.status == "active"
              && r.value == |old(store.applications)|
              && store.applications == old(store.applications) + [row]
              && store.users == old(store.users) && store.transactions == old(store.transactions)
              && (row.status == Approved ==>
                    && store.plans == old(store.plans) + [NewPlan(r.value, userId, body.billAmount, row.monthlyPayment.value)]
                    && store.payments == old(store.payments)
                         + ScheduledPayments(|old(store.plans)|, userId, row.monthlyPayment.value))
              && (row.status == UnderReview ==>
                    store.plans == old(store.plans) && store.payments == old(store.payments))
  {
    var auth := Authenticate(header, tokenValid, USER_TOKEN_MISSING);
    if auth.Err? {
      return Err(auth.error);
    }
    var v := ValidateApplication(body);
    if v.Err? {
      return Err(v.error);
    }
    var user := FindUser(store.users, userId);
    if user.None? {
      return Err(HttpError(404, "User not found"));
    }
    if user.value.status != "active" {
      return Err(HttpError(403, "Account not active"));
    }
    var row := ApplicationRowFor(userId, body, DemoRiskScore(u), ip, userAgent);
    var applicationId := |store.applications|;
    store.applications := store.applications + [row];
    if row.status == Approved {
      var _ := CreatePlan(store, applicationId, userId, body.billAmount, row.monthlyPayment.value);
    }
    return Ok(applicationId);
  }
}
