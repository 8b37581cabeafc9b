/** The tables behind the pay-in-three product: users, applications,
    payment plans, scheduled payments and transactions, with the plan
    arithmetic that a manual payment performs.

    Rows are identified by their position in their table. */
module PaymentPlans {
  import opened Common

  datatype User = User(userId: string, status: string, creditLimit: real)

  datatype Decision = Approved | UnderReview

  /** An applications row; the amounts are None (SQL null) while under review. */
  datatype ApplicationRow = ApplicationRow(
    userId: string,
    providerId: string,
    billAmount: real,
    treatmentType: string,
    providerName: string,
    existingPatient: bool,
    riskScore: int,
    status: Decision,
    approvedAmount: Option<real>,
    monthlyPayment: Option<real>,
    ipAddress: string,
    userAgent: string)

  datatype PlanStatus = Active | Completed

  /** A payment_plans row; `completionRecorded` says whether completion_date is set. */
  datatype Plan = Plan(
    applicationId: nat,
    userId: string,
    totalAmount: real,
    monthlyAmount: real,
    numberOfPayments: nat,
    status: PlanStatus,
    outstandingBalance: real,
    paymentsMade: nat,
    totalPaid: real,
    completionRecorded: bool)

  /** A payments row; the due date is kept as a number of months ahead, and
      `paymentRecorded` says whether payment_date is set. */
  datatype Payment = Payment(
    planId: nat,
    userId: string,
    paymentNumber: nat,
    amount: real,
    dueInMonths: nat,
    status: string,
    paymentRecorded: bool,
    debitOrderSuccessful: bool)

  /** A transactions row; the description names the payment number and plan. */
  datatype Transaction = Transaction(
    paymentId: nat,
    userId: string,
    transactionType: string,
    amount: real,
    status: string,
    paymentNumber: nat,
    planId: nat)

  /** Every plan is paid in three instalments. */
  const PLAN_INSTALMENTS: nat := 3

  /** The plan an approved application opens: the whole bill outstanding,
      nothing paid yet. */
  function NewPlan(applicationId: nat, userId: string, bill: real, monthly: real): Plan {
    Plan(applicationId, userId, bill, monthly, PLAN_INSTALMENTS, Active, bill, 0, 0.0, false)
  }

  /** The payments row for instalment `n` of a plan, due `n` months ahead. */
  function ScheduledPayment(planId: nat, userId: string, monthly: real, n: nat): Payment {
    Payment(planId, userId, n, monthly, n, "scheduled", false, false)
  }

  /** The three instalments of a plan, numbered 1 to 3. */
  function ScheduledPayments(planId: nat, userId: string, monthly: real): (ps: seq<Payment>)
    ensures |ps| == PLAN_INSTALMENTS
    ensures forall i :: 0 <= i < |ps| ==> ps[i].paymentNumber == i + 1 && ps[i].dueInMonths == i + 1
    ensures forall i :: 0 <= i < |ps| ==> ps[i].amount == monthly && ps[i].status == "scheduled" && ps[i].planId == planId
  {
    seq(PLAN_INSTALMENTS, i requires 0 <= i => ScheduledPayment(planId, userId, monthly, i + 1))
  }

  /** The payment_plans update of one paid instalment: one more payment made,
      the amount moved from outstanding to paid, and the plan completed,
      with its completion date set, exactly when this was the last one. */
  function AfterPayment(plan: Plan, amount: real): (q: Plan)
    ensures q.paymentsMade == plan.paymentsMade + 1
    ensures q.totalPaid == plan.totalPaid + amount && q.outstandingBalance == plan.outstandingBalance - amount
    ensures q.totalPaid + q.outstandingBalance == plan.totalPaid + plan.outstandingBalance
    ensures q.status == Completed <==> plan.paymentsMade + 1 >= plan.numberOfPayments
    ensures q.completionRecorded <==> q.status == Completed
    ensures q.applicationId == plan.applicationId && q.userId == plan.userId && q.totalAmount == plan.totalAmount
    ensures q.monthlyAmount == plan.monthlyAmount && q.numberOfPayments == plan.numberOfPayments
  {
    var completes := plan.paymentsMade + 1 >= plan.numberOfPayments;
    plan.(paymentsMade := plan.paymentsMade + 1,
          totalPaid := plan.totalPaid + amount,
          outstandingBalance := plan.outstandingBalance - amount,
          status := if completes then Completed else Active,
          completionRecorded := completes)
  }

  /** The plan after a run of paid instalments, in order. */
  function AfterPayments(plan: Plan, amounts: seq<real>): Plan
    decreases |amounts|
  {
    if amounts == [] then plan
    else AfterPayment(AfterPayments(plan, amounts[..|amounts| - 1]), amounts[|amounts| - 1])
  }

  function Sum(xs: seq<real>): real
    decreases |xs|
  {
    if xs == [] then 0.0 else Sum(xs[..|xs| - 1]) + xs[|xs| - 1]
  }

  /** After any run of payments the counters have moved by the run's length
      and total, the plan's total owed is conserved, and the plan is
      completed exactly when the run has reached its number of payments. */
  lemma {:induction false} AfterPaymentsSummary(plan: Plan, amounts: seq<real>)
    ensures AfterPayments(plan, amounts).paymentsMade == plan.paymentsMade + |amounts|
    ensures AfterPayments(plan, amounts).totalPaid == plan.totalPaid + Sum(amounts)
    ensures AfterPayments(plan, amounts).outstandingBalance == plan.outstandingBalance - Sum(amounts)
    ensures AfterPayments(plan, amounts).numberOfPayments == plan.numberOfPayments
    ensures amounts != [] ==>
              (AfterPayments(plan, amounts).status == Completed <==> plan.paymentsMade + |amounts| >= plan.numberOfPayments)
    decreases |amounts|
  {
    if amounts != [] {
      AfterPaymentsSummary(plan, amounts[..|amounts| - 1]);
    }
  }

  /** A new plan paid instalment by instalment stays active through the
      first two payments and is completed by the third, with 3 × monthly
      paid and the bill less that outstanding. */
  lemma FreshPlanCompletesOnThird(applicationId: nat, userId: string, bill: real, monthly: real)
    ensures AfterPayments(NewPlan(applicationId, userId, bill, monthly), [monthly]).status == Active
    ensures AfterPayments(NewPlan(applicationId, userId, bill, monthly), [monthly, monthly]).status == Active
    ensures var q := AfterPayments(NewPlan(applicationId, userId, bill, monthly), [monthly, monthly, monthly]);
            && q.status == Completed && q.completionRecorded
            && q.paymentsMade == 3 && q.totalPaid == 3.0 * monthly && q.outstandingBalance == bill - 3.0 * monthly
  {
    var plan := NewPlan(applicationId, userId, bill, monthly);
    AfterPaymentsSummary(plan, [monthly]);
    AfterPaymentsSummary(plan, [monthly, monthly]);
    AfterPaymentsSummary(plan, [monthly, monthly, monthly]);
    assert [monthly, monthly, monthly][..2] == [monthly, monthly];
    assert [monthly, monthly][..1] == [monthly];
    assert [monthly][..0] == [];
  }

  /** The first users row with the id. */
  function FindUser(users: seq<User>, userId: string): (r: Option<User>)
    ensures r.Some? ==> r.value in users && r.value.userId == userId
    ensures r.None? ==> forall u :: u in users ==> u.userId != userId
  {
    if users == [] then None
    else if users[0].userId == userId then Some(users[0])
    else
      assert forall u :: u in users ==> u == users[0] || u in users[1..];
      FindUser(users[1..], userId)
  }

  /** The tables. Plans point at applications, payments at plans and
      transactions at payments. */
  class Store {
    var users: seq<User>
    var applications: seq<ApplicationRow>
    var plans: seq<Plan>
    var payments: seq<Payment>
    var transactions: seq<Transaction>

    ghost predicate Valid()
      reads this
    {
      && (forall p :: p in plans ==> p.applicationId < |applications|)
      && (forall q :: q in payments ==> q.planId < |plans|)
      && (forall t :: t in transactions ==> t.paymentId < |payments|)
    }

    constructor(users: seq<User>)
      ensures Valid()
      ensures this.users == users && applications == [] && plans == [] && payments == [] && transactions == []
    {
      this.users := users;
      applications := [];
      plans := [];
      payments := [];
      transactions := [];
    }
  }
}
