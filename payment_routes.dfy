/** POST /payments/:payment_id/pay: a user pays one scheduled instalment by
    hand. The payment row, its plan and a new transaction row change
    together or not at all. */
module PaymentRoutes {
  import opened Common
  import opened HttpAuth
  import opened PaymentPlans

  /** The payments row once paid: status paid, payment date set, debit order successful. */
  function Paid(p: Payment): (q: Payment)
    ensures q.status == "paid" && q.paymentRecorded && q.debitOrderSuccessful
    ensures q.planId == p.planId && q.userId == p.userId && q.paymentNumber == p.paymentNumber && q.amount == p.amount
    ensures q.dueInMonths == p.dueInMonths
  {
    p.(status := "paid", paymentRecorded := true, debitOrderSuccessful := true)
  }

  /** The transaction recorded for a paid instalment, typed by the payment
      method or "manual_payment" when none is given. */
  function PaymentTransaction(paymentId: nat, userId: string, p: Payment, paymentMethod: string): (t: Transaction)
    ensures t.transactionType == OrElseStr(paymentMethod, "manual_payment")
    ensures t.amount == p.amount && t.status == "completed" && t.paymentId == paymentId && t.userId == userId
    ensures t.paymentNumber == p.paymentNumber && t.planId == p.planId
  {
    Transaction(paymentId, userId, OrElseStr(paymentMethod, "manual_payment"), p.amount, "completed",
                p.paymentNumber, p.planId)
  }

  /** Whether the payment exists and belongs to the user. */
  predicate OwnsPayment(payments: seq<Payment>, paymentId: nat, userId: string) {
    paymentId < |payments| && payments[paymentId].userId == userId
  }

  /** POST /:payment_id/pay. A payment that is not the user's is 404 and
      one already paid is 400, with nothing written. Otherwise the payment
      is paid, its plan moves by the payment's own amount (the amount in the
      request body, `requestAmount`, is never read) and one completed
      transaction is recorded. */
  method Pay(store: Store, header: string, tokenValid: string -> bool, userId: string,
             paymentId: nat, requestAmount: real, paymentMethod: string)
    returns (r: Result<Transaction, HttpError>)
    requires store.Valid()
    modifies store
    ensures store.Valid()
    ensures Authenticate(header, tokenValid, USER_TOKEN_MISSING).Err? ==>
              r == Err(Authenticate(header, tokenValid, USER_TOKEN_MISSING).error) && unchanged(store)
    ensures Authenticate(header, tokenValid, USER_TOKEN_MISSING).Ok? && !OwnsPayment(old(store.payments), paymentId, userId) ==>
              r == Err(HttpError(404, "Payment not found")) && unchanged(store)
    ensures Authenticate(header, tokenValid, USER_TOKEN_MISSING).Ok? && OwnsPayment(old(store.payments), paymentId, userId)
            && old(store.payments)[paymentId].status == "paid" ==>
              r == Err(HttpError(400, "Payment already completed")) && unchanged(store)
    ensures Authenticate(header, tokenValid, USER_TOKEN_MISSING).Ok? && OwnsPayment(old(store.payments), paymentId, userId)
            && old(store.payments)[paymentId].status != "paid" ==>
              r.Ok?
    ensures r.Ok? ==>
              && OwnsPayment(old(store.payments), paymentId, userId)
              && var p := old(store.payments)[paymentId];
              && p.status != "paid"
              && store.payments == old(store.payments)[paymentId := Paid(p)]
              && store.plans == old(store.plans)[p.planId := AfterPayment(old(store.plans)[p.planId], p.amount)]
              && r.value == PaymentTransaction(paymentId, userId, p, paymentMethod)
              && store.transactions == old(store.transactions) + [r.value]
              && store.users == old(store.users) && store.applications == old(store.applications)
  {
    var auth := Authenticate(header, tokenValid, USER_TOKEN_MISSING);
    if auth.Err? {
      return Err(auth.error);
    }
    if !OwnsPayment(store.payments, paymentId, userId) {
      return Err(HttpError(404, "Payment not found"));
    }
    var p := store.payments[paymentId];
    if p.status == "paid" {
      return Err(HttpError(400, "Payment already completed"));
    }
    assert p in store.payments;
    store.payments := store.payments[paymentId := Paid(p)];
    store.plans := store.plans[p.planId := AfterPayment(store.plans[p.planId], p.amount)];
    var txn := PaymentTransaction(paymentId, userId, p, paymentMethod);
    store.transactions := store.transactions + [txn];
    return Ok(txn);
  }
}
