/** The amortization arithmetic shared by the auction service and the approval
    bridge: the flat monthly payment and the declining balance that a
    repayment schedule walks down. */
module Amortization {
  import opened Common

  /** calculateMonthlyPayment: P·r(1+r)^n / ((1+r)^n − 1) with r = annualRate/12,
      and P/n when the rate is zero. */
  function MonthlyPayment(principal: real, annualRate: real, term: nat): (m: real)
    requires annualRate >= 0.0 && term >= 1
    ensures annualRate == 0.0 ==> m * term as real == principal
    ensures principal >= 0.0 ==> m >= 0.0
  {
    var r := annualRate / 12.0;
    if r == 0.0 then principal / term as real
    else Annuity(principal, r, Pow(1.0 + r, term))
  }

  /** P·r·g / (g − 1), where g = (1+r)^n is the growth of one unit over the
      term: the payment whose n instalments discount back to P. */
  function Annuity(principal: real, r: real, g: real): (m: real)
    requires r > 0.0 && g > 1.0
    ensures m * (g - 1.0) == principal * r * g
    ensures principal >= 0.0 ==> m >= 0.0
  {
    DivTimes(principal * (r * g), g - 1.0);
    principal * (r * g) / (g - 1.0)
  }

  /** The interest one instalment pays on the balance still owed. */
  function Interest(remaining: real, monthlyRate: real): real {
    remaining * monthlyRate
  }

  /** The principal still owed after k instalments of `payment` at monthly
      rate r: each instalment pays interest remaining·r and retires the rest. */
  function Balance(principal: real, r: real, payment: real, k: nat): real
  {
    if k == 0 then principal
    else
      var b := Balance(principal, r, payment, k - 1);
      b - (payment - Interest(b, r))
  }

  /** One month of the declining balance. */
  lemma BalanceUnfold(principal: real, r: real, payment: real, k: nat)
    requires k >= 1
    ensures Balance(principal, r, payment, k)
         == Balance(principal, r, payment, k - 1) - (payment - Interest(Balance(principal, r, payment, k - 1), r))
  {
  }

  /** Closed form of the declining balance after k instalments, multiplied
      through by r so that it holds for r = 0 as well:
      B_k·r = P·r·q^k − M·(q^k − 1), q = 1 + r. */
  predicate ClosedForm(principal: real, r: real, payment: real, k: nat) {
    Balance(principal, r, payment, k) * r == principal * r * Pow(1.0 + r, k) - payment * (Pow(1.0 + r, k) - 1.0)
  }

  /** The closed form holds after every number of instalments. */
  lemma {:induction false} BalanceClosedForm(principal: real, r: real, payment: real, k: nat)
    ensures ClosedForm(principal, r, payment, k)
    decreases k
  {
    if k > 0 {
      BalanceClosedForm(principal, r, payment, k - 1);
      ClosedFormStep(principal, r, payment, k);
    } else {
      BalanceBase(principal, r, payment, Balance(principal, r, payment, 0), Pow(1.0 + r, 0));
    }
  }

  /** The closed form carried from k − 1 instalments to k. */
  lemma ClosedFormStep(principal: real, r: real, payment: real, k: nat)
    requires k >= 1 && ClosedForm(principal, r, payment, k - 1)
    ensures ClosedForm(principal, r, payment, k)
  {
    BalanceUnfold(principal, r, payment, k);
    PowStep(1.0 + r, k);
    BalanceStep(Balance(principal, r, payment, k - 1), Balance(principal, r, payment, k), r, principal, payment,
                Pow(1.0 + r, k - 1), Pow(1.0 + r, k));
  }

  /** The closed form before any instalment: B_0 = P and q^0 = 1. */
  lemma BalanceBase(principal: real, r: real, payment: real, b: real, g: real)
    requires b == principal && g == 1.0
    ensures b * r == principal * r * g - payment * (g - 1.0)
  {
  }

  /** One month of the closed form, as plain algebra over its unknowns:
      bk is the next balance and g = (1+r)·q the next growth factor. */
  lemma BalanceStep(b: real, bk: real, r: real, principal: real, payment: real, q: real, g: real)
    requires b * r == principal * r * q - payment * (q - 1.0)
    requires bk == b - (payment - Interest(b, r)) && g == (1.0 + r) * q
    ensures bk * r == principal * r * g - payment * (g - 1.0)
  {
    var x := b * r;
    assert bk * r == x * (1.0 + r) - payment * r;
    assert x * (1.0 + r) == (principal * r * q - payment * (q - 1.0)) * (1.0 + r);
  }

  /** With no interest the balance falls by the payment each month. */
  lemma {:induction false} BalanceZeroRate(principal: real, payment: real, k: nat)
    ensures Balance(principal, 0.0, payment, k) == principal - k as real * payment
  {
    if k > 0 {
      BalanceZeroRate(principal, payment, k - 1);
    }
  }

  /** The amortized payment retires the whole principal in exactly `term`
      instalments. */
  lemma PaidOff(principal: real, annualRate: real, term: nat)
    requires annualRate >= 0.0 && term >= 1
    ensures Balance(principal, annualRate / 12.0, MonthlyPayment(principal, annualRate, term), term) == 0.0
  {
    var r := annualRate / 12.0;
    var m := MonthlyPayment(principal, annualRate, term);
    if r == 0.0 {
      BalanceZeroRate(principal, m, term);
    } else {
      var qn := Pow(1.0 + r, term);
      assert m == Annuity(principal, r, qn);
      assert m * (qn - 1.0) == principal * r * qn;
      BalanceClosedForm(principal, r, m, term);
      var b := Balance(principal, r, m, term);
      assert b * r == principal * r * qn - m * (qn - 1.0);
      ZeroFactor(b, r);
    }
  }

  /** The instalments together never repay less than was lent: interest is
      never negative. */
  lemma TotalCoversPrincipal(principal: real, annualRate: real, term: nat)
    requires annualRate >= 0.0 && term >= 1
    ensures principal >= 0.0 ==> MonthlyPayment(principal, annualRate, term) * term as real >= principal
  {
    var r := annualRate / 12.0;
    var m := MonthlyPayment(principal, annualRate, term);
    if r != 0.0 && principal >= 0.0 {
      var g := Pow(1.0 + r, term);
      var n := term as real;
      assert m == Annuity(principal, r, g);
      assert m * (g - 1.0) == principal * r * g;
      GrowthBound(r, term);
      AnnuityCovers(principal, r, g, n, m);
    }
  }

  /** The cover bound over plain unknowns: m·(g − 1) = P·r·g together with
      g − 1 ≤ r·n·g gives m·n ≥ P. */
  lemma AnnuityCovers(principal: real, r: real, g: real, n: real, m: real)
    requires principal >= 0.0 && r > 0.0 && g > 1.0 && m >= 0.0
    requires m * (g - 1.0) == principal * r * g
    requires g - 1.0 <= r * n * g
    ensures m * n >= principal
  {
    ScaleBound(m, g - 1.0, r * n * g);
    assert m * (r * n * g) == (m * n) * (r * g);
    assert principal * r * g == principal * (r * g);
    CancelPositive(principal, m * n, r * g);
  }

  /** (1+r)^n − 1 ≤ r·n·(1+r)^n: the interest over n months is at most n
      months of interest on the final growth. */
  predicate GrowthBounded(r: real, n: nat) {
    Pow(1.0 + r, n) - 1.0 <= r * (n as real) * Pow(1.0 + r, n)
  }

  /** The growth bound holds for every term at a non-negative rate. */
  lemma {:induction false} GrowthBound(r: real, n: nat)
    requires r >= 0.0
    ensures GrowthBounded(r, n)
    decreases n
  {
    if n > 0 {
      GrowthBound(r, n - 1);
      GrowthBoundStep(r, n);
    }
  }

  /** The growth bound carried from n − 1 months to n. */
  lemma GrowthBoundStep(r: real, n: nat)
    requires r >= 0.0 && n >= 1 && GrowthBounded(r, n - 1)
    ensures GrowthBounded(r, n)
  {
    var q := Pow(1.0 + r, n - 1);
    var g := Pow(1.0 + r, n);
    var k := (n - 1) as real;
    PowStep(1.0 + r, n);
    assert q >= 1.0 && g == (1.0 + r) * q;
    assert q - 1.0 <= r * k * q;
    assert n as real == k + 1.0;
    GrowthStep(r, k, n as real, q, g);
  }

  lemma PowStep(b: real, n: nat)
    requires n >= 1
    ensures Pow(b, n) == b * Pow(b, n - 1)
  {
  }

  /** One step of GrowthBound over plain unknowns: g = (1+r)·q, n = k + 1. */
  lemma GrowthStep(r: real, k: real, n: real, q: real, g: real)
    requires r >= 0.0 && k >= 0.0 && q >= 1.0 && n == k + 1.0 && g == (1.0 + r) * q
    requires q - 1.0 <= r * k * q
    ensures g - 1.0 <= r * n * g
  {
    assert g - 1.0 == (q - 1.0) + r * q;
    assert r * n * q == r * k * q + r * q;
    assert r * n * g == r * n * q + r * n * (r * q);
    ScaleBound(r * n, 0.0, r * q);
  }

  lemma ScaleBound(m: real, a: real, b: real)
    requires m >= 0.0 && a <= b
    ensures m * a <= m * b
  {
    assert m * b - m * a == m * (b - a);
  }

  lemma CancelPositive(a: real, b: real, c: real)
    requires c > 0.0 && a * c <= b * c
    ensures a <= b
  {
  }

  lemma ZeroFactor(b: real, r: real)
    requires r != 0.0 && b * r == 0.0
    ensures b == 0.0
  {
  }

  lemma DivTimes(a: real, d: real)
    requires d != 0.0
    ensures (a / d) * d == a
  {
  }
}
