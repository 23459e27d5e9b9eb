/**
 * The amortization schedule (apps/api/src/demo/demo-data.ts), in exact reals:
 * a fixed payment, interest on the balance, the rest off the balance.
 */
module LoanSchedule {

  datatype LoanPayment = LoanPayment(period: nat, payment: real, principal: real, interest: real, balance: real)

  /** The loan of the demo company. */
  const PRINCIPAL: real := 500000.0
  const ANNUAL_RATE: real := 0.065
  const MONTHS: nat := 60

  function Pow(base: real, n: nat): real {
    if n == 0 then 1.0 else base * Pow(base, n - 1)
  }

  /** `Math.round(x * 100) / 100`; `Math.round` rounds halves up. */
  function Cents(x: real): real {
    (x * 100.0 + 0.5).Floor as real / 100.0
  }

  function Clamp(x: real): real {
    if x < 0.0 then 0.0 else x
  }

  lemma {:induction false} PowGrows(base: real, n: nat)
    requires base > 1.0
    ensures Pow(base, n) >= 1.0 && (n > 0 ==> Pow(base, n) > 1.0)
  {
    if n > 0 {
      PowGrows(base, n - 1);
      MulGrows(base, Pow(base, n - 1));
    }
  }

  lemma MulGrows(a: real, b: real)
    requires a > 1.0 && b >= 1.0
    ensures a * b > 1.0 && a * b >= a
  {
    assert a * b - a == a * (b - 1.0);
    assert a * (b - 1.0) >= 0.0;
  }

  /** The level payment `P r / (1 - (1 + r)^-n)`. */
  function Payment(principal: real, r: real, n: nat): real
    requires r > 0.0 && n > 0
  {
    PowGrows(1.0 + r, n);
    Inverse(Pow(1.0 + r, n));
    principal * r / (1.0 - 1.0 / Pow(1.0 + r, n))
  }

  lemma Inverse(g: real)
    requires g > 1.0
    ensures 0.0 < 1.0 / g < 1.0
  {
    var inv := 1.0 / g;
    assert inv * g == 1.0;
  }

  /** The balance after `k` payments, as the loop computes it. */
  function Balance(principal: real, r: real, payment: real, k: nat): real {
    if k == 0 then principal
    else
      var before := Balance(principal, r, payment, k - 1);
      before - (payment - before * r)
  }

  /** One row as it is pushed, every amount in cents. */
  function Printed(period: nat, payment: real, principal: real, interest: real, balance: real): LoanPayment {
    LoanPayment(period, Cents(payment), Cents(principal), Cents(interest), Cents(Clamp(balance)))
  }

  function Row(principal: real, r: real, payment: real, period: nat): LoanPayment
    requires period > 0
  {
    var before := Balance(principal, r, payment, period - 1);
    Printed(period, payment, payment - before * r, before * r, Balance(principal, r, payment, period))
  }

  function Quotient(a: real, b: real): real
    requires b != 0.0
  {
    a / b
  }

  // ---------------------------------------------------------------------------
  // The closed form
  // ---------------------------------------------------------------------------

  /** The textbook balance: `P (g^n - g^k) / (g^n - 1)` with `g = 1 + r`. */
  function ClosedForm(principal: real, r: real, n: nat, k: nat): real
    requires r > 0.0 && n > 0
  {
    PowGrows(1.0 + r, n);
    Quotient(principal * (Pow(1.0 + r, n) - Pow(1.0 + r, k)), Pow(1.0 + r, n) - 1.0)
  }

  /** `payment (g^n - 1) = P r g^n`. */
  lemma PaymentEquation(principal: real, r: real, n: nat)
    requires r > 0.0 && n > 0
    ensures Payment(principal, r, n) * (Pow(1.0 + r, n) - 1.0) == principal * r * Pow(1.0 + r, n)
  {
    var g := Pow(1.0 + r, n);
    PowGrows(1.0 + r, n);
    Inverse(g);
    var inv := 1.0 / g;
    var p := Payment(principal, r, n);
    assert p * (1.0 - inv) == principal * r;
    assert inv * g == 1.0;
    assert p * (1.0 - inv) * g == principal * r * g;
    assert p * (1.0 - inv) * g == p * ((1.0 - inv) * g);
    assert (1.0 - inv) * g == g - inv * g;
  }

  /** `balance (g - 1) = P (g - h)`: a closed-form balance, cleared of its
      denominator, where `g` is `(1 + r)^n` and `h` is `(1 + r)^k`. */
  predicate Cleared(balance: real, principal: real, g: real, h: real) {
    balance * (g - 1.0) == principal * (g - h)
  }

  lemma {:induction false} BalanceCleared(principal: real, r: real, payment: real, g: real, k: nat)
    requires payment * (g - 1.0) == principal * r * g
    ensures Cleared(Balance(principal, r, payment, k), principal, g, Pow(1.0 + r, k))
  {
    if k > 0 {
      BalanceCleared(principal, r, payment, g, k - 1);
      ClearedStep(principal, r, payment, Balance(principal, r, payment, k - 1), g, Pow(1.0 + r, k - 1));
    }
  }

  lemma ClearedStep(principal: real, r: real, p: real, b: real, g: real, h: real)
    requires Cleared(b, principal, g, h)
    requires p * (g - 1.0) == principal * r * g
    ensures Cleared(b - (p - b * r), principal, g, (1.0 + r) * h)
  {
    assert (b - (p - b * r)) * (g - 1.0) == (1.0 + r) * (b * (g - 1.0)) - p * (g - 1.0);
    assert (1.0 + r) * (principal * (g - h)) == principal * g + principal * r * g - principal * ((1.0 + r) * h);
  }

  lemma DivideOut(b: real, d: real, x: real)
    requires d != 0.0 && b * d == x
    ensures b == Quotient(x, d)
  {
    assert x / d * d == x;
  }

  /** The loop follows the closed form, whatever the loan. */
  lemma BalanceIsClosedForm(principal: real, r: real, n: nat, k: nat)
    requires r > 0.0 && n > 0
    ensures Balance(principal, r, Payment(principal, r, n), k) == ClosedForm(principal, r, n, k)
  {
    var g, p := Pow(1.0 + r, n), Payment(principal, r, n);
    PowGrows(1.0 + r, n);
    PaymentEquation(principal, r, n);
    BalanceCleared(principal, r, p, g, k);
    DivideOut(Balance(principal, r, p, k), g - 1.0, principal * (g - Pow(1.0 + r, k)));
  }

  lemma PowStretches(base: real, n: nat)
    requires base > 1.0 && n > 0
    ensures Pow(base, n - 1) <= Pow(base, n)
  {
    PowGrows(base, n - 1);
    var before := Pow(base, n - 1);
    StretchGrows(base, before);
    assert Pow(base, n) == base * before;
  }

  lemma {:induction false} PowMonotone(base: real, k: nat, n: nat)
    requires base > 1.0 && k <= n
    ensures Pow(base, k) <= Pow(base, n)
    decreases n - k
  {
    if k < n {
      PowMonotone(base, k, n - 1);
      PowStretches(base, n);
    }
  }

  lemma StretchGrows(a: real, b: real)
    requires a > 1.0 && b >= 0.0
    ensures b <= a * b
  {
    assert a * b - b == (a - 1.0) * b;
  }

  /** The balance is never negative and closes at exactly zero. */
  lemma BalanceClosesAtZero(principal: real, r: real, n: nat, k: nat)
    requires principal > 0.0 && r > 0.0 && 0 < n && k <= n
    ensures Balance(principal, r, Payment(principal, r, n), k) >= 0.0
    ensures Balance(principal, r, Payment(principal, r, n), n) == 0.0
  {
    var g, p := Pow(1.0 + r, n), Payment(principal, r, n);
    PowGrows(1.0 + r, n);
    PowMonotone(1.0 + r, k, n);
    PaymentEquation(principal, r, n);
    BalanceCleared(principal, r, p, g, k);
    BalanceCleared(principal, r, p, g, n);
    ClearedSign(Balance(principal, r, p, k), principal, g, Pow(1.0 + r, k));
    ClearedZero(Balance(principal, r, p, n), principal, g);
  }

  lemma ClearedSign(balance: real, principal: real, g: real, h: real)
    requires Cleared(balance, principal, g, h) && principal > 0.0 && g > 1.0 && h <= g
    ensures balance >= 0.0
  {
    assert principal * (g - h) >= 0.0;
    NonNegativeFactor(balance, g - 1.0);
  }

  lemma ClearedZero(balance: real, principal: real, g: real)
    requires Cleared(balance, principal, g, g) && g > 1.0
    ensures balance == 0.0
  {
    assert principal * (g - g) == 0.0;
    if balance != 0.0 { NonZeroProduct(balance, g - 1.0); }
  }

  lemma PositiveProduct(a: real, b: real)
    requires a > 0.0 && b > 0.0
    ensures a * b > 0.0
  {
  }

  lemma NonNegativeFactor(a: real, d: real)
    requires d > 0.0 && a * d >= 0.0
    ensures a >= 0.0
  {
    if a < 0.0 { PositiveProduct(-a, d); }
  }

  lemma PositiveFactor(a: real, d: real)
    requires d > 0.0 && a * d > 0.0
    ensures a > 0.0
  {
    NonNegativeFactor(a, d);
  }

  lemma NonZeroProduct(a: real, d: real)
    requires a != 0.0 && d > 0.0
    ensures a * d != 0.0
  {
    if a > 0.0 { assert a * d > 0.0; } else { assert (-a) * d > 0.0; }
  }

  // ---------------------------------------------------------------------------
  // The principal parts
  // ---------------------------------------------------------------------------

  /** What period `k` pays off the balance, unrounded. */
  function PrincipalPart(principal: real, r: real, payment: real, k: nat): real
    requires k > 0
  {
    payment - Balance(principal, r, payment, k - 1) * r
  }

  function SumOfParts(principal: real, r: real, payment: real, k: nat): real {
    if k == 0 then 0.0 else SumOfParts(principal, r, payment, k - 1) + PrincipalPart(principal, r, payment, k)
  }

  lemma {:induction false} PartsAreTheBalanceDrop(principal: real, r: real, payment: real, k: nat)
    ensures SumOfParts(principal, r, payment, k) == principal - Balance(principal, r, payment, k)
  {
    if k > 0 { PartsAreTheBalanceDrop(principal, r, payment, k - 1); }
  }

  /** Each principal part is the one before it grown by one period's rate, the
      first is positive, and together they are the loan. */
  lemma {:induction false} PartsGrowAndSumToTheLoan(principal: real, r: real, n: nat, k: nat)
    requires principal > 0.0 && r > 0.0 && 0 < k <= n
    ensures var p := Payment(principal, r, n);
      && PrincipalPart(principal, r, p, k) > 0.0
      && PrincipalPart(principal, r, p, k + 1) == (1.0 + r) * PrincipalPart(principal, r, p, k)
      && PrincipalPart(principal, r, p, k) < PrincipalPart(principal, r, p, k + 1)
      && SumOfParts(principal, r, p, n) == principal
  {
    var p := Payment(principal, r, n);
    PartsAreTheBalanceDrop(principal, r, p, n);
    BalanceClosesAtZero(principal, r, n, n);
    PartGrows(principal, r, p, k);
    if k == 1 {
      FirstPartPositive(principal, r, n);
    } else {
      PartsGrowAndSumToTheLoan(principal, r, n, k - 1);
    }
    var part := PrincipalPart(principal, r, p, k);
    assert (1.0 + r) * part - part == r * part;
    assert r * part > 0.0;
  }

  lemma PartGrows(principal: real, r: real, payment: real, k: nat)
    requires k > 0
    ensures PrincipalPart(principal, r, payment, k + 1) == (1.0 + r) * PrincipalPart(principal, r, payment, k)
  {
    var b := Balance(principal, r, payment, k - 1);
    assert Balance(principal, r, payment, k) == b - (payment - b * r);
    assert (b - (payment - b * r)) * r == b * r - (payment - b * r) * r;
    assert (1.0 + r) * (payment - b * r) == payment - b * r + (payment - b * r) * r;
  }

  lemma FirstPartPositive(principal: real, r: real, n: nat)
    requires principal > 0.0 && r > 0.0 && n > 0
    ensures PrincipalPart(principal, r, Payment(principal, r, n), 1) > 0.0
  {
    var p, g := Payment(principal, r, n), Pow(1.0 + r, n);
    PowGrows(1.0 + r, n);
    PaymentEquation(principal, r, n);
    var interest := principal * r;
    assert Balance(principal, r, p, 0) == principal;
    assert (p - interest) * (g - 1.0) == interest * g - interest * (g - 1.0);
    assert interest * g - interest * (g - 1.0) == interest;
    assert interest > 0.0;
    PositiveFactor(p - interest, g - 1.0);
  }

  // ---------------------------------------------------------------------------
  // The schedule
  // ---------------------------------------------------------------------------

  lemma CentsClose(x: real)
    ensures -0.005 <= Cents(x) - x <= 0.005
    ensures x >= 0.0 ==> Cents(x) >= 0.0
    ensures Cents(0.0) == 0.0
  {
    var y := x * 100.0 + 0.5;
    assert y.Floor as real <= y < y.Floor as real + 1.0;
    assert Cents(x) * 100.0 == y.Floor as real;
    assert (0.0 * 100.0 + 0.5).Floor == 0;
  }

  /** To within half a cent. */
  predicate Near(printed: real, exact: real) {
    -0.005 <= printed - exact <= 0.005
  }

  /** The row of period `k` between two balances: every amount to half a cent, and so
      balancing to within a cent and a half. */
  predicate RowNear(row: LoanPayment, k: nat, payment: real, r: real, before: real, after: real) {
    && row.period == k
    && Near(row.payment, payment) && Near(row.interest, before * r)
    && Near(row.principal, before - after) && Near(row.balance, after)
    && -0.015 <= row.payment - row.principal - row.interest <= 0.015
    && row.balance >= 0.0 && (after == 0.0 ==> row.balance == 0.0)
  }

  lemma PrintedNear(k: nat, payment: real, r: real, before: real, interest: real, after: real)
    requires interest == before * r && after == before - (payment - interest) && after >= 0.0
    ensures RowNear(Printed(k, payment, payment - interest, interest, after), k, payment, r, before, after)
  {
    CentsClose(payment);
    CentsClose(payment - interest);
    CentsClose(interest);
    CentsClose(after);
  }

  lemma RowIsNear(principal: real, r: real, payment: real, k: nat, before: real, after: real)
    requires k > 0 && after >= 0.0
    requires before == Balance(principal, r, payment, k - 1) && after == Balance(principal, r, payment, k)
    ensures RowNear(Row(principal, r, payment, k), k, payment, r, before, after)
  {
    LoopStep(principal, r, payment, k, before);
    PrintedNear(k, payment, r, before, before * r, after);
  }

  /** Every printed row carries, to half a cent, the level payment, the interest on
      the balance before it and the drop in balance it pays; so it balances to within
      a cent and a half. Its balance is not negative, and the last one reads zero. */
  lemma PrintedRows(principal: real, r: real, n: nat, k: nat)
    requires principal > 0.0 && r > 0.0 && 0 < k <= n
    ensures RowNear(Row(principal, r, Payment(principal, r, n), k), k, Payment(principal, r, n), r,
                    ClosedForm(principal, r, n, k - 1), ClosedForm(principal, r, n, k))
    ensures k == n ==> Row(principal, r, Payment(principal, r, n), k).balance == 0.0
  {
    BalanceClosesAtZero(principal, r, n, k);
    BalanceIsClosedForm(principal, r, n, k);
    BalanceIsClosedForm(principal, r, n, k - 1);
    RowIsNear(principal, r, Payment(principal, r, n), k,
              ClosedForm(principal, r, n, k - 1), ClosedForm(principal, r, n, k));
  }

  /** A balance that drifted below zero prints as zero, whatever the payment. */
  lemma DriftPrintsAsZero(period: nat, payment: real, principal: real, interest: real, balance: real)
    requires balance <= 0.0
    ensures Printed(period, payment, principal, interest, balance).balance == 0.0
  {
    CentsClose(0.0);
  }

  /** The first `k` rows. */
  function Schedule(principal: real, r: real, payment: real, k: nat): seq<LoanPayment> {
    if k == 0 then [] else Schedule(principal, r, payment, k - 1) + [Row(principal, r, payment, k)]
  }

  lemma {:induction false} ScheduleRows(principal: real, r: real, payment: real, n: nat, i: nat)
    requires i < n
    ensures |Schedule(principal, r, payment, n)| == n
    ensures Schedule(principal, r, payment, n)[i] == Row(principal, r, payment, i + 1)
  {
    if n > 1 { ScheduleRows(principal, r, payment, n - 1, if i < n - 1 then i else 0); }
  }

  lemma LoopStep(principal: real, r: real, payment: real, period: nat, balance: real)
    requires period > 0 && balance == Balance(principal, r, payment, period - 1)
    ensures var interest := balance * r;
      var part := payment - interest;
      && Balance(principal, r, payment, period) == balance - part
      && Row(principal, r, payment, period) == Printed(period, payment, part, interest, balance - part)
  {
    var interest := balance * r;
    var part := payment - interest;
    assert Balance(principal, r, payment, period) == balance - part;
    assert Printed(period, payment, payment - balance * r, balance * r, Balance(principal, r, payment, period))
        == Printed(period, payment, part, interest, balance - part);
  }

  /** The loop, for any payment. */
  method Amortize(principal: real, r: real, payment: real, n: nat) returns (out: seq<LoanPayment>)
    ensures out == Schedule(principal, r, payment, n)
  {
    out := [];
    var balance := principal;
    for period := 1 to n + 1
      invariant out == Schedule(principal, r, payment, period - 1)
      invariant balance == Balance(principal, r, payment, period - 1)
    {
      var interest := balance * r;
      var part := payment - interest;
      LoopStep(principal, r, payment, period, balance);
      balance := balance - part;
      out := out + [Printed(period, payment, part, interest, balance)];
    }
  }

  method GenerateLoanSchedule(principal: real, annualRate: real, months: nat) returns (out: seq<LoanPayment>)
    requires principal > 0.0 && annualRate > 0.0 && months > 0
    ensures out == Schedule(principal, annualRate / 12.0, Payment(principal, annualRate / 12.0, months), months)
    ensures |out| == months && out[months - 1].balance == 0.0
    ensures forall i :: 0 <= i < months ==> -0.015 <= out[i].payment - out[i].principal - out[i].interest <= 0.015
    ensures forall i :: 0 <= i < months ==>
              && out[i].period == i + 1
              && Near(out[i].balance, ClosedForm(principal, annualRate / 12.0, months, i + 1))
  {
    var r := annualRate / 12.0;
    var payment := Payment(principal, r, months);
    out := Amortize(principal, r, payment, months);
    ScheduleRows(principal, r, payment, months, 0);
    forall i | 0 <= i < months
      ensures -0.015 <= out[i].payment - out[i].principal - out[i].interest <= 0.015
      ensures out[i].period == i + 1 && Near(out[i].balance, ClosedForm(principal, r, months, i + 1))
      ensures i == months - 1 ==> out[i].balance == 0.0
    {
      ScheduleRows(principal, r, payment, months, i);
      PrintedRows(principal, r, months, i + 1);
    }
  }

  /** The demo company's own loan. */
  method DemoSchedule() returns (out: seq<LoanPayment>)
    ensures |out| == 60 && out[59].balance == 0.0
    ensures forall i :: 0 <= i < 60 ==> out[i].period == i + 1
    ensures forall i :: 0 <= i < 60 ==> Near(out[i].balance, ClosedForm(500000.0, 0.065 / 12.0, 60, i + 1))
  {
    out := GenerateLoanSchedule(PRINCIPAL, ANNUAL_RATE, MONTHS);
  }
}
