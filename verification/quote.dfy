/**
  The quote calculator: from a base price, a down-payment choice and a term,
  the down-payment amount and percentage, the financed balance and the
  monthly installment. Quantities are exact reals.
 */
module Quote {
  import opened Factors

  /** Which representation of the down payment the user typed; the other one is derived. */
  datatype DownPayment =
    | Percentage(pct: real)
    | Amount(amount: real)

  /** The derived figures of one quote. */
  datatype Figures = Figures(downAmount: real, downPct: real, balance: real, payment: real)

  /** The ranges the input widgets allow: the price field has minimum 0,
      the slider runs over [0, 100], the amount field over [0, base]. */
  predicate InRange(base: real, down: DownPayment)
  {
    && base >= 0.0
    && match down
       case Percentage(p) => 0.0 <= p <= 100.0
       case Amount(a) => 0.0 <= a <= base
  }

  /** Percentage mode: the amount is that share of the base price (no clamping). */
  function AmountFromPercentage(base: real, pct: real): (a: real)
    ensures a * 100.0 == base * pct
    ensures base >= 0.0 && 0.0 <= pct <= 100.0 ==> 0.0 <= a <= base
  {
    base * (pct / 100.0)
  }

  /** Amount mode: the percentage the amount is of the base price, 0 when there is no price. */
  function PercentageFromAmount(base: real, amount: real): (p: real)
    ensures base <= 0.0 ==> p == 0.0
    ensures base > 0.0 ==> p * base == amount * 100.0
    ensures base > 0.0 && 0.0 <= amount <= base ==> 0.0 <= p <= 100.0
  {
    if base > 0.0 then amount / base * 100.0 else 0.0
  }

  /** The financed balance, floored at zero. */
  function Balance(base: real, amount: real): (b: real)
    ensures b >= 0.0
    ensures b >= base - amount
    ensures b == base - amount || b == 0.0
    ensures amount <= base ==> b == base - amount
  {
    if base - amount > 0.0 then base - amount else 0.0
  }

  /** The monthly installment: the balance scaled by the term's factor. */
  function Payment(balance: real, years: int): (m: real)
    requires years in Terms
    ensures balance >= 0.0 ==> 0.0 <= m <= balance
    ensures m == 0.0 <==> balance == 0.0
    ensures Lookup(years).Some? && m == balance * Lookup(years).value
  {
    balance * Factor(years)
  }

  /** The whole calculation, as the script performs it on every change. */
  function Compute(base: real, years: int, down: DownPayment): (q: Figures)
    requires years in Terms
    requires InRange(base, down)
    ensures 0.0 <= q.downAmount <= base
    ensures 0.0 <= q.downPct <= 100.0
    ensures q.balance == base - q.downAmount
    ensures 0.0 <= q.payment <= q.balance
    ensures q.payment == q.balance * Factor(years)
    ensures base > 0.0 ==> q.downAmount * 100.0 == base * q.downPct
    ensures down.Amount? ==> q.downAmount == down.amount
    ensures down.Percentage? ==> q.downPct == down.pct
  {
    var (amount, pct) := match down
      case Percentage(p) => (AmountFromPercentage(base, p), p)
      case Amount(a) => (a, PercentageFromAmount(base, a));
    var saldo := Balance(base, amount);
    Figures(amount, pct, saldo, Payment(saldo, years))
  }

  /** Percentage to amount and back returns the percentage, whenever there is a price. */
  lemma PercentageRoundTrip(base: real, pct: real)
    requires base > 0.0
    ensures PercentageFromAmount(base, AmountFromPercentage(base, pct)) == pct
  {
    var a := AmountFromPercentage(base, pct);
    assert a / base == pct / 100.0;
    assert PercentageFromAmount(base, a) == a / base * 100.0;
  }

  /** Amount to percentage and back returns the amount, whenever there is a price. */
  lemma AmountRoundTrip(base: real, amount: real)
    requires base > 0.0
    ensures AmountFromPercentage(base, PercentageFromAmount(base, amount)) == amount
  {
    var p := PercentageFromAmount(base, amount);
    assert p / 100.0 == amount / base;
    assert AmountFromPercentage(base, p) == base * (amount / base);
  }

  /** The two input modes describe the same quote: typing the amount that
      percentage mode derived reproduces every figure. */
  lemma ModesAgree(base: real, years: int, pct: real)
    requires years in Terms
    requires base > 0.0 && 0.0 <= pct <= 100.0
    ensures Compute(base, years, Amount(AmountFromPercentage(base, pct)))
         == Compute(base, years, Percentage(pct))
  {
    PercentageRoundTrip(base, pct);
  }

  /** With no price every money figure is zero for every term; the percentage
      is zero in amount mode and stays the slider's value in percentage mode. */
  lemma ZeroPrice(years: int, down: DownPayment)
    requires years in Terms
    requires InRange(0.0, down)
    ensures Compute(0.0, years, down).downAmount == 0.0
    ensures Compute(0.0, years, down).balance == 0.0
    ensures Compute(0.0, years, down).payment == 0.0
    ensures Compute(0.0, years, down).downPct == (if down.Amount? then 0.0 else down.pct)
  {
  }

  /** The balance never exceeds the price and shrinks as the down payment grows. */
  lemma BalanceAntitone(base: real, a1: real, a2: real)
    requires a1 <= a2
    ensures Balance(base, a2) <= Balance(base, a1)
    ensures base >= 0.0 && a1 >= 0.0 ==> Balance(base, a1) <= base
  {
  }

  /** A worked example: the price field's and the slider's defaults (90587.41
      and 7 %) with a five-year term. */
  lemma Example()
    ensures Compute(90587.41, 5, Percentage(7.0))
         == Figures(6341.1187, 7.0, 84246.2913, 84246.2913 * 0.02761891)
  {
    FiveYearFactor();
  }
}
