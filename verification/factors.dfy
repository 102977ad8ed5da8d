/**
  The fixed table of monthly factors, one per financing term in years.
  Multiplying the financed balance by the factor of the chosen term gives the
  flat monthly installment; the constants reproduce an external amortization
  schedule exactly instead of recomputing an amortization formula.
 */
module Factors {
  import opened Wrappers

  /** The terms the term selector offers, in the order it shows them. */
  const Terms: seq<int> := [4, 5, 6, 7, 8, 9, 10]

  /** The factor table, keyed by term in years. */
  const Table: map<int, real> := map[
    4 := 0.03205147,
    5 := 0.02761891,
    6 := 0.02512613,
    7 := 0.02281223,
    8 := 0.02158101,
    9 := 0.02067487,
    10 := 0.01999317
  ]

  /** Dictionary lookup: present exactly for the terms the selector offers. */
  function Lookup(years: int): (r: Option<real>)
    ensures r.Some? <==> years in Terms
    ensures r.Some? ==> 0.0 < r.value < 1.0
  {
    if years in Table then Some(Table[years]) else None
  }

  /** The factor of a term the selector offered; the lookup cannot miss there. */
  function Factor(years: int): (f: real)
    requires years in Terms
    ensures Lookup(years) == Some(f)
    ensures 0.0 < f < 1.0
  {
    Table[years]
  }

  /** The five-year factor, as the table states it. */
  lemma FiveYearFactor()
    ensures Factor(5) == 0.02761891
  {
  }

  /** A longer term always gives a smaller monthly factor. */
  lemma FactorDecreasesWithTerm(a: int, b: int)
    requires a in Terms && b in Terms && a < b
    ensures Factor(b) < Factor(a)
  {
  }

  /** Over the whole term the installments add up to more than the financed balance. */
  lemma InstallmentsExceedBalance(years: int)
    requires years in Terms
    ensures Factor(years) * (12 * years) as real > 1.0
  {
  }
}
