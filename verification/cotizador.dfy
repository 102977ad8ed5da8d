/**
  The script's flow: the inputs collected on the page give a quote; pressing
  the generate button checks the client and advisor names and, when both are
  given, produces the one-page document and its suggested file name.
 */
module Cotizador {
  import opened Wrappers
  import opened Factors
  import opened Quote
  import opened Decimal
  import opened Names
  import opened Layout

  /** Everything the input surface collects for one quote. */
  datatype Inputs = Inputs(
    lot: string, areaM2: real, base: real, years: int,
    down: DownPayment, client: string, advisor: string)

  /** The bounds the widgets enforce: area and price fields have minimum 0,
      the term comes from the selector, the down payment from its slider or field. */
  predicate Valid(inp: Inputs)
  {
    inp.areaM2 >= 0.0 && inp.years in Terms && InRange(inp.base, inp.down)
  }

  /** Why no document was produced. */
  datatype Refusal = MissingNames

  /** The generated document and the name it is offered under. */
  datatype Download = Download(page: seq<Command>, fileName: string)

  /** A non-negative quantity to the nearest hundredth, halves rounding up. */
  function Hundredths(x: real): (n: nat)
    requires x >= 0.0
    ensures n as real <= x * 100.0 + 0.5 < n as real + 1.0
  {
    (x * 100.0 + 0.5).Floor
  }

  /** A quantity that already is a whole number of hundredths is kept exactly. */
  lemma HundredthsExact(k: nat)
    ensures Hundredths(k as real / 100.0) == k
  {
    var n := Hundredths(k as real / 100.0);
    assert k as real / 100.0 * 100.0 == k as real;
  }

  /** The texts the page shows for one quote, with the names trimmed. */
  function SheetOf(inp: Inputs, q: Figures): (r: Sheet)
    requires Valid(inp)
    requires q.downAmount >= 0.0 && q.downPct >= 0.0 && q.balance >= 0.0 && q.payment >= 0.0
  {
    Sheet(
      Trim(inp.lot), Trim(inp.client), Trim(inp.advisor),
      Fixed2(Hundredths(inp.areaM2)), Money(Hundredths(inp.base)),
      Money(Hundredths(q.downAmount)), Fixed2(Hundredths(q.downPct)),
      Money(Hundredths(q.balance)), TermText(inp.years as nat), Money(Hundredths(q.payment)))
  }

  /** Every figure on the sheet reads back as that figure rounded to the cent,
      and the names are the trimmed inputs. */
  lemma SheetReadsBack(inp: Inputs, q: Figures)
    requires Valid(inp)
    requires q.downAmount >= 0.0 && q.downPct >= 0.0 && q.balance >= 0.0 && q.payment >= 0.0
    ensures var r := SheetOf(inp, q);
      && r.lot == Trim(inp.lot) && r.client == Trim(inp.client) && r.advisor == Trim(inp.advisor)
      && ParseFixed2(r.area) == Some(Hundredths(inp.areaM2))
      && ParseMoney(r.basePrice) == Some(Hundredths(inp.base))
      && ParseMoney(r.downPayment) == Some(Hundredths(q.downAmount))
      && ParseFixed2(r.downPct) == Some(Hundredths(q.downPct))
      && ParseMoney(r.balance) == Some(Hundredths(q.balance))
      && ParseTermText(r.term) == Some((inp.years as nat, 12 * inp.years as nat))
      && ParseMoney(r.payment) == Some(Hundredths(q.payment))
  {
    var r := SheetOf(inp, q);
    assert ParseFixed2(r.area) == Some(Hundredths(inp.areaM2)) by {
      Fixed2RoundTrip(Hundredths(inp.areaM2));
    }
    assert ParseFixed2(r.downPct) == Some(Hundredths(q.downPct)) by {
      Fixed2RoundTrip(Hundredths(q.downPct));
    }
    assert ParseMoney(r.basePrice) == Some(Hundredths(inp.base)) by {
      MoneyRoundTrip(Hundredths(inp.base));
    }
    assert ParseMoney(r.downPayment) == Some(Hundredths(q.downAmount)) by {
      MoneyRoundTrip(Hundredths(q.downAmount));
    }
    assert ParseMoney(r.balance) == Some(Hundredths(q.balance)) by {
      MoneyRoundTrip(Hundredths(q.balance));
    }
    assert ParseMoney(r.payment) == Some(Hundredths(q.payment)) by {
      MoneyRoundTrip(Hundredths(q.payment));
    }
    assert ParseTermText(r.term) == Some((inp.years as nat, 12 * inp.years as nat)) by {
      TermTextRoundTrip(inp.years as nat);
    }
  }

  /** The quote the page currently shows. */
  function QuoteOf(inp: Inputs): (q: Figures)
    requires Valid(inp)
    ensures q.downAmount >= 0.0 && q.downPct >= 0.0 && q.balance >= 0.0 && q.payment >= 0.0
  {
    Compute(inp.base, inp.years, inp.down)
  }

  /** The generate button: both trimmed names must be non-empty, otherwise
      nothing is produced; the document shows the trimmed names and is
      offered under a file name without spaces. */
  function Generate(inp: Inputs, stamp: string, logo: bool): (r: Result<Download, Refusal>)
    requires Valid(inp)
    ensures r.Success? <==> Trim(inp.client) != [] && Trim(inp.advisor) != []
    ensures r.Failure? ==> r.error == MissingNames
    ensures r.Success? ==> ' ' !in r.value.fileName
    ensures r.Success? ==> r.value.fileName == FileName(inp.lot, inp.client)
  {
    if Trim(inp.client) == [] || Trim(inp.advisor) == [] then
      Failure(MissingNames)
    else
      var page := Page(LetterWidth, LetterHeight, logo, stamp, SheetOf(inp, QuoteOf(inp)));
      Success(Download(page, FileName(inp.lot, inp.client)))
  }

  /** An empty (or all-blank) client name refuses generation whatever else is given. */
  lemma BlankClientRefused(inp: Inputs, stamp: string, logo: bool)
    requires Valid(inp)
    requires forall k :: 0 <= k < |inp.client| ==> IsWhitespace(inp.client[k])
    ensures Generate(inp, stamp, logo) == Failure(MissingNames)
  {
  }

  /** What a generated document says: the trimmed lot, client and advisor on
      their lines, the area and base price as printed, and the summary values
      (down payment with its percentage, balance, term, installment) printed
      from the quote's figures rounded to the cent, right-aligned in their rows. */
  lemma GeneratedDocumentShowsQuote(inp: Inputs, stamp: string, logo: bool)
    requires Valid(inp)
    requires Trim(inp.client) != [] && Trim(inp.advisor) != []
    ensures Generate(inp, stamp, logo).Success?
    ensures var t, q := Texts(Generate(inp, stamp, logo).value.page), QuoteOf(inp);
      && |t| == 18
      && t[2] == Placed(72.0, 653.0, Left, "Cliente: " + Trim(inp.client))
      && t[3] == Placed(72.0, 639.0, Left, "Asesor: " + Trim(inp.advisor))
      && t[5] == Placed(72.0, 589.0, Left, "Lote: " + Trim(inp.lot))
      && t[6] == Placed(72.0, 573.0, Left, "Área: " + Fixed2(Hundredths(inp.areaM2)) + " m²")
      && t[7] == Placed(72.0, 557.0, Left, "Precio base: " + Money(Hundredths(inp.base)))
      && t[10] == Placed(540.0, 517.0, Right,
                         Money(Hundredths(q.downAmount)) + "  (" + Fixed2(Hundredths(q.downPct)) + "%)")
      && t[12] == Placed(540.0, 501.0, Right, Money(Hundredths(q.balance)))
      && t[14] == Placed(540.0, 485.0, Right, TermText(inp.years as nat))
      && t[16] == Placed(540.0, 469.0, Right, Money(Hundredths(q.payment)))
  {
    var q := QuoteOf(inp);
    var sheet := SheetOf(inp, q);
    var t := Texts(Generate(inp, stamp, logo).value.page);
    assert
      && |t| == 18
      && t[2] == Placed(72.0, 653.0, Left, "Cliente: " + sheet.client)
      && t[3] == Placed(72.0, 639.0, Left, "Asesor: " + sheet.advisor)
      && t[5] == Placed(72.0, 589.0, Left, "Lote: " + sheet.lot)
      && t[6] == Placed(72.0, 573.0, Left, "Área: " + sheet.area + " m²")
      && t[7] == Placed(72.0, 557.0, Left, "Precio base: " + sheet.basePrice)
      && t[10] == Placed(540.0, 517.0, Right, sheet.downPayment + "  (" + sheet.downPct + "%)")
      && t[12] == Placed(540.0, 501.0, Right, sheet.balance)
      && t[14] == Placed(540.0, 485.0, Right, sheet.term)
      && t[16] == Placed(540.0, 469.0, Right, sheet.payment)
    by {
      assert Generate(inp, stamp, logo).value.page == Page(LetterWidth, LetterHeight, logo, stamp, sheet);
      PageFields(LetterWidth, LetterHeight, logo, stamp, sheet);
    }
    assert sheet.lot == Trim(inp.lot) && sheet.area == Fixed2(Hundredths(inp.areaM2))
      && sheet.basePrice == Money(Hundredths(inp.base))
      && sheet.downPayment == Money(Hundredths(q.downAmount)) && sheet.downPct == Fixed2(Hundredths(q.downPct))
      && sheet.balance == Money(Hundredths(q.balance)) && sheet.term == TermText(inp.years as nat)
      && sheet.payment == Money(Hundredths(q.payment));
  }

  /** Generating twice with the same inputs gives the same file name and pages
      that differ in the date line only. */
  lemma OnlyDateDiffers(inp: Inputs, stamp1: string, stamp2: string, logo: bool)
    requires Valid(inp)
    requires Trim(inp.client) != [] && Trim(inp.advisor) != []
    ensures Generate(inp, stamp1, logo).Success? && Generate(inp, stamp2, logo).Success?
    ensures var d1, d2 := Generate(inp, stamp1, logo).value, Generate(inp, stamp2, logo).value;
      && d1.fileName == d2.fileName
      && |d1.page| == |d2.page|
      && forall i :: 0 <= i < |d1.page| && d1.page[i] != d2.page[i] ==>
           d1.page[i] == DrawString(72.0, 667.0, "Fecha: " + stamp1)
           && d2.page[i] == DrawString(72.0, 667.0, "Fecha: " + stamp2)
  {
    var sheet := SheetOf(inp, QuoteOf(inp));
    OnlyStampVaries(LetterWidth, LetterHeight, logo, stamp1, stamp2, sheet);
  }

  /** The worked example (price and percentage at their defaults, five years)
      prints a down payment of 6341.12, a balance of 84246.29 and an
      installment of 2326.79. */
  lemma ExampleCents()
    ensures var q := Compute(90587.41, 5, Percentage(7.0));
      && Hundredths(q.downAmount) == 634112
      && Hundredths(q.downPct) == 700
      && Hundredths(q.balance) == 8424629
      && Hundredths(q.payment) == 232679
  {
    Quote.Example();
  }

  /** The quote the page opens with: the price and percentage defaults and the
      selector's first term, four years, give an installment of 2700.22. */
  lemma DefaultQuoteCents()
    ensures var q := Compute(90587.41, 4, Percentage(7.0));
      && Hundredths(q.balance) == 8424629
      && Hundredths(q.payment) == 270022
  {
    var q := Compute(90587.41, 4, Percentage(7.0));
    assert q.balance == 84246.2913;
    assert Factor(4) == 0.03205147;
    assert q.payment == 84246.2913 * 0.03205147;
  }
}
