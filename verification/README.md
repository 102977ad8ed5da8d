# Cotizador de Terrenos — a Dafny model

The application quotes the sale of a real-estate lot. From a base price, a
down payment given either as a percentage or as an amount, and a financing
term of 4 to 10 years, it derives the down payment's other representation,
the financed balance (*saldo a financiar*) and a flat monthly installment
(*cuota mensual*). The installment is the balance times a fixed factor per
term. On request it renders a one-page Letter-size quotation and offers it
under a suggested file name. Both names (client and advisor) must be filled
in before the document is produced.

This project models that logic as pure functions and proves properties of it:

- `factors.dfy` (`Factors`): the term → factor table and its lookup.
- `quote.dfy` (`Quote`): the calculator. It covers percentage ↔ amount, the
  clamped balance, the payment, and the whole calculation for either input
  mode. Quantities are exact `real`s.
- `decimal.dfy` (`Decimal`): the printed formats. These are decimal
  numerals, numbers with exactly two decimals, the currency format
  `money` (the quetzal sign, thousands separators and two decimals, over
  cents) and the term text (the years, the word "años", then the months and
  the word "meses" in parentheses). Each format has a parser that undoes it.
- `names.dfy` (`Names`): trimming, the space → underscore replacement and
  the suggested file name.
- `layout.dfy` (`Layout`): the page as the ordered list of calls made on the
  drawing surface. Each call carries its coordinates. The page size and the
  "logo file exists" flag are parameters.
- `cotizador.dfy` (`Cotizador`): the generate button. It rounds the figures
  to hundredths, checks the names, and builds the page and the file name.
- `wrappers.dfy` (`Wrappers`): `Option` and `Result`.

Inputs that the program takes from outside are parameters. The current date
and time is an opaque `stamp` string. Whether `logo.png` exists is a boolean
`logo`. The widget bounds are the predicate `Quote.InRange` and the predicate
`Cotizador.Valid`: price and area ≥ 0, the slider in [0, 100], the amount
field in [0, base], and the term from the selector.

Two behaviours of the program are worth spelling out:

- With a base price of 0 in percentage mode, the program keeps the slider's
  percentage (7.00 % by default) next to a zero amount. The percentage is 0
  for a zero price only in amount mode (`Quote.ZeroPrice`).
- The term selector starts on its first option, four years. With the price
  and percentage defaults (90587.41 and 7 %) the opening installment is
  84246.2913 × 0.03205147 = 2700.22 (`Cotizador.DefaultQuoteCents`). With a
  five-year term instead it is 84246.2913 × 0.02761891 = 2326.79…
  (`Quote.Example`, `Cotizador.ExampleCents`).

## Model

| member | source | states |
|---|---|---|
| `Factors.Lookup` | app.py:11-19 | The factor dictionary has an entry exactly for the terms 4..10 the selector offers; every factor lies strictly between 0 and 1. |
| `Factors.Factor` | app.py:116-117 | For a term taken from the selector, the lookup `FACTORES[años]` cannot fail; the factor is the table's entry. |
| `Factors.FiveYearFactor` | app.py:13 | The five-year factor is exactly 0.02761891. |
| `Factors.FactorDecreasesWithTerm` | app.py:11-19 | A longer term has a strictly smaller monthly factor. |
| `Factors.InstallmentsExceedBalance` | app.py:11-19 | For every term, 12·years installments add up to more than the financed balance (factor·12·years > 1). |
| `Quote.AmountFromPercentage` | app.py:131-133 | The amount is pct/100 of the base (a·100 = base·pct); for base ≥ 0 and pct in the slider's [0,100] it lies in [0, base]. |
| `Quote.PercentageFromAmount` | app.py:138-140 | The percentage is 0 when base ≤ 0, otherwise p·base = amount·100; for amount in [0, base] it lies in [0,100]. |
| `Quote.Balance` | app.py:143 | The balance is never negative, is base − amount or 0, at least base − amount, and exactly base − amount whenever amount ≤ base. |
| `Quote.Payment` | app.py:144 | The installment is the balance times the term's table factor; it is 0 exactly when the balance is, and never exceeds a non-negative balance. |
| `Quote.Compute` | app.py:128-144 | For in-range inputs: 0 ≤ amount ≤ base, 0 ≤ pct ≤ 100, balance = base − amount, 0 ≤ payment ≤ balance, the amount/percentage pair is consistent with the base, and the typed representation is kept as typed. |
| `Quote.PercentageRoundTrip` | app.py:131-140 | With a positive base, percentage → amount → percentage returns the percentage exactly. |
| `Quote.AmountRoundTrip` | app.py:131-140 | With a positive base, amount → percentage → amount returns the amount exactly. |
| `Quote.ModesAgree` | app.py:128-144 | Typing, in amount mode, the amount that percentage mode derived gives the same quote, every figure included. |
| `Quote.ZeroPrice` | app.py:133-144 | With base 0 the amount, balance and payment are 0 for every term; the percentage is 0 in amount mode and the slider value in percentage mode. |
| `Quote.BalanceAntitone` | app.py:143 | A larger down payment never gives a larger balance, and the balance never exceeds the price. |
| `Quote.Example` | app.py:114-144 | With the price and slider defaults (90587.41, 7 %) and a five-year term, the amount is 6341.1187 and the balance 84246.2913. The payment is 84246.2913 × 0.02761891. |
| `Decimal.ValueOfNatToString` | app.py:89 | A printed integer reads back as the number it was printed from. |
| `Decimal.NatToStringInjective` | app.py:89 | Different numbers never print as the same numeral. |
| `Decimal.Group` | app.py:21-22 | Inserting thousands separators yields a well-grouped numeral: 1–3 leading digits, then comma-led groups of exactly 3. Removing the commas gives back the digits. |
| `Decimal.GroupUnique` | app.py:21-22 | Every well-grouped numeral is the grouping of its own digits, so the separators are placed in exactly one way. |
| `Decimal.Fixed2` | app.py:71 | The two-decimal text is an integer part of digits, a point and exactly two digits; the integer part is exactly the numeral of the whole units, so it has no leading zeros and is `0` below one. |
| `Decimal.Fixed2RoundTrip` | app.py:71 | The two-decimal format used for the area and the percentage parses back to the same number of hundredths. |
| `Decimal.Money` | app.py:21-22 | A currency text starts with `"Q "`, has a point third from the end followed by two digits, and between them a well-grouped integer part. |
| `Decimal.MoneyShape` | app.py:21-22 | A currency text is `"Q "`, then a well-grouped integer part whose digits are exactly the numeral of the whole quetzales (no leading zeros), then `"."`, then exactly two digits holding the cents. With `Decimal.GroupUnique` this fixes the text completely. |
| `Decimal.MoneyRoundTrip` | app.py:21-22 | Parsing a printed amount returns its cents. |
| `Decimal.MoneyInjective` | app.py:21-22 | Different amounts never print the same text. |
| `Decimal.MoneyExample` | app.py:21-22 | 9058741 cents print as "Q 90,587.41". |
| `Decimal.TermText` | app.py:89 | The term text is exactly the numeral of the years, `" años ("`, the numeral of twelve times the years, and `" meses)"`. |
| `Decimal.ParseTermTextOf` | app.py:89 | Any years and months numerals written in the term layout read back as those two numbers. |
| `Decimal.TermTextRoundTrip` | app.py:89 | The term text reads back as the years and exactly twelve times as many months. |
| `Names.Trim` | app.py:168 | Trimming drops exactly the leading and trailing whitespace. The result is empty iff the input is all whitespace, and otherwise starts and ends with a non-whitespace character. |
| `Names.TrimIdempotent` | app.py:168-174 | Trimming a trimmed name changes nothing. |
| `Names.Underscore` | app.py:184 | The replacement keeps the length. Each space becomes `'_'` and every other character stays in place. |
| `Names.UnderscoreRemovesSpaces` | app.py:184 | No space survives the replacement; replacing twice equals replacing once; a string without spaces is unchanged. |
| `Names.FileName` | app.py:184 | The file name has no space. Its length is 21 plus the lengths of the trimmed lot and client. |
| `Names.FileNameParts` | app.py:184 | The file name is `cotizacion_lote_`, the trimmed lot with spaces replaced, `_`, the trimmed client with spaces replaced, `.pdf`. |
| `Names.FileNameExample` | app.py:184 | Lot "2-7 29" and client "Ana Lopez" give `cotizacion_lote_2-7_29_Ana_Lopez.pdf`. |
| `Layout.Rows` | app.py:81-90 | Each summary row puts its label at x = 72 and its value right-aligned at width − 72, on the same line. Each row is 16 points below the previous one, and the cursor ends 16 points per row lower. |
| `Layout.PageTexts` | app.py:42-59 | Whether or not the logo is drawn: title at height − 72, then date, client and advisor at height − 125, − 139, − 153, followed by the texts of the contents. |
| `Layout.ContentsTexts` | app.py:62-98 | Detail block from height − 185 (steps 18, 16, 16, 22), summary heading at − 257, four rows from − 275 to − 323 every 16 points, attribution text at y = 72. |
| `Layout.PageFrame` | app.py:42-97 | The page (`Layout.Page`) opens with the bold 16-point title at height − 72 and closes with line width 1, the footer rule across the margins at height 90, and the attribution at height 72. |
| `Layout.LogoOnlyAddsImage` | app.py:43-54 | Removing the images from the page with the logo gives the page without it, and the page with the logo has exactly one command more. That command is the 80×80 image at (width − 152, height − 90). The title and the separator at height − 105 are identical either way. |
| `Layout.OnlyStampVaries` | app.py:57 | Two pages that differ only in the timestamp have the same length and differ only in the date line. |
| `Layout.PageFields` | app.py:58-90 | On the page, the client, advisor, lot, area and base-price lines, the down payment with its percentage, and the balance, term and installment values sit at fixed positions in the list of texts and at fixed anchors. |
| `Cotizador.Hundredths` | app.py:21-22 | A non-negative quantity is rounded to the nearest hundredth, halves up. |
| `Cotizador.HundredthsExact` | app.py:21-22 | A whole number of hundredths is kept exactly by the rounding. |
| `Cotizador.SheetReadsBack` | app.py:171-182 | The sheet built for the page (`Cotizador.SheetOf`) carries the trimmed lot, client and advisor. Each printed figure (area, base price, down payment, percentage, balance, installment) parses back to the figure rounded to the hundredth. The term text parses back to the years and 12·years months. |
| `Cotizador.Generate` | app.py:167-190 | A document is produced iff the trimmed client and the trimmed advisor are both non-empty. Otherwise the result is the MissingNames refusal. On success the file name is the one built from lot and client, and it has no space. |
| `Cotizador.BlankClientRefused` | app.py:168-169 | An empty or all-blank client name is refused, whatever the other inputs. |
| `Cotizador.GeneratedDocumentShowsQuote` | app.py:171-182 | A generated page shows the trimmed client, advisor and lot. The area and base price appear as printed from the inputs. The down-payment row (amount with the percentage in parentheses), the balance, the term text and the installment appear right-aligned at x = 540 at heights 517, 501, 485 and 469, printed from the quote's figures rounded to the cent. |
| `Cotizador.OnlyDateDiffers` | app.py:167-184 | Generating twice with the same inputs gives the same file name. The two pages have the same length and differ only at the date line, where each shows its own timestamp. |
| `Cotizador.ExampleCents` | app.py:114-144 | With the price and slider defaults and a five-year term, the page prints a down payment of 6341.12, 7.00 %, a balance of 84246.29 and an installment of 2326.79. |
| `Cotizador.DefaultQuoteCents` | app.py:114-144 | The quote the page opens with (price and slider defaults, the selector's first term of four years) has a balance of 84246.29 and an installment of 2700.22. |

## Left out

- The Streamlit widgets, columns, metrics, captions and download button. Only their numeric bounds are kept, as `Quote.InRange` and `Cotizador.Valid`. The on-screen metrics repeat the same `money` texts that the model covers.
- ReportLab itself: creating the canvas, the PDF bytes, `showPage`, `save` and the byte buffer. It is a foreign library, so the page is the list of canvas calls (`Layout.Command`). A failure to create the surface is therefore not modelled.
- `os.path.exists` and reading `logo.png` are file-system I/O. They are replaced by the boolean `logo`.
- `datetime.now()` and its `%Y-%m-%d %H:%M` format: the clock is non-deterministic, so the formatted timestamp is an opaque string argument.
- Binary floating point. All arithmetic is on exact reals, so the round trips hold exactly rather than within a tolerance.
- Cotizador.Hundredths: rounds halves up on the exact value. Python's `:.2f` rounds the binary float half-to-even, so the two can differ in the last cent on ties.
- Names.Trim: removes only space, tab, line feed, carriage return, vertical tab and form feed. Python's `str.strip()` also removes the separators `\x1c`–`\x1f`, `\x85` and the other Unicode whitespace characters.
- The script-level statements after the button (the closing captions) draw nothing that the quote depends on.
