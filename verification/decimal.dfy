/**
  The text formats of the quote document: plain decimal numerals, the
  two-decimal format used for the area and the percentage, the currency
  format with thousands separators, and the term text. Each format comes
  with a parser, and each parser undoes its format.
 */
module Decimal {
  import opened Wrappers

  predicate IsDigit(c: char)
  {
    '0' <= c <= '9'
  }

  predicate AllDigits(s: string)
  {
    forall i :: 0 <= i < |s| ==> IsDigit(s[i])
  }

  function DigitValue(c: char): (d: nat)
    requires IsDigit(c)
    ensures d < 10
  {
    c as int - '0' as int
  }

  function DigitChar(d: nat): (c: char)
    requires d < 10
    ensures IsDigit(c) && DigitValue(c) == d
  {
    ('0' as int + d) as char
  }

  /** The decimal numeral of a natural number, without leading zeros. */
  function NatToString(n: nat): (s: string)
    ensures |s| >= 1 && AllDigits(s)
    ensures s[0] == '0' <==> n == 0
    ensures |s| == 1 <==> n < 10
    decreases n
  {
    if n < 10 then [DigitChar(n)] else NatToString(n / 10) + [DigitChar(n % 10)]
  }

  /** The value of a string of decimal digits (the empty string reads as 0). */
  function ValueOf(s: string): (n: nat)
    requires AllDigits(s)
    decreases |s|
  {
    if s == [] then 0 else ValueOf(s[..|s| - 1]) * 10 + DigitValue(s[|s| - 1])
  }

  /** Reading a numeral back gives the number it was written from. */
  lemma {:induction false} ValueOfNatToString(n: nat)
    ensures ValueOf(NatToString(n)) == n
    decreases n
  {
    if n >= 10 {
      var s := NatToString(n);
      assert s[..|s| - 1] == NatToString(n / 10);
      ValueOfNatToString(n / 10);
    }
  }

  /** Distinct numbers have distinct numerals. */
  lemma NatToStringInjective(a: nat, b: nat)
    requires NatToString(a) == NatToString(b)
    ensures a == b
  {
    ValueOfNatToString(a);
    ValueOfNatToString(b);
  }

  /** Exactly two digits, zero-padded: the fraction part of a two-decimal number. */
  function TwoDigits(n: nat): (s: string)
    requires n < 100
    ensures |s| == 2 && AllDigits(s)
    ensures ValueOf(s) == n
  {
    var hi, lo := DigitChar(n / 10), DigitChar(n % 10);
    assert ValueOf([hi]) == n / 10 by {
      assert [hi][..0] == [];
    }
    assert [hi, lo][..1] == [hi];
    [hi, lo]
  }

  // ---------------------------------------------------------------------
  // Thousands separators

  /** The string with every comma removed. */
  function Ungroup(s: string): (r: string)
    ensures |r| <= |s|
    decreases |s|
  {
    if s == [] then []
    else Ungroup(s[..|s| - 1]) + (if s[|s| - 1] == ',' then [] else [s[|s| - 1]])
  }

  lemma {:induction false} UngroupAppend(a: string, b: string)
    ensures Ungroup(a + b) == Ungroup(a) + Ungroup(b)
    decreases |b|
  {
    if b != [] {
      var ab := a + b;
      assert ab[..|ab| - 1] == a + b[..|b| - 1];
      assert ab[|ab| - 1] == b[|b| - 1];
      UngroupAppend(a, b[..|b| - 1]);
    } else {
      assert a + b == a;
    }
  }

  lemma {:induction false} UngroupDigits(s: string)
    requires AllDigits(s)
    ensures Ungroup(s) == s
    decreases |s|
  {
    if s != [] {
      UngroupDigits(s[..|s| - 1]);
      assert s[..|s| - 1] + [s[|s| - 1]] == s;
    }
  }

  /** A numeral with a comma before every group of three digits counted from
      the right: a leading group of one to three digits, then groups of exactly
      three, each preceded by a comma. */
  predicate WellGrouped(s: string)
    decreases |s|
  {
    if |s| <= 3 then |s| >= 1 && AllDigits(s)
    else
      && |s| >= 5
      && s[|s| - 4] == ','
      && AllDigits(s[|s| - 3..])
      && WellGrouped(s[..|s| - 4])
  }

  /** Appending a comma and a three-digit group keeps a numeral well grouped
      and appends the group to its digits. */
  lemma JoinGroups(g: string, t: string)
    requires WellGrouped(g) && |t| == 3 && AllDigits(t)
    ensures WellGrouped(g + "," + t)
    ensures Ungroup(g + "," + t) == Ungroup(g) + t
  {
    var r := g + "," + t;
    assert r[..|r| - 4] == g && r[|r| - 3..] == t;
    UngroupAppend(g + ",", t);
    UngroupAppend(g, ",");
    UngroupDigits(t);
    assert Ungroup(",") == Ungroup([]) + [];
  }

  /** Inserts the thousands separators into a numeral. */
  function Group(ds: string): (r: string)
    requires |ds| >= 1 && AllDigits(ds)
    ensures WellGrouped(r)
    ensures Ungroup(r) == ds
    decreases |ds|
  {
    if |ds| <= 3 then
      UngroupDigits(ds);
      ds
    else
      var head, tail := ds[..|ds| - 3], ds[|ds| - 3..];
      var g := Group(head);
      JoinGroups(g, tail);
      assert head + tail == ds;
      g + "," + tail
  }

  /** Grouping a numeral that ends in three more digits: those digits form the last group. */
  lemma GroupStep(d: string, t: string)
    requires |d| >= 1 && AllDigits(d) && |t| == 3 && AllDigits(t)
    ensures AllDigits(d + t)
    ensures Group(d + t) == Group(d) + "," + t
  {
    var u := d + t;
    assert u[..|u| - 3] == d && u[|u| - 3..] == t;
  }

  /** A well-grouped string is the grouping of its own digits: Group is the
      only way to separate a numeral into thousands. */
  lemma {:induction false} GroupUnique(s: string)
    requires WellGrouped(s)
    ensures |Ungroup(s)| >= 1 && AllDigits(Ungroup(s))
    ensures Group(Ungroup(s)) == s
    decreases |s|
  {
    if |s| <= 3 {
      UngroupDigits(s);
    } else {
      var p, t := s[..|s| - 4], s[|s| - 3..];
      assert WellGrouped(p) && |t| == 3 && AllDigits(t) && s == p + "," + t;
      GroupUnique(p);
      JoinGroups(p, t);
      GroupStep(Ungroup(p), t);
    }
  }

  // ---------------------------------------------------------------------
  // Two-decimal numbers, as the area and the percentage are printed

  /** A non-negative number given in hundredths, printed with two decimals:
      an integer part without leading zeros, a point, two digits. */
  function Fixed2(h: nat): (s: string)
    ensures |s| >= 4 && s[|s| - 3] == '.'
    ensures AllDigits(s[..|s| - 3]) && AllDigits(s[|s| - 2..])
    ensures s[..|s| - 3] == NatToString(h / 100)
    ensures s[0] == '0' <==> h < 100
  {
    var i, f := NatToString(h / 100), TwoDigits(h % 100);
    assert (i + "." + f)[..|i|] == i && (i + "." + f)[|i| + 1..] == f;
    i + "." + f
  }

  function ParseFixed2(s: string): (r: Option<nat>)
  {
    if |s| >= 4 && s[|s| - 3] == '.' && AllDigits(s[..|s| - 3]) && AllDigits(s[|s| - 2..])
    then Some(ValueOf(s[..|s| - 3]) * 100 + ValueOf(s[|s| - 2..]))
    else None
  }

  lemma Fixed2RoundTrip(h: nat)
    ensures ParseFixed2(Fixed2(h)) == Some(h)
  {
    var i, f := NatToString(h / 100), TwoDigits(h % 100);
    var s := Fixed2(h);
    assert s[..|s| - 3] == i && s[|s| - 2..] == f;
    ValueOfNatToString(h / 100);
  }

  // ---------------------------------------------------------------------
  // Currency: the quetzal sign, thousands separators and two decimals

  /** An amount given in cents, as the document prints it: the sign, a
      well-grouped integer part, a point and two digits. */
  function Money(cents: nat): (s: string)
    ensures |s| >= 6 && s[..2] == "Q " && s[|s| - 3] == '.'
    ensures WellGrouped(s[2..|s| - 3]) && AllDigits(s[|s| - 2..])
  {
    var g, f := Group(NatToString(cents / 100)), TwoDigits(cents % 100);
    MoneyParts(g, f);
    "Q " + g + "." + f
  }

  /** Where the pieces of a currency text sit. */
  lemma MoneyParts(g: string, f: string)
    requires |f| == 2
    ensures var s := "Q " + g + "." + f;
      && |s| == |g| + 5
      && s[..2] == "Q " && s[2..|s| - 3] == g && s[|s| - 3] == '.' && s[|s| - 2..] == f
  {
  }

  /** Reads a currency string back into cents. */
  function ParseMoney(s: string): (r: Option<nat>)
  {
    if |s| >= 6 && s[..2] == "Q " && s[|s| - 3] == '.' && AllDigits(s[|s| - 2..])
       && WellGrouped(s[2..|s| - 3]) && AllDigits(Ungroup(s[2..|s| - 3]))
    then Some(ValueOf(Ungroup(s[2..|s| - 3])) * 100 + ValueOf(s[|s| - 2..]))
    else None
  }

  /** The currency text: the symbol, a well-grouped integer part whose digits
      are the numeral of the whole quetzales, a point, and exactly two digits
      holding the cents. */
  lemma MoneyShape(cents: nat)
    ensures var s := Money(cents);
      && |s| >= 6
      && s[..2] == "Q "
      && WellGrouped(s[2..|s| - 3])
      && Ungroup(s[2..|s| - 3]) == NatToString(cents / 100)
      && AllDigits(Ungroup(s[2..|s| - 3]))
      && ValueOf(Ungroup(s[2..|s| - 3])) == cents / 100
      && s[|s| - 3] == '.'
      && AllDigits(s[|s| - 2..])
      && ValueOf(s[|s| - 2..]) == cents % 100
  {
    var g, f := Group(NatToString(cents / 100)), TwoDigits(cents % 100);
    MoneyParts(g, f);
    ValueOfNatToString(cents / 100);
  }

  /** Parsing the printed amount gives back the cents. */
  lemma MoneyRoundTrip(cents: nat)
    ensures ParseMoney(Money(cents)) == Some(cents)
  {
    MoneyShape(cents);
  }

  /** Different amounts never print the same. */
  lemma MoneyInjective(a: nat, b: nat)
    requires Money(a) == Money(b)
    ensures a == b
  {
    MoneyRoundTrip(a);
    MoneyRoundTrip(b);
  }

  lemma NumeralExample()
    ensures NatToString(90587) == "90587"
  {
    assert DigitChar(9) == '9' && DigitChar(0) == '0' && DigitChar(5) == '5';
    assert DigitChar(8) == '8' && DigitChar(7) == '7';
    assert NatToString(90) == "9" + "0";
    assert NatToString(905) == "90" + "5";
    assert NatToString(9058) == "905" + "8";
  }

  lemma GroupExample()
    ensures Group("90587") == "90,587"
  {
    assert "90587"[..2] == "90" && "90587"[2..] == "587";
  }

  /** The amount 90587.41 prints as "Q 90,587.41". */
  lemma MoneyExample()
    ensures Money(9058741) == "Q 90,587.41"
  {
    NumeralExample();
    GroupExample();
    assert TwoDigits(41) == "41" by {
      assert DigitChar(4) == '4' && DigitChar(1) == '1';
    }
    assert 9058741 / 100 == 90587 && 9058741 % 100 == 41;
    assert Money(9058741) == "Q " + "90,587" + "." + "41";
  }

  // ---------------------------------------------------------------------
  // Term text: the years, the word "años", and the months in parentheses

  /** The term as the summary prints it: the numeral of the years, the word
      for years and an opening parenthesis, the numeral of the months, and the
      word for months with the closing parenthesis. */
  function TermText(years: nat): (s: string)
    ensures LeadingDigits(s) == NatToString(years)
    ensures |s| >= |NatToString(years)| + 14
    ensures s[|NatToString(years)|..|NatToString(years)| + 7] == " años ("
    ensures s[|NatToString(years)| + 7..|s| - 7] == NatToString(12 * years)
    ensures s[|s| - 7..] == " meses)"
  {
    var y, m := NatToString(years), NatToString(12 * years);
    LeadingDigitsOf(y, " años (" + m + " meses)");
    TermTextParts(y, m);
    y + (" años (" + m + " meses)")
  }

  /** Where the pieces of a term text sit. */
  lemma TermTextParts(y: string, m: string)
    ensures var s := y + (" años (" + m + " meses)");
      && |s| == |y| + |m| + 14
      && s[|y|..|y| + 7] == " años ("
      && s[|y| + 7..|s| - 7] == m
      && s[|s| - 7..] == " meses)"
  {
    var s := y + (" años (" + m + " meses)");
    assert s == y + " años (" + m + " meses)";
  }

  /** The longest prefix made of digits. */
  function LeadingDigits(s: string): (r: string)
    ensures r <= s && AllDigits(r)
    ensures |r| < |s| ==> !IsDigit(s[|r|])
    decreases |s|
  {
    if s == [] || !IsDigit(s[0]) then [] else [s[0]] + LeadingDigits(s[1..])
  }

  /** Splits a string into its leading numeral and what follows it. */
  function SplitNumeral(s: string): (r: (string, string))
    ensures r.0 + r.1 == s
  {
    var a := LeadingDigits(s);
    (a, s[|a|..])
  }

  lemma {:induction false} LeadingDigitsOf(d: string, rest: string)
    requires AllDigits(d)
    requires rest == [] || !IsDigit(rest[0])
    ensures LeadingDigits(d + rest) == d
    decreases |d|
  {
    if d != [] {
      assert (d + rest)[1..] == d[1..] + rest;
      LeadingDigitsOf(d[1..], rest);
      assert [d[0]] + d[1..] == d;
    } else {
      assert d + rest == rest;
    }
  }

  /** A numeral followed by a non-digit splits back into the two. */
  lemma SplitNumeralOf(n: nat, rest: string)
    requires rest == [] || !IsDigit(rest[0])
    ensures SplitNumeral(NatToString(n) + rest) == (NatToString(n), rest)
  {
    var d := NatToString(n);
    LeadingDigitsOf(d, rest);
    assert (d + rest)[|d|..] == rest;
  }

  /** Reads the years and the months back out of a term text. */
  function ParseTermText(s: string): (r: Option<(nat, nat)>)
  {
    var (a, r1) := SplitNumeral(s);
    if |a| == 0 || |r1| < 7 || r1[..7] != " años (" then None
    else
      var (b, r2) := SplitNumeral(r1[7..]);
      if |b| == 0 || r2 != " meses)" then None
      else Some((ValueOf(a), ValueOf(b)))
  }

  /** The term text names the years and exactly twelve times as many months. */
  lemma TermTextRoundTrip(years: nat)
    ensures ParseTermText(TermText(years)) == Some((years, 12 * years))
  {
    ParseTermTextOf(years, 12 * years);
  }

  /** The parser reads any years and months numerals back out of the term layout. */
  lemma ParseTermTextOf(years: nat, months: nat)
    ensures ParseTermText(NatToString(years) + (" años (" + NatToString(months) + " meses)"))
         == Some((years, months))
  {
    var y, m := NatToString(years), NatToString(months);
    var tail := " años (" + m + " meses)";
    assert SplitNumeral(y + tail) == (y, tail) && |y| > 0 by {
      SplitNumeralOf(years, tail);
    }
    assert |tail| >= 7 && tail[..7] == " años (" && tail[7..] == m + " meses)" by {
      assert tail == " años (" + (m + " meses)");
    }
    assert SplitNumeral(m + " meses)") == (m, " meses)") && |m| > 0 by {
      SplitNumeralOf(months, " meses)");
    }
    assert ValueOf(y) == years && ValueOf(m) == months by {
      ValueOfNatToString(years);
      ValueOfNatToString(months);
    }
  }


}
