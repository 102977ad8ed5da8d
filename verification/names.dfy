/**
  The name handling around document generation: trimming the typed names,
  and the suggested file name built from the lot and the client with every
  space turned into an underscore.
 */
module Names {

  /** The characters trimming removes: space, tab, line feed, carriage return,
      vertical tab and form feed. */
  predicate IsWhitespace(c: char)
  {
    c == ' ' || c == '\t' || c == '\n' || c == '\r' || c == '\U{000B}' || c == '\U{000C}'
  }

  /** How many whitespace characters the string starts with. */
  function LeadingWhitespace(s: string): (n: nat)
    ensures n <= |s|
    ensures forall k :: 0 <= k < n ==> IsWhitespace(s[k])
    ensures n == |s| || !IsWhitespace(s[n])
    decreases |s|
  {
    if s != [] && IsWhitespace(s[0]) then 1 + LeadingWhitespace(s[1..]) else 0
  }

  /** How many whitespace characters the string ends with. */
  function TrailingWhitespace(s: string): (n: nat)
    ensures n <= |s|
    ensures forall k :: |s| - n <= k < |s| ==> IsWhitespace(s[k])
    ensures n == |s| || !IsWhitespace(s[|s| - n - 1])
    decreases |s|
  {
    if s != [] && IsWhitespace(s[|s| - 1]) then 1 + TrailingWhitespace(s[..|s| - 1]) else 0
  }

  /** Drops whitespace at both ends: the result is the piece of the input
      after its leading whitespace, everything outside that piece is
      whitespace, and the piece is empty or starts and ends with a
      non-whitespace character. */
  function Trim(s: string): (r: string)
    ensures LeadingWhitespace(s) + |r| <= |s|
    ensures r == s[LeadingWhitespace(s)..LeadingWhitespace(s) + |r|]
    ensures forall k :: LeadingWhitespace(s) + |r| <= k < |s| ==> IsWhitespace(s[k])
    ensures r == [] || (!IsWhitespace(r[0]) && !IsWhitespace(r[|r| - 1]))
    ensures r == [] <==> forall k :: 0 <= k < |s| ==> IsWhitespace(s[k])
  {
    var i, n := LeadingWhitespace(s), TrailingWhitespace(s);
    if i == |s| then [] else s[i..|s| - n]
  }

  /** Trimming twice is trimming once. */
  lemma TrimIdempotent(s: string)
    ensures Trim(Trim(s)) == Trim(s)
  {
    var r := Trim(s);
    if r != [] {
      assert LeadingWhitespace(r) == 0;
      assert TrailingWhitespace(r) == 0;
    }
  }

  /** Replaces every space by an underscore (other whitespace stays). */
  function Underscore(s: string): (r: string)
    ensures |r| == |s|
    ensures forall k :: 0 <= k < |s| ==> r[k] == (if s[k] == ' ' then '_' else s[k])
    decreases |s|
  {
    if s == [] then []
    else [if s[0] == ' ' then '_' else s[0]] + Underscore(s[1..])
  }

  /** After the replacement no space is left, and the result reads the same
      except where a space was. */
  lemma UnderscoreRemovesSpaces(s: string)
    ensures ' ' !in Underscore(s)
    ensures Underscore(Underscore(s)) == Underscore(s)
    ensures ' ' !in s ==> Underscore(s) == s
  {
    var r := Underscore(s);
    assert forall k :: 0 <= k < |r| ==> r[k] != ' ';
  }

  /** The suggested file name of the quote document. */
  function FileName(lot: string, client: string): (r: string)
    ensures ' ' !in r
    ensures |r| == 21 + |Trim(lot)| + |Trim(client)|
  {
    var l, c := Underscore(Trim(lot)), Underscore(Trim(client));
    assert ' ' !in l by { UnderscoreRemovesSpaces(Trim(lot)); }
    assert ' ' !in c by { UnderscoreRemovesSpaces(Trim(client)); }
    assert ' ' !in "cotizacion_lote_" && ' ' !in ".pdf";
    "cotizacion_lote_" + l + "_" + c + ".pdf"
  }

  /** The name is the fixed prefix, the lot, an underscore, the client and the
      extension; both parts are the trimmed inputs with spaces replaced. */
  lemma FileNameParts(lot: string, client: string)
    ensures var r, l, c := FileName(lot, client), Trim(lot), Trim(client);
      && r[..16] == "cotizacion_lote_"
      && r[|r| - 4..] == ".pdf"
      && r[16 + |l|] == '_'
      && (forall k :: 0 <= k < |l| ==> r[16 + k] == (if l[k] == ' ' then '_' else l[k]))
      && (forall k :: 0 <= k < |c| ==> r[17 + |l| + k] == (if c[k] == ' ' then '_' else c[k]))
  {
  }

  /** A string without whitespace at its ends is left as it is by trimming. */
  lemma TrimKeepsInner(s: string)
    requires s != [] && !IsWhitespace(s[0]) && !IsWhitespace(s[|s| - 1])
    ensures Trim(s) == s
  {
    assert LeadingWhitespace(s) == 0 && TrailingWhitespace(s) == 0;
  }

  lemma UnderscoreLot()
    ensures Underscore("2-7 29") == "2-7_29"
  {
    var r := Underscore("2-7 29");
    assert r[0] == '2' && r[1] == '-' && r[2] == '7' && r[3] == '_' && r[4] == '2' && r[5] == '9';
  }

  lemma UnderscoreClient()
    ensures Underscore("Ana Lopez") == "Ana_Lopez"
  {
    var r := Underscore("Ana Lopez");
    assert r[0] == 'A' && r[1] == 'n' && r[2] == 'a' && r[3] == '_' && r[4] == 'L';
    assert r[5] == 'o' && r[6] == 'p' && r[7] == 'e' && r[8] == 'z';
  }

  lemma FileNameOfExample()
    ensures FileName("2-7 29", "Ana Lopez")
         == "cotizacion_lote_" + "2-7_29" + "_" + "Ana_Lopez" + ".pdf"
  {
    TrimKeepsInner("2-7 29");
    TrimKeepsInner("Ana Lopez");
    UnderscoreLot();
    UnderscoreClient();
  }

  /** Lot "2-7 29" and client "Ana Lopez" give "cotizacion_lote_2-7_29_Ana_Lopez.pdf". */
  lemma FileNameExample()
    ensures FileName("2-7 29", "Ana Lopez") == "cotizacion_lote_2-7_29_Ana_Lopez.pdf"
  {
    FileNameOfExample();
    ExampleSpelling();
  }

  lemma ExampleSpelling()
    ensures "cotizacion_lote_" + "2-7_29" + "_" + "Ana_Lopez" + ".pdf" == "cotizacion_lote_2-7_29_Ana_Lopez.pdf"
  {
  }
}
