/**
  The one-page quote document as the list of calls made on the drawing
  surface, in order, with their coordinates (points, origin bottom-left).
  The page size is a parameter; the document itself uses US Letter.
 */
module Layout {
  datatype Font = Helvetica | HelveticaBold

  /** One call on the drawing surface. */
  datatype Command =
    | SetFont(font: Font, size: nat)
    | DrawString(x: real, y: real, text: string)
    | DrawRightString(x: real, y: real, text: string)
    | DrawLine(x1: real, y1: real, x2: real, y2: real)
    | SetLineWidth(lineWidth: real)
    | DrawImage(x: real, y: real, w: real, h: real)

  const LetterWidth: real := 612.0
  const LetterHeight: real := 792.0
  /** Left margin of every text, and right margin of the right-aligned values. */
  const Margin: real := 72.0
  const LogoSize: real := 80.0
  /** Vertical step between two summary rows. */
  const RowStep: real := 16.0

  /** The texts one quote fills into the page, already formatted: the names,
      the area and percentage with two decimals, the amounts in currency
      format, the term in years and months. */
  datatype Sheet = Sheet(
    lot: string, client: string, advisor: string,
    area: string, basePrice: string,
    downPayment: string, downPct: string,
    balance: string, term: string, payment: string)

  /** Title, the optional logo in the top-right corner, and the rule below them. */
  function Header(width: real, height: real, logo: bool): (r: seq<Command>)
  {
    [SetFont(HelveticaBold, 16), DrawString(Margin, height - 72.0, "Cotización de Terreno")]
    + (if logo then [DrawImage(width - Margin - LogoSize, height - 90.0, LogoSize, LogoSize)] else [])
    + [DrawLine(Margin, height - 105.0, width - Margin, height - 105.0)]
  }

  /** Date, client and advisor lines. */
  function Meta(height: real, stamp: string, client: string, advisor: string): (r: seq<Command>)
  {
    [ SetFont(Helvetica, 10),
      DrawString(Margin, height - 125.0, "Fecha: " + stamp),
      DrawString(Margin, height - 139.0, "Cliente: " + client),
      DrawString(Margin, height - 153.0, "Asesor: " + advisor),
      SetFont(HelveticaBold, 10) ]
  }

  /** The detail block drawn from cursor y; also returns the cursor after it. */
  function Detail(y: real, s: Sheet): (r: (seq<Command>, real))
  {
    var yLot := y - 18.0;
    var yArea := yLot - 16.0;
    var yBase := yArea - 16.0;
    var yNext := yBase - 22.0;
    ([ SetFont(HelveticaBold, 12),
       DrawString(Margin, y, "Detalle"),
       SetFont(Helvetica, 11) ]
     + [ DrawString(Margin, yLot, "Lote: " + s.lot),
       DrawString(Margin, yArea, "Área: " + s.area + " m²"),
       DrawString(Margin, yBase, "Precio base: " + s.basePrice) ],
     yNext)
  }

  /** The summary heading drawn from cursor y; also returns the cursor after it. */
  function SummaryHeading(y: real): (r: (seq<Command>, real))
  {
    ([ SetFont(HelveticaBold, 12),
       DrawString(Margin, y, "Resumen (modelo por factores)"),
       SetFont(Helvetica, 11) ],
     y - 18.0)
  }

  /** Label on the left margin, value right-aligned on the right margin, one
      row per pair, each row one step below the previous one. */
  function Rows(width: real, y: real, rows: seq<(string, string)>): (r: (seq<Command>, real))
    ensures |r.0| == 2 * |rows|
    ensures r.1 == y - RowStep * |rows| as real
    ensures forall i :: 0 <= i < |rows| ==>
      && r.0[2 * i] == DrawString(Margin, y - RowStep * i as real, rows[i].0)
      && r.0[2 * i + 1] == DrawRightString(width - Margin, y - RowStep * i as real, rows[i].1)
    decreases |rows|
  {
    if rows == [] then ([], y)
    else
      var (rest, yEnd) := Rows(width, y - RowStep, rows[1..]);
      ([DrawString(Margin, y, rows[0].0), DrawRightString(width - Margin, y, rows[0].1)] + rest, yEnd)
  }

  /** The four summary rows. */
  function SummaryRows(s: Sheet): (r: seq<(string, string)>)
  {
    [ ("Enganche:", s.downPayment + "  (" + s.downPct + "%)"),
      ("Saldo a financiar:", s.balance),
      ("Plazo:", s.term),
      ("Cuota mensual:", s.payment) ]
  }

  /** The footer rule and the attribution line, at fixed heights. */
  function Footer(width: real): (r: seq<Command>)
  {
    [ SetLineWidth(1.0),
      DrawLine(Margin, 90.0, width - Margin, 90.0),
      SetFont(Helvetica, 9),
      DrawString(Margin, 72.0, "Desarrollado por M.Alfaro") ]
  }

  /** Everything below the date, client and advisor lines: the detail block,
      the summary and the footer, laid out with a running cursor that starts
      185 points below the top edge. */
  function Contents(width: real, height: real, s: Sheet): (r: seq<Command>)
  {
    var (detail, y1) := Detail(height - 185.0, s);
    var (heading, y2) := SummaryHeading(y1);
    var (rows, _) := Rows(width, y2, SummaryRows(s));
    detail + heading + rows + Footer(width)
  }

  /** The whole page, in drawing order. */
  function Page(width: real, height: real, logo: bool, stamp: string, s: Sheet): (r: seq<Command>)
  {
    Header(width, height, logo) + Meta(height, stamp, s.client, s.advisor) + Contents(width, height, s)
  }

  // ---------------------------------------------------------------------
  // Views of a command list

  datatype Align = Left | Right

  /** A text on the page: where it is anchored, how it is aligned, what it says. */
  datatype Placed = Placed(x: real, y: real, align: Align, text: string)

  /** The texts of a command list, in drawing order. */
  function Texts(cmds: seq<Command>): (r: seq<Placed>)
    decreases |cmds|
  {
    if cmds == [] then [] else TextOf(cmds[0]) + Texts(cmds[1..])
  }

  /** The text one command puts on the page, if any. */
  function TextOf(c: Command): (r: seq<Placed>)
  {
    match c
    case DrawString(x, y, text) => [Placed(x, y, Left, text)]
    case DrawRightString(x, y, text) => [Placed(x, y, Right, text)]
    case _ => []
  }

  lemma TextsCons(c: Command, rest: seq<Command>)
    ensures Texts([c] + rest) == TextOf(c) + Texts(rest)
  {
    assert ([c] + rest)[1..] == rest;
  }

  lemma Texts3(a: Command, b: Command, c: Command)
    ensures Texts([a, b, c]) == TextOf(a) + TextOf(b) + TextOf(c)
  {
    TextsCons(c, []);
    TextsCons(b, [c]);
    TextsCons(a, [b, c]);
    assert [a] + [b, c] == [a, b, c] && [b] + [c] == [b, c] && [c] + [] == [c];
  }

  lemma {:induction false} TextsAppend(a: seq<Command>, b: seq<Command>)
    ensures Texts(a + b) == Texts(a) + Texts(b)
    decreases |a|
  {
    if a != [] {
      assert (a + b)[1..] == a[1..] + b;
      TextsAppend(a[1..], b);
    } else {
      assert a + b == b;
    }
  }

  /** The command list without its images. */
  function WithoutImages(cmds: seq<Command>): (r: seq<Command>)
    decreases |cmds|
  {
    if cmds == [] then []
    else (if cmds[0].DrawImage? then [] else [cmds[0]]) + WithoutImages(cmds[1..])
  }

  lemma {:induction false} WithoutImagesAppend(a: seq<Command>, b: seq<Command>)
    ensures WithoutImages(a + b) == WithoutImages(a) + WithoutImages(b)
    decreases |a|
  {
    if a != [] {
      assert (a + b)[1..] == a[1..] + b;
      WithoutImagesAppend(a[1..], b);
    } else {
      assert a + b == b;
    }
  }

  lemma {:induction false} WithoutImagesKeeps(cmds: seq<Command>)
    requires forall i :: 0 <= i < |cmds| ==> !cmds[i].DrawImage?
    ensures WithoutImages(cmds) == cmds
    decreases |cmds|
  {
    if cmds != [] {
      WithoutImagesKeeps(cmds[1..]);
    }
  }

  // ---------------------------------------------------------------------
  // Properties of the page

  function RowPlacements(width: real, y: real, rows: seq<(string, string)>): (r: seq<Placed>)
    decreases |rows|
  {
    if rows == [] then []
    else
      [Placed(Margin, y, Left, rows[0].0), Placed(width - Margin, y, Right, rows[0].1)]
      + RowPlacements(width, y - RowStep, rows[1..])
  }

  lemma {:induction false} RowsTexts(width: real, y: real, rows: seq<(string, string)>)
    ensures Texts(Rows(width, y, rows).0) == RowPlacements(width, y, rows)
    decreases |rows|
  {
    if rows != [] {
      var rest := Rows(width, y - RowStep, rows[1..]).0;
      var a, b := DrawString(Margin, y, rows[0].0), DrawRightString(width - Margin, y, rows[0].1);
      RowsTexts(width, y - RowStep, rows[1..]);
      TextsAppend([a, b], rest);
      assert [a, b][1..] == [b];
    }
  }

  lemma HeaderTexts(width: real, height: real, logo: bool)
    ensures Texts(Header(width, height, logo)) == [Placed(Margin, height - 72.0, Left, "Cotización de Terreno")]
  {
    var t := DrawString(Margin, height - 72.0, "Cotización de Terreno");
    var rule := DrawLine(Margin, height - 105.0, width - Margin, height - 105.0);
    if logo {
      var img := DrawImage(width - Margin - LogoSize, height - 90.0, LogoSize, LogoSize);
      Texts3(t, img, rule);
      TextsCons(SetFont(HelveticaBold, 16), [t, img, rule]);
      assert Header(width, height, logo) == [SetFont(HelveticaBold, 16)] + [t, img, rule];
    } else {
      Texts3(SetFont(HelveticaBold, 16), t, rule);
      assert Header(width, height, logo) == [SetFont(HelveticaBold, 16), t, rule];
    }
  }

  lemma MetaTexts(height: real, stamp: string, client: string, advisor: string)
    ensures Texts(Meta(height, stamp, client, advisor)) == [
      Placed(Margin, height - 125.0, Left, "Fecha: " + stamp),
      Placed(Margin, height - 139.0, Left, "Cliente: " + client),
      Placed(Margin, height - 153.0, Left, "Asesor: " + advisor)]
  {
    var m := Meta(height, stamp, client, advisor);
    Texts3(m[2], m[3], m[4]);
    TextsCons(m[1], [m[2], m[3], m[4]]);
    TextsCons(m[0], [m[1], m[2], m[3], m[4]]);
    assert [m[1]] + [m[2], m[3], m[4]] == [m[1], m[2], m[3], m[4]];
    assert m == [m[0]] + [m[1], m[2], m[3], m[4]];
  }

  lemma DetailTexts(y: real, s: Sheet)
    ensures Detail(y, s).1 == y - 72.0
    ensures Texts(Detail(y, s).0) == [
      Placed(Margin, y, Left, "Detalle"),
      Placed(Margin, y - 18.0, Left, "Lote: " + s.lot),
      Placed(Margin, y - 34.0, Left, "Área: " + s.area + " m²"),
      Placed(Margin, y - 50.0, Left, "Precio base: " + s.basePrice)]
  {
    var d := Detail(y, s).0;
    var top, lines := d[..3], d[3..];
    assert top == [d[0], d[1], d[2]] && lines == [d[3], d[4], d[5]];
    Texts3(d[0], d[1], d[2]);
    Texts3(d[3], d[4], d[5]);
    assert d == top + lines;
    TextsAppend(top, lines);
  }

  lemma HeadingTexts(y: real)
    ensures SummaryHeading(y).1 == y - 18.0
    ensures Texts(SummaryHeading(y).0) == [Placed(Margin, y, Left, "Resumen (modelo por factores)")]
  {
    var d := SummaryHeading(y).0;
    Texts3(d[0], d[1], d[2]);
    assert d == [d[0], d[1], d[2]];
  }

  lemma FooterTexts(width: real)
    ensures Texts(Footer(width)) == [Placed(Margin, 72.0, Left, "Desarrollado por M.Alfaro")]
  {
    var f := Footer(width);
    var a, b, c, d := f[0], f[1], f[2], f[3];
    assert f == [a] + [b, c, d];
    TextsCons(a, [b, c, d]);
    Texts3(b, c, d);
    assert TextOf(a) == [] && TextOf(b) == [] && TextOf(c) == [];
  }

  lemma SummaryTexts(width: real, y: real, s: Sheet)
    ensures var rows := SummaryRows(s);
      Texts(Rows(width, y, rows).0) == [
        Placed(Margin, y, Left, rows[0].0), Placed(width - Margin, y, Right, rows[0].1),
        Placed(Margin, y - 16.0, Left, rows[1].0), Placed(width - Margin, y - 16.0, Right, rows[1].1),
        Placed(Margin, y - 32.0, Left, rows[2].0), Placed(width - Margin, y - 32.0, Right, rows[2].1),
        Placed(Margin, y - 48.0, Left, rows[3].0), Placed(width - Margin, y - 48.0, Right, rows[3].1)]
  {
    var rows := SummaryRows(s);
    RowsTexts(width, y, rows);
    var p3 := RowPlacements(width, y - 48.0, rows[3..]);
    assert rows[3..][1..] == [];
    assert RowPlacements(width, y - 48.0 - RowStep, rows[3..][1..]) == [];
    assert p3 == [Placed(Margin, y - 48.0, Left, rows[3].0), Placed(width - Margin, y - 48.0, Right, rows[3].1)];
    assert rows[2..][1..] == rows[3..];
    var p2 := RowPlacements(width, y - 32.0, rows[2..]);
    assert p2 == [Placed(Margin, y - 32.0, Left, rows[2].0), Placed(width - Margin, y - 32.0, Right, rows[2].1)] + p3;
    assert rows[1..][1..] == rows[2..];
    var p1 := RowPlacements(width, y - 16.0, rows[1..]);
    assert p1 == [Placed(Margin, y - 16.0, Left, rows[1].0), Placed(width - Margin, y - 16.0, Right, rows[1].1)] + p2;
    assert RowPlacements(width, y, rows)
        == [Placed(Margin, y, Left, rows[0].0), Placed(width - Margin, y, Right, rows[0].1)] + p1;
  }

  /** The texts below the metadata lines, anchored from the top edge. */
  lemma ContentsTexts(width: real, height: real, s: Sheet)
    ensures var rows := SummaryRows(s);
      Texts(Contents(width, height, s)) == [
        Placed(Margin, height - 185.0, Left, "Detalle"),
        Placed(Margin, height - 203.0, Left, "Lote: " + s.lot),
        Placed(Margin, height - 219.0, Left, "Área: " + s.area + " m²"),
        Placed(Margin, height - 235.0, Left, "Precio base: " + s.basePrice),
        Placed(Margin, height - 257.0, Left, "Resumen (modelo por factores)")]
      + [
        Placed(Margin, height - 275.0, Left, rows[0].0),
        Placed(width - Margin, height - 275.0, Right, rows[0].1),
        Placed(Margin, height - 291.0, Left, rows[1].0),
        Placed(width - Margin, height - 291.0, Right, rows[1].1),
        Placed(Margin, height - 307.0, Left, rows[2].0),
        Placed(width - Margin, height - 307.0, Right, rows[2].1),
        Placed(Margin, height - 323.0, Left, rows[3].0),
        Placed(width - Margin, height - 323.0, Right, rows[3].1)]
      + [Placed(Margin, 72.0, Left, "Desarrollado por M.Alfaro")]
  {
    var (detail, y1) := Detail(height - 185.0, s);
    var (heading, y2) := SummaryHeading(y1);
    var (rowCmds, _) := Rows(width, y2, SummaryRows(s));
    var footer := Footer(width);
    var rows := SummaryRows(s);
    assert y1 == height - 257.0 && y2 == height - 275.0;
    assert Texts(detail + heading) == [
        Placed(Margin, height - 185.0, Left, "Detalle"),
        Placed(Margin, height - 203.0, Left, "Lote: " + s.lot),
        Placed(Margin, height - 219.0, Left, "Área: " + s.area + " m²"),
        Placed(Margin, height - 235.0, Left, "Precio base: " + s.basePrice),
        Placed(Margin, height - 257.0, Left, "Resumen (modelo por factores)")] by {
      DetailTexts(height - 185.0, s);
      HeadingTexts(y1);
      TextsAppend(detail, heading);
    }
    assert Texts(rowCmds) == [
        Placed(Margin, height - 275.0, Left, rows[0].0),
        Placed(width - Margin, height - 275.0, Right, rows[0].1),
        Placed(Margin, height - 291.0, Left, rows[1].0),
        Placed(width - Margin, height - 291.0, Right, rows[1].1),
        Placed(Margin, height - 307.0, Left, rows[2].0),
        Placed(width - Margin, height - 307.0, Right, rows[2].1),
        Placed(Margin, height - 323.0, Left, rows[3].0),
        Placed(width - Margin, height - 323.0, Right, rows[3].1)] by {
      SummaryTexts(width, y2, s);
    }
    FooterTexts(width);
    assert Texts(Contents(width, height, s)) == Texts(detail + heading) + Texts(rowCmds) + Texts(footer) by {
      TextsAppend(detail + heading, rowCmds);
      TextsAppend(detail + heading + rowCmds, footer);
      assert Contents(width, height, s) == detail + heading + rowCmds + footer;
    }
  }

  /** Every text of the page with its anchor: the layout is fixed relative to
      the top edge down to the last summary row, the footer sits at fixed
      heights, and none of it depends on whether the logo is drawn. */
  lemma PageTexts(width: real, height: real, logo: bool, stamp: string, s: Sheet)
    ensures Texts(Page(width, height, logo, stamp, s)) == [
        Placed(Margin, height - 72.0, Left, "Cotización de Terreno"),
        Placed(Margin, height - 125.0, Left, "Fecha: " + stamp),
        Placed(Margin, height - 139.0, Left, "Cliente: " + s.client),
        Placed(Margin, height - 153.0, Left, "Asesor: " + s.advisor)]
      + Texts(Contents(width, height, s))
  {
    var header := Header(width, height, logo);
    var meta := Meta(height, stamp, s.client, s.advisor);
    HeaderTexts(width, height, logo);
    MetaTexts(height, stamp, s.client, s.advisor);
    TextsAppend(header, meta);
    TextsAppend(header + meta, Contents(width, height, s));
  }

  /** The page opens with the title in bold 16-point type and closes with the
      footer: line width 1, the rule at height 90 across the margins, and the
      attribution line below it. */
  lemma PageFrame(width: real, height: real, logo: bool, stamp: string, s: Sheet)
    ensures var p := Page(width, height, logo, stamp, s);
      && |p| >= 6
      && p[0] == SetFont(HelveticaBold, 16)
      && p[1] == DrawString(Margin, height - 72.0, "Cotización de Terreno")
      && p[|p| - 4] == SetLineWidth(1.0)
      && p[|p| - 3] == DrawLine(Margin, 90.0, width - Margin, 90.0)
      && p[|p| - 1] == DrawString(Margin, 72.0, "Desarrollado por M.Alfaro")
  {
    var head, body := Header(width, height, logo), Meta(height, stamp, s.client, s.advisor) + Contents(width, height, s);
    var c := Contents(width, height, s);
    assert c[|c| - 4..] == Footer(width);
    assert Page(width, height, logo, stamp, s) == head + body;
    assert (head + body)[|head + body| - 4..] == Footer(width);
  }

  predicate NoImages(cmds: seq<Command>)
  {
    forall i :: 0 <= i < |cmds| ==> !cmds[i].DrawImage?
  }

  lemma ContentsHaveNoImages(width: real, height: real, s: Sheet)
    ensures NoImages(Contents(width, height, s))
  {
    var (detail, y1) := Detail(height - 185.0, s);
    var (heading, y2) := SummaryHeading(y1);
    var (rowCmds, _) := Rows(width, y2, SummaryRows(s));
    var rows := SummaryRows(s);
    forall j | 0 <= j < |rowCmds| ensures !rowCmds[j].DrawImage? {
      var i := j / 2;
      assert 0 <= i < |rows|;
      var left, right := rows[i].0, rows[i].1;
      if j % 2 == 0 {
        assert rowCmds[2 * i] == DrawString(Margin, y2 - RowStep * i as real, left);
      } else {
        assert rowCmds[2 * i + 1] == DrawRightString(width - Margin, y2 - RowStep * i as real, right);
      }
    }
    assert NoImages(detail) && NoImages(heading) && NoImages(rowCmds) && NoImages(Footer(width));
    assert Contents(width, height, s) == detail + heading + rowCmds + Footer(width);
  }

  lemma HeaderLogo(width: real, height: real)
    ensures WithoutImages(Header(width, height, true)) == Header(width, height, false)
    ensures NoImages(Header(width, height, false))
    ensures |Header(width, height, true)| == 4 && |Header(width, height, false)| == 3
  {
    var withLogo := Header(width, height, true);
    var a, b, c, d := withLogo[0], withLogo[1], withLogo[2], withLogo[3];
    assert withLogo == [a, b] + [c, d];
    WithoutImagesAppend([a, b], [c, d]);
    WithoutImagesKeeps([a, b]);
    assert [c, d] == [c] + [d];
    WithoutImagesAppend([c], [d]);
    assert WithoutImages([c]) == [] by {
      assert [c][1..] == [];
    }
    WithoutImagesKeeps([d]);
  }

  /** The logo is the only difference the logo file makes: the page with the
      logo is the page without it plus one image in the top-right corner, and
      the title and the rule below it are drawn at the same places either way. */
  lemma LogoOnlyAddsImage(width: real, height: real, stamp: string, s: Sheet)
    ensures NoImages(Page(width, height, false, stamp, s))
    ensures WithoutImages(Page(width, height, true, stamp, s)) == Page(width, height, false, stamp, s)
    ensures |Page(width, height, true, stamp, s)| == |Page(width, height, false, stamp, s)| + 1
    ensures Page(width, height, true, stamp, s)[2] == DrawImage(width - Margin - LogoSize, height - 90.0, LogoSize, LogoSize)
    ensures Page(width, height, true, stamp, s)[1] == Page(width, height, false, stamp, s)[1]
         == DrawString(Margin, height - 72.0, "Cotización de Terreno")
    ensures Page(width, height, true, stamp, s)[3] == Page(width, height, false, stamp, s)[2]
         == DrawLine(Margin, height - 105.0, width - Margin, height - 105.0)
  {
    var body := Meta(height, stamp, s.client, s.advisor) + Contents(width, height, s);
    var withLogo, without := Header(width, height, true), Header(width, height, false);
    var p1, p0 := Page(width, height, true, stamp, s), Page(width, height, false, stamp, s);
    assert p1 == withLogo + body && p0 == without + body;
    HeaderLogo(width, height);
    assert NoImages(body) && WithoutImages(body) == body by {
      ContentsHaveNoImages(width, height, s);
      WithoutImagesKeeps(body);
    }
    assert NoImages(p0);
    WithoutImagesAppend(withLogo, body);
    assert p1[1] == withLogo[1] && p1[2] == withLogo[2] && p1[3] == withLogo[3];
    assert p0[1] == without[1] && p0[2] == without[2];
  }

  /** Two renderings that differ only in the timestamp differ only in the date line. */
  lemma OnlyStampVaries(width: real, height: real, logo: bool, stamp1: string, stamp2: string, s: Sheet)
    ensures |Page(width, height, logo, stamp1, s)| == |Page(width, height, logo, stamp2, s)|
    ensures forall i ::
      (0 <= i < |Page(width, height, logo, stamp1, s)|
       && Page(width, height, logo, stamp1, s)[i] != Page(width, height, logo, stamp2, s)[i]) ==>
      && Page(width, height, logo, stamp1, s)[i] == DrawString(Margin, height - 125.0, "Fecha: " + stamp1)
      && Page(width, height, logo, stamp2, s)[i] == DrawString(Margin, height - 125.0, "Fecha: " + stamp2)
  {
    var header, rest := Header(width, height, logo), Contents(width, height, s);
    var m1, m2 := Meta(height, stamp1, s.client, s.advisor), Meta(height, stamp2, s.client, s.advisor);
    var p1, p2 := header + m1 + rest, header + m2 + rest;
    assert Page(width, height, logo, stamp1, s) == p1;
    assert Page(width, height, logo, stamp2, s) == p2;
    var k := |header|;
    forall i | 0 <= i < |p1| && i != k + 1 ensures p1[i] == p2[i] {
      if i < k {
        assert p1[i] == header[i] && p2[i] == header[i];
      } else if i < k + 5 {
        assert p1[i] == m1[i - k] && p2[i] == m2[i - k];
      } else {
        assert p1[i] == rest[i - k - 5] && p2[i] == rest[i - k - 5];
      }
    }
    assert p1[k + 1] == m1[1] && p2[k + 1] == m2[1];
  }

  /** Where the names and the summary values land in the list of texts. */
  lemma PageFields(width: real, height: real, logo: bool, stamp: string, s: Sheet)
    ensures var t := Texts(Page(width, height, logo, stamp, s));
      && |t| == 18
      && t[2] == Placed(Margin, height - 139.0, Left, "Cliente: " + s.client)
      && t[3] == Placed(Margin, height - 153.0, Left, "Asesor: " + s.advisor)
      && t[5] == Placed(Margin, height - 203.0, Left, "Lote: " + s.lot)
      && t[6] == Placed(Margin, height - 219.0, Left, "Área: " + s.area + " m²")
      && t[7] == Placed(Margin, height - 235.0, Left, "Precio base: " + s.basePrice)
      && t[10] == Placed(width - Margin, height - 275.0, Right, s.downPayment + "  (" + s.downPct + "%)")
      && t[12] == Placed(width - Margin, height - 291.0, Right, s.balance)
      && t[14] == Placed(width - Margin, height - 307.0, Right, s.term)
      && t[16] == Placed(width - Margin, height - 323.0, Right, s.payment)
  {
    var t := Texts(Page(width, height, logo, stamp, s));
    var c := Texts(Contents(width, height, s));
    assert |c| == 14
      && c[1] == Placed(Margin, height - 203.0, Left, "Lote: " + s.lot)
      && c[2] == Placed(Margin, height - 219.0, Left, "Área: " + s.area + " m²")
      && c[3] == Placed(Margin, height - 235.0, Left, "Precio base: " + s.basePrice) by {
      ContentsTexts(width, height, s);
    }
    assert c[6] == Placed(width - Margin, height - 275.0, Right, s.downPayment + "  (" + s.downPct + "%)")
      && c[8] == Placed(width - Margin, height - 291.0, Right, s.balance)
      && c[10] == Placed(width - Margin, height - 307.0, Right, s.term)
      && c[12] == Placed(width - Margin, height - 323.0, Right, s.payment) by {
      ContentsTexts(width, height, s);
    }
    assert |t| == 4 + |c| && t[2] == Placed(Margin, height - 139.0, Left, "Cliente: " + s.client)
      && t[3] == Placed(Margin, height - 153.0, Left, "Asesor: " + s.advisor)
      && t[5] == c[1] && t[6] == c[2] && t[7] == c[3] && t[10] == c[6]
      && t[12] == c[8] && t[14] == c[10] && t[16] == c[12] by {
      PageTexts(width, height, logo, stamp, s);
    }
  }
}
