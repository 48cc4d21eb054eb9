/**
 * The label sheet: each location code becomes a label (Data Matrix symbol,
 * the code in large type, and an arrow for levels 1 and 2), two labels to a
 * landscape A4 page, in input order.
 */
module LabelSheet {
  import opened Wrappers
  import opened LocationCode
  import opened Rasters
  import opened Geometry
  import opened PdfCanvas

  const PrimaryFont: string := "Arial-Black"
  const FallbackFont: string := "Helvetica-Bold"

  /** The font chosen once per document: Arial-Black when its file could be registered, Helvetica-Bold otherwise. */
  function ResolveFont(primaryRegistered: bool): (f: string)
    ensures f == PrimaryFont || f == FallbackFont
    ensures f == PrimaryFont <==> primaryRegistered
  {
    if primaryRegistered then PrimaryFont else FallbackFont
  }

  /** The arrow a level calls for: down for level 1, up for level 2, none for any other level. */
  function ArrowImageFor(level: int): (r: Option<Image>)
    ensures r.Some? <==> level == 1 || level == 2
    ensures r.Some? ==> r.value.ArrowGlyph? && r.value.sizeMm == ArrowSize && r.value.shape.CentredOnAxes()
    ensures r.Some? ==> (r.value.shape.PointsDown() <==> level == 1)
    ensures r.Some? ==> (r.value.shape.PointsUp() <==> level == 2)
  {
    if level == 1 then CreateArrowImage("down", ArrowSize)
    else if level == 2 then CreateArrowImage("up", ArrowSize)
    else None
  }

  function ArrowCommands(code: string, x: real, y: real): seq<Command> {
    match ArrowImageFor(ParseLevel(code))
    case Some(image) => [DrawImage(image, ArrowBox(x, y), true)]
    case None => []
  }

  /** The commands one row issues when it is drawn in `slot`. */
  function LabelCommands(code: string, font: string, slot: Slot): seq<Command> {
    var x, y := MarginX, YPositions[slot];
    [DrawImage(EncodeDataMatrix(code), MatrixBox(x, y), false),
     SetFont(font, FontSize),
     DrawCentredString(TextAnchor(x, y), code)]
    + ArrowCommands(code, x, y)
  }

  /** The texts written by a sequence of commands, in drawing order. */
  function TextsOf(cmds: seq<Command>): seq<string> {
    if cmds == [] then []
    else (if cmds[0].DrawCentredString? then [cmds[0].text] else []) + TextsOf(cmds[1..])
  }

  /** The images placed by a sequence of commands, in drawing order. */
  function ImagesOf(cmds: seq<Command>): seq<Image> {
    if cmds == [] then []
    else (if cmds[0].DrawImage? then [cmds[0].image] else []) + ImagesOf(cmds[1..])
  }

  lemma {:induction false} TextsOfConcat(a: seq<Command>, b: seq<Command>)
    ensures TextsOf(a + b) == TextsOf(a) + TextsOf(b)
    decreases |a|
  {
    if a != [] {
      assert (a + b)[1..] == a[1..] + b;
      TextsOfConcat(a[1..], b);
    } else {
      assert a + b == b;
    }
  }

  lemma {:induction false} ImagesOfConcat(a: seq<Command>, b: seq<Command>)
    ensures ImagesOf(a + b) == ImagesOf(a) + ImagesOf(b)
    decreases |a|
  {
    if a != [] {
      assert (a + b)[1..] == a[1..] + b;
      ImagesOfConcat(a[1..], b);
    } else {
      assert a + b == b;
    }
  }

  /** The commands of a label: the Data Matrix, the font, the text, then the arrow commands. */
  lemma LabelParts(code: string, font: string, slot: Slot)
    ensures var x, y := MarginX, YPositions[slot];
      LabelCommands(code, font, slot) ==
        [DrawImage(EncodeDataMatrix(code), MatrixBox(x, y), false), SetFont(font, FontSize), DrawCentredString(TextAnchor(x, y), code)]
        + ArrowCommands(code, x, y)
  {
  }

  /**
   * The boxes a label draws into are the boxes of its slot's cell: the Data
   * Matrix of the code first, in the cell's matrix square without a mask, and
   * the arrow, when there is one, in the cell's arrow square with the
   * automatic mask.
   */
  lemma LabelBoxes(code: string, font: string, slot: Slot)
    ensures var cell := Cell(slot);
      LabelCommands(code, font, slot)[0] == DrawImage(DataMatrix(code), MatrixBox(cell.x, cell.y), false)
    ensures var cell := Cell(slot);
      forall c :: c in LabelCommands(code, font, slot) && c.DrawImage? && c.image.ArrowGlyph? ==>
        c.box == ArrowBox(cell.x, cell.y) && c.maskAuto && ArrowImageFor(ParseLevel(code)) == Some(c.image)
    ensures forall c :: c in LabelCommands(code, font, slot) && c.DrawImage? && c.image.DataMatrix? ==>
        c == LabelCommands(code, font, slot)[0]
  {
    LabelParts(code, font, slot);
  }

  /** A label writes one text: its code. */
  lemma {:induction false} LabelText(code: string, font: string, slot: Slot)
    ensures TextsOf(LabelCommands(code, font, slot)) == [code]
  {
    var x, y := MarginX, YPositions[slot];
    var text := DrawCentredString(TextAnchor(x, y), code);
    var head := [DrawImage(EncodeDataMatrix(code), MatrixBox(x, y), false), SetFont(font, FontSize), text];
    var arrow := ArrowCommands(code, x, y);
    LabelParts(code, font, slot);
    TextsOfConcat(head, arrow);
    assert head[1..] == [SetFont(font, FontSize), text];
    assert head[1..][1..] == [text];
    assert head[1..][1..][1..] == [];
    assert TextsOf([text]) == [code];
    assert TextsOf(head[1..]) == [code];
    if arrow != [] {
      assert arrow[1..] == [];
    }
  }

  /**
   * A label places the Data Matrix of its code, then an arrow exactly when
   * the code's level calls for one (down for 1, up for 2).
   */
  lemma {:induction false} LabelImages(code: string, font: string, slot: Slot)
    ensures ImagesOf(LabelCommands(code, font, slot)) ==
      [DataMatrix(code)] + match ArrowImageFor(ParseLevel(code)) case Some(a) => [a] case None => []
  {
    var x, y := MarginX, YPositions[slot];
    var text := DrawCentredString(TextAnchor(x, y), code);
    var head := [DrawImage(EncodeDataMatrix(code), MatrixBox(x, y), false), SetFont(font, FontSize), text];
    var arrow := ArrowCommands(code, x, y);
    LabelParts(code, font, slot);
    ImagesOfConcat(head, arrow);
    assert head[1..] == [SetFont(font, FontSize), text];
    assert head[1..][1..] == [text];
    assert head[1..][1..][1..] == [];
    assert ImagesOf([text]) == [];
    assert ImagesOf(head[1..]) == [];
    match ArrowImageFor(ParseLevel(code)) {
      case Some(a) =>
        assert arrow == [DrawImage(a, ArrowBox(x, y), true)];
        assert arrow[1..] == [];
      case None =>
    }
  }

  /**
   * Everything a label draws stays in its slot: every image lies inside the
   * slot's cell and the text is anchored at the cell's centre.
   */
  lemma LabelInCell(code: string, font: string, slot: Slot)
    ensures forall c :: c in LabelCommands(code, font, slot) && c.DrawImage? ==> c.box.Within(Cell(slot))
    ensures forall c :: c in LabelCommands(code, font, slot) && c.DrawCentredString? ==>
      c.at == TextAnchor(Cell(slot).x, Cell(slot).y)
  {
    LabelParts(code, font, slot);
    CellLayout(MarginX, YPositions[slot]);
  }

  /** A label selects the document's font at size 80, and no other. */
  lemma LabelFont(code: string, font: string, slot: Slot)
    ensures forall c :: c in LabelCommands(code, font, slot) && c.SetFont? ==> c == SetFont(font, FontSize)
  {
    LabelParts(code, font, slot);
  }

  // ---------------------------------------------------------------------------
  // Pagination: which row goes on which page, in which slot

  /** A row assigned to a slot of a page. */
  datatype Placement = Placement(code: string, slot: Slot)

  /** Splits a sequence into consecutive pairs, in order; an odd last element stands alone. */
  function Paginate<T>(xs: seq<T>): seq<seq<T>>
    decreases |xs|
  {
    if |xs| <= 1 then (if xs == [] then [] else [xs])
    else [xs[..2]] + Paginate(xs[2..])
  }

  function Flatten<T>(pages: seq<seq<T>>): seq<T> {
    if pages == [] then [] else pages[0] + Flatten(pages[1..])
  }

  /** Every row in input order, the row at index `i` in slot `i % 2`. */
  function Placements(rows: seq<string>): (ps: seq<Placement>)
    ensures |ps| == |rows|
  {
    seq(|rows|, i requires 0 <= i < |rows| => Placement(rows[i], i % 2))
  }

  /** The layout plan of a document: the placements paired off into pages. */
  function Plan(rows: seq<string>): seq<seq<Placement>> {
    Paginate(Placements(rows))
  }

  lemma {:induction false} PaginateLength<T>(xs: seq<T>)
    ensures |Paginate(xs)| == (|xs| + 1) / 2
    decreases |xs|
  {
    if |xs| >= 2 {
      PaginateLength(xs[2..]);
    }
  }

  /** Page `k` holds elements `2k` and `2k + 1`, or `2k` alone as the last page of an odd count. */
  lemma {:induction false} PaginatePage<T>(xs: seq<T>, k: nat)
    requires k < |Paginate(xs)|
    ensures 2 * k < |xs|
    ensures Paginate(xs)[k] == if 2 * k + 1 < |xs| then [xs[2 * k], xs[2 * k + 1]] else [xs[2 * k]]
    decreases k
  {
    PaginateLength(xs);
    if k > 0 {
      PaginatePage(xs[2..], k - 1);
    } else if |xs| >= 2 {
      assert xs[..2] == [xs[0], xs[1]];
    }
  }

  /** Reading the pages one after the other gives back the sequence. */
  lemma {:induction false} PaginateFlatten<T>(xs: seq<T>)
    ensures Flatten(Paginate(xs)) == xs
    decreases |xs|
  {
    if |xs| == 1 {
      assert Flatten(Paginate(xs)) == xs + Flatten([]);
    } else if |xs| >= 2 {
      PaginateFlatten(xs[2..]);
      assert Paginate(xs)[1..] == Paginate(xs[2..]);
      assert xs == xs[..2] + xs[2..];
    }
  }

  /**
   * One more element: after an even count it opens a new page; after an odd
   * count it joins the last page.
   */
  lemma {:induction false} PaginateSnoc<T>(xs: seq<T>, next: T)
    ensures |xs| % 2 == 0 ==> Paginate(xs + [next]) == Paginate(xs) + [[next]]
    ensures |xs| % 2 == 1 ==>
      var p := Paginate(xs);
      |p| > 0 && Paginate(xs + [next]) == p[..|p| - 1] + [p[|p| - 1] + [next]]
    decreases |xs|
  {
    if |xs| == 0 {
      assert xs + [next] == [next];
    } else if |xs| == 1 {
      assert (xs + [next])[2..] == [];
      assert (xs + [next])[..2] == xs + [next];
    } else {
      var rest, ys := xs[2..], xs + [next];
      assert ys[2..] == rest + [next];
      assert ys[..2] == xs[..2];
      assert Paginate(ys) == [xs[..2]] + Paginate(rest + [next]);
      assert Paginate(xs) == [xs[..2]] + Paginate(rest);
      PaginateSnoc(rest, next);
      if |xs| % 2 == 1 {
        PaginateLength(rest);
        var p := Paginate(rest);
        assert Paginate(xs)[..|Paginate(xs)| - 1] == [xs[..2]] + p[..|p| - 1];
      }
    }
  }

  /** The row at index `i` is placed on page `i / 2` in slot `i % 2`. */
  lemma PlanPlacement(rows: seq<string>, i: nat)
    requires i < |rows|
    ensures i / 2 < |Plan(rows)| && i % 2 < |Plan(rows)[i / 2]|
    ensures Plan(rows)[i / 2][i % 2] == Placement(rows[i], i % 2)
  {
    PaginateLength(Placements(rows));
    PaginatePage(Placements(rows), i / 2);
  }

  /**
   * A plan for `N` rows has ⌈N / 2⌉ pages; every page holds two labels except
   * the last, which holds one exactly when `N` is odd: there is no empty page.
   */
  lemma PlanPages(rows: seq<string>, k: nat)
    requires k < |Plan(rows)|
    ensures |Plan(rows)| == (|rows| + 1) / 2
    ensures |Plan(rows)[k]| == if k == |Plan(rows)| - 1 && |rows| % 2 == 1 then 1 else 2
  {
    PaginateLength(Placements(rows));
    PaginatePage(Placements(rows), k);
  }

  /** The plan keeps the input order: reading its pages in turn gives every row once, in order. */
  lemma PlanOrder(rows: seq<string>)
    ensures Flatten(Plan(rows)) == Placements(rows)
  {
    PaginateFlatten(Placements(rows));
  }

  // ---------------------------------------------------------------------------
  // Rendering the plan

  /** The commands of one page: its labels drawn in turn. */
  function RenderPage(page: seq<Placement>, font: string): Page
    decreases |page|
  {
    if page == [] then [] else LabelCommands(page[0].code, font, page[0].slot) + RenderPage(page[1..], font)
  }

  /** The document the rows should produce: each page of the plan rendered. */
  function Document(rows: seq<string>, font: string): (doc: seq<Page>)
    ensures |doc| == |Plan(rows)|
  {
    var plan := Plan(rows);
    seq(|plan|, k requires 0 <= k < |plan| => RenderPage(plan[k], font))
  }

  lemma {:induction false} RenderSnoc(page: seq<Placement>, p: Placement, font: string)
    ensures RenderPage(page + [p], font) == RenderPage(page, font) + LabelCommands(p.code, font, p.slot)
    decreases |page|
  {
    if page == [] {
      assert [] + [p] == [p];
      assert [p][1..] == [];
    } else {
      assert (page + [p])[1..] == page[1..] + [p];
      RenderSnoc(page[1..], p, font);
    }
  }

  lemma RenderSingle(a: Placement, font: string)
    ensures RenderPage([a], font) == LabelCommands(a.code, font, a.slot)
  {
    assert [a][1..] == [];
  }

  lemma RenderPair(a: Placement, b: Placement, font: string)
    ensures RenderPage([a, b], font) == LabelCommands(a.code, font, a.slot) + LabelCommands(b.code, font, b.slot)
  {
    assert [a, b][1..] == [b];
    RenderSingle(b, font);
  }

  /** A rendered page writes the codes of its placements, in order. */
  lemma {:induction false} RenderTexts(page: seq<Placement>, font: string)
    ensures TextsOf(RenderPage(page, font)) == seq(|page|, j requires 0 <= j < |page| => page[j].code)
    decreases |page|
  {
    if page != [] {
      LabelText(page[0].code, font, page[0].slot);
      TextsOfConcat(LabelCommands(page[0].code, font, page[0].slot), RenderPage(page[1..], font));
      RenderTexts(page[1..], font);
    }
  }

  /** Every font selection on a rendered page is the document's font at size 80. */
  lemma {:induction false} RenderFont(page: seq<Placement>, font: string)
    ensures forall c :: c in RenderPage(page, font) && c.SetFont? ==> c == SetFont(font, FontSize)
    decreases |page|
  {
    if page != [] {
      LabelFont(page[0].code, font, page[0].slot);
      RenderFont(page[1..], font);
    }
  }

  /** `N` rows fill ⌈N / 2⌉ pages. */
  lemma PageCount(rows: seq<string>, font: string)
    ensures |Document(rows, font)| == (|rows| + 1) / 2
  {
    PaginateLength(Placements(rows));
  }

  /**
   * The row at index `i` is drawn on page `i / 2` in slot `i % 2`: it opens
   * that page when `i` is even, and follows row `i - 1` when `i` is odd.
   */
  lemma RowPlacement(rows: seq<string>, font: string, i: nat)
    requires i < |rows|
    ensures i / 2 < |Document(rows, font)|
    ensures i % 2 == 0 ==> LabelCommands(rows[i], font, 0) <= Document(rows, font)[i / 2]
    ensures i % 2 == 1 ==>
      Document(rows, font)[i / 2] == LabelCommands(rows[i - 1], font, 0) + LabelCommands(rows[i], font, 1)
  {
    var ps, k := Placements(rows), i / 2;
    PaginateLength(ps);
    PaginatePage(ps, k);
    var page := Plan(rows)[k];
    assert Document(rows, font)[k] == RenderPage(page, font);
    if i % 2 == 0 {
      assert page[0] == Placement(rows[i], 0);
    } else {
      assert page == [Placement(rows[i - 1], 0), Placement(rows[i], 1)];
      RenderPair(Placement(rows[i - 1], 0), Placement(rows[i], 1), font);
    }
  }

  /**
   * Page `k` carries the texts of rows `2k` and `2k + 1` (only `2k` on the
   * last page of an odd count): no page is empty and only the last can hold
   * a single label.
   */
  lemma PageTexts(rows: seq<string>, font: string, k: nat)
    requires k < |Document(rows, font)|
    ensures 2 * k < |rows|
    ensures TextsOf(Document(rows, font)[k]) ==
      if 2 * k + 1 < |rows| then [rows[2 * k], rows[2 * k + 1]] else [rows[2 * k]]
  {
    var ps := Placements(rows);
    PaginatePage(ps, k);
    RenderTexts(Plan(rows)[k], font);
  }

  /** Reading the texts of the document page after page gives back the rows, in input order. */
  lemma DocumentTexts(rows: seq<string>, font: string)
    ensures AllTexts(Document(rows, font)) == rows
  {
    PlanOrder(rows);
    DocumentTextsFrom(rows, font, 0);
  }

  /** The texts of a whole document, page after page. */
  function AllTexts(doc: seq<Page>): seq<string> {
    if doc == [] then [] else TextsOf(doc[0]) + AllTexts(doc[1..])
  }

  function Codes(ps: seq<Placement>): seq<string> {
    seq(|ps|, j requires 0 <= j < |ps| => ps[j].code)
  }

  /** The texts of the pages from `k` on are the codes of the plan's pages from `k` on. */
  lemma {:induction false} DocumentTextsFrom(rows: seq<string>, font: string, k: nat)
    requires k <= |Plan(rows)|
    ensures AllTexts(Document(rows, font)[k..]) == Codes(Flatten(Plan(rows)[k..]))
    decreases |Plan(rows)| - k
  {
    var plan, doc := Plan(rows), Document(rows, font);
    if k < |plan| {
      DocumentTextsFrom(rows, font, k + 1);
      RenderTexts(plan[k], font);
      assert doc[k..][1..] == doc[k + 1..];
      assert plan[k..][1..] == plan[k + 1..];
      assert Codes(plan[k] + Flatten(plan[k + 1..])) == Codes(plan[k]) + Codes(Flatten(plan[k + 1..]));
    } else {
      assert doc[k..] == [] && plan[k..] == [];
    }
  }

  /** Every font selection in the document is the one font chosen up front, at size 80. */
  lemma DocumentFont(rows: seq<string>, font: string)
    ensures forall k, c :: 0 <= k < |Document(rows, font)| && c in Document(rows, font)[k] && c.SetFont? ==>
      c == SetFont(font, FontSize)
  {
    forall k | 0 <= k < |Document(rows, font)|
      ensures forall c :: c in Document(rows, font)[k] && c.SetFont? ==> c == SetFont(font, FontSize)
    {
      RenderFont(Plan(rows)[k], font);
    }
  }

  /**
   * One turn of the row loop on the page log. After the first `i` rows the
   * canvas holds the closed pages `closed` and the open page `open`. Row `i`
   * joins the open page when `i` is odd; when `i` is even (and not the first
   * row) the open page is closed first and the row starts a new one.
   */
  lemma RowStep(rows: seq<string>, font: string, i: nat, closed: seq<Page>, open: Page)
    requires i < |rows|
    requires i > 0 ==> closed + [open] == Document(rows[..i], font)
    ensures var added := LabelCommands(rows[i], font, i % 2);
      (i == 0 ==> [added] == Document(rows[..i + 1], font)) &&
      (i > 0 && i % 2 == 0 ==> closed + [open] + [added] == Document(rows[..i + 1], font)) &&
      (i % 2 == 1 ==> closed + [open + added] == Document(rows[..i + 1], font))
  {
    var p := Placement(rows[i], i % 2);
    var before, after := Placements(rows[..i]), Placements(rows[..i + 1]);
    assert after == before + [p];
    PaginateSnoc(before, p);
    PaginateLength(before);
    var planBefore, planAfter := Plan(rows[..i]), Plan(rows[..i + 1]);
    var docBefore, docAfter := Document(rows[..i], font), Document(rows[..i + 1], font);
    var added := LabelCommands(rows[i], font, i % 2);
    if i % 2 == 0 {
      assert planAfter == planBefore + [[p]];
      RenderSingle(p, font);
      assert docAfter == docBefore + [added];
    } else {
      var last := |planBefore| - 1;
      assert planAfter == planBefore[..last] + [planBefore[last] + [p]];
      RenderSnoc(planBefore[last], p, font);
      assert docAfter[last] == docBefore[last] + added;
      assert docAfter == docBefore[..last] + [docBefore[last] + added];
      assert closed == docBefore[..last] && open == docBefore[last];
    }
  }

  /**
   * The body of the row loop after the page check: reads the level off the
   * code and draws the Data Matrix, the text and, for levels 1 and 2, the
   * arrow into the cell of `slot` on the open page.
   */
  method DrawLabel(c: Canvas, ubicacion: string, fontName: string, slot: Slot)
    modifies c
    ensures c.pages == old(c.pages)
    ensures c.current == old(c.current) + LabelCommands(ubicacion, fontName, slot)
  {
    var nivel := ParseLevel(ubicacion);
    var currentX := MarginX;
    var currentY := YPositions[slot];

    c.DrawImage(EncodeDataMatrix(ubicacion), MatrixBox(currentX, currentY), false);

    c.SetFont(fontName, FontSize);
    c.DrawCentredString(TextAnchor(currentX, currentY), ubicacion);

    var arrowImage: Option<Image> := None;
    if nivel == 1 {
      arrowImage := CreateArrowImage("down", ArrowSize);
    } else if nivel == 2 {
      arrowImage := CreateArrowImage("up", ArrowSize);
    }
    if arrowImage.Some? {
      c.DrawImage(arrowImage.value, ArrowBox(currentX, currentY), true);
    }
  }

  /**
   * `generate_label_pdf_from_dataframe`: walks the rows with the slot counter,
   * starting a new page before a row whenever both slots of the open page are
   * taken, and draws each row into the slot the counter names. Rows are the
   * "Ubicaciones" values as text; the result is the page log of the saved canvas.
   */
  method GenerateLabelPdf(rows: seq<string>, primaryFontRegistered: bool) returns (pages: seq<Page>)
    ensures |rows| == 0 ==> pages == [[]]
    ensures |rows| > 0 ==> pages == Document(rows, ResolveFont(primaryFontRegistered))
  {
    var c := new Canvas();
    var fontName := ResolveFont(primaryFontRegistered);
    var labelOnPageCount := 0;
    for i := 0 to |rows|
      invariant labelOnPageCount == if i == 0 then 0 else 2 - i % 2
      invariant i == 0 ==> c.pages == [] && c.current == []
      invariant i > 0 ==> c.current != [] && c.pages + [c.current] == Document(rows[..i], fontName)
    {
      var ubicacion := rows[i];
      ghost var closed, open := c.pages, c.current;
      if labelOnPageCount == 2 {
        c.ShowPage();
        labelOnPageCount := 0;
      }
      DrawLabel(c, ubicacion, fontName, labelOnPageCount);
      LabelText(ubicacion, fontName, labelOnPageCount);
      RowStep(rows, fontName, i, closed, open);
      ghost var added := LabelCommands(ubicacion, fontName, i % 2);
      if i % 2 == 0 {
        assert c.current == added;
      } else {
        assert c.pages == closed && c.current == open + added;
      }
      labelOnPageCount := labelOnPageCount + 1;
    }
    assert rows[..|rows|] == rows;
    c.Save();
    pages := c.pages;
  }
}
