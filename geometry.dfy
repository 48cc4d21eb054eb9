/**
 * The fixed layout of a label sheet, in millimetres, with ReportLab's origin at
 * the bottom-left corner of the page and y growing upwards.
 */
module Geometry {

  /** Millimetres per typographic point (ReportLab's `mm` is 72/25.4 points). */
  const PointMm: real := 25.4 / 72.0

  /** landscape(A4). */
  const PageWidth: real := 297.0
  const PageHeight: real := 210.0

  const LabelWidth: real := 260.0
  const LabelHeight: real := 80.0
  const MarginX: real := (PageWidth - LabelWidth) / 2.0
  /** `y_positions`: the bottom edge of the cell in slot 0 and in slot 1. */
  const YPositions: seq<real> := [PageHeight - LabelHeight * 1.0 - 20.0, PageHeight - LabelHeight * 2.0 - 40.0]

  const MatrixSize: real := 60.0
  const ArrowSize: real := 50.0
  const ArrowInset: real := 10.0
  /** The font size of the location text, in points. */
  const FontSize: nat := 80
  /** The height the text is centred by: 0.8 of the font size, in points. */
  const TextHeightPt: real := FontSize as real * 0.8

  /** A slot on the page: 0 is the upper one, 1 the lower one. */
  type Slot = s: nat | s < 2

  /** A rectangle given by its bottom-left corner, its width and its height. */
  datatype Box = Box(x: real, y: real, w: real, h: real)
  {
    function Right(): real { x + w }
    function Top(): real { y + h }
    function MidX(): real { x + w / 2.0 }
    function MidY(): real { y + h / 2.0 }

    predicate Within(outer: Box) {
      outer.x <= x && Right() <= outer.Right() && outer.y <= y && Top() <= outer.Top()
    }
  }

  datatype Point = Point(x: real, y: real)

  const PageBox: Box := Box(0.0, 0.0, PageWidth, PageHeight)

  /** The label cell whose bottom-left corner is (x, y). */
  function CellAt(x: real, y: real): Box {
    Box(x, y, LabelWidth, LabelHeight)
  }

  /**
   * The cell of a slot: centred across the page, its bottom edge 100 mm
   * (slot 0) or 200 mm (slot 1) below the top of the page, inside the page.
   */
  function Cell(slot: Slot): (b: Box)
    ensures b == CellAt(b.x, b.y)
    ensures b.Within(PageBox)
    ensures b.MidX() == PageBox.MidX()
    ensures PageHeight - b.y == 100.0 * (slot + 1) as real
  {
    CellAt(MarginX, YPositions[slot])
  }

  /** The two cells are 100 mm apart, with a 20 mm gap between them. */
  lemma SlotSpacing()
    ensures Cell(0).y - Cell(1).y == 100.0
    ensures Cell(0).y - Cell(1).Top() == 20.0
  {
  }

  /** The Data Matrix square of the cell whose bottom-left corner is (x, y). */
  function MatrixBox(x: real, y: real): Box {
    Box(x, y + LabelHeight / 2.0 - MatrixSize / 2.0, MatrixSize, MatrixSize)
  }

  /** The arrow square of the cell whose bottom-left corner is (x, y). */
  function ArrowBox(x: real, y: real): Box {
    Box(x + LabelWidth - ArrowSize - ArrowInset, y + LabelHeight / 2.0 - ArrowSize / 2.0, ArrowSize, ArrowSize)
  }

  /** Where the location text of the cell whose bottom-left corner is (x, y) is drawn centred. */
  function TextAnchor(x: real, y: real): Point {
    Point(x + LabelWidth / 2.0, y + LabelHeight / 2.0 - TextHeightPt * PointMm / 2.0)
  }

  /**
   * The layout inside a cell. The Data Matrix (60 mm) is flush with the left
   * edge; the arrow (50 mm) ends 10 mm inside the right edge and is clear of
   * the Data Matrix; both are inside the cell and centred on its mid-line.
   * The text is anchored on the cell's vertical centre line, its baseline
   * placed so that a line 0.8 of the font size high is centred on the
   * mid-line, inside the cell.
   */
  lemma CellLayout(x: real, y: real)
    ensures var cell := CellAt(x, y); var m := MatrixBox(x, y);
      m.Within(cell) && m.x == cell.x && m.MidY() == cell.MidY() && m.w == m.h == MatrixSize
    ensures var cell := CellAt(x, y); var a := ArrowBox(x, y);
      a.Within(cell) && a.Right() == cell.Right() - ArrowInset && a.MidY() == cell.MidY() && a.w == a.h == ArrowSize
    ensures MatrixBox(x, y).Right() < ArrowBox(x, y).x
    ensures var cell := CellAt(x, y); var t := TextAnchor(x, y);
      t.x == cell.MidX() && t.y + TextHeightPt * PointMm / 2.0 == cell.MidY() && cell.y < t.y < cell.Top()
  {
  }
}
