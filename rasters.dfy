/**
 * The two rasters a label carries: the Data Matrix symbol of the location code
 * and the arrow glyph. Both are placed on the page, never inspected, so they are
 * kept symbolic: the symbol by the code it encodes, the glyph by the shape that
 * is drawn on the glyph's unit axes.
 */
module Rasters {
  import opened Wrappers

  /**
   * matplotlib's FancyArrow(x, y, dx, dy, width, head_width, head_length) on
   * axes spanning 0..1 in both directions.
   */
  datatype FancyArrow = FancyArrow(x: real, y: real, dx: real, dy: real, width: real, headWidth: real, headLength: real)
  {
    predicate PointsDown() {
      dx == 0.0 && dy < 0.0
    }

    predicate PointsUp() {
      dx == 0.0 && dy > 0.0
    }

    /** The head is drawn beyond (x + dx, y + dy): matplotlib's `length_includes_head` defaults to False. */
    function TipY(): real {
      if dy < 0.0 then y + dy - headLength else y + dy + headLength
    }

    /** The whole arrow lies on the unit axes and is centred on them both ways. */
    predicate CentredOnAxes() {
      x == 0.5 && 0.0 <= x - headWidth / 2.0 && x + headWidth / 2.0 <= 1.0 &&
      0.0 <= y <= 1.0 && 0.0 <= TipY() <= 1.0 && y + TipY() == 1.0
    }
  }

  datatype Image = DataMatrix(code: string) | ArrowGlyph(shape: FancyArrow, sizeMm: real)

  /** The Data Matrix symbol of `code` (ISO/IEC 16022), kept opaque. */
  function EncodeDataMatrix(code: string): Image {
    DataMatrix(code)
  }

  /**
   * `create_arrow_image(direction, size_mm)`: an arrow pointing down for "down",
   * up for "up", and no image for any other direction.
   */
  function CreateArrowImage(direction: string, sizeMm: real): (r: Option<Image>)
    ensures r.None? <==> direction != "down" && direction != "up"
    ensures r.Some? ==> r.value.ArrowGlyph? && r.value.sizeMm == sizeMm && r.value.shape.CentredOnAxes()
    ensures r.Some? ==> (r.value.shape.PointsDown() <==> direction == "down")
    ensures r.Some? ==> (r.value.shape.PointsUp() <==> direction == "up")
  {
    if direction == "down" then Some(ArrowGlyph(FancyArrow(0.5, 0.9, 0.0, -0.6, 0.2, 0.5, 0.2), sizeMm))
    else if direction == "up" then Some(ArrowGlyph(FancyArrow(0.5, 0.1, 0.0, 0.6, 0.2, 0.5, 0.2), sizeMm))
    else None
  }
}
