/**
 * The drawing surface the label sheet is built on: a ReportLab canvas seen as
 * a log of pages, each page the sequence of drawing commands issued on it.
 */
module PdfCanvas {
  import opened Rasters
  import opened Geometry

  datatype Command =
    | DrawImage(image: Image, box: Box, maskAuto: bool)
    | SetFont(name: string, size: nat)
    | DrawCentredString(at: Point, text: string)

  type Page = seq<Command>

  class Canvas {
    /** The pages closed so far, in order. */
    var pages: seq<Page>
    /** The commands drawn on the page that is still open. */
    var current: Page

    constructor ()
      ensures pages == [] && current == []
    {
      pages, current := [], [];
    }

    /** `showPage()`: closes the open page and opens an empty one. */
    method ShowPage()
      modifies this
      ensures pages == old(pages) + [old(current)] && current == []
    {
      pages, current := pages + [current], [];
    }

    method DrawImage(image: Image, box: Box, maskAuto: bool)
      modifies this
      ensures pages == old(pages) && current == old(current) + [Command.DrawImage(image, box, maskAuto)]
    {
      current := current + [Command.DrawImage(image, box, maskAuto)];
    }

    method SetFont(name: string, size: nat)
      modifies this
      ensures pages == old(pages) && current == old(current) + [Command.SetFont(name, size)]
    {
      current := current + [Command.SetFont(name, size)];
    }

    method DrawCentredString(at: Point, text: string)
      modifies this
      ensures pages == old(pages) && current == old(current) + [Command.DrawCentredString(at, text)]
    {
      current := current + [Command.DrawCentredString(at, text)];
    }

    /**
     * `save()`: closes the open page when something was drawn on it; a
     * document in which nothing was ever drawn still gets one (empty) page.
     */
    method Save()
      modifies this
      ensures pages == if old(current) != [] || old(pages) == [] then old(pages) + [old(current)] else old(pages)
      ensures current == []
    {
      if current != [] || pages == [] {
        pages := pages + [current];
      }
      current := [];
    }
  }
}
