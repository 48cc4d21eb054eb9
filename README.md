# Warehouse location label sheet

A Dafny model of the label-sheet builder of a small web tool for warehouses.
The tool turns a list of location codes (the "Ubicaciones" column of a
spreadsheet) into a PDF. Each code gets one label: a Data Matrix symbol of the
code, the code itself in large type, and, for codes whose fourth character is
the level digit 1 or 2, an arrow pointing down (level 1) or up (level 2). The
labels are laid out two to a landscape A4 page, in input order.

The model has six modules:

- `Wrappers` (`wrappers.dfy`): the `Option` type.
- `Regex` (`regex.dfy`): Python's `re.match` for patterns built from `.`,
  `\d`, one-character groups and greedy stars. It matches a prefix, and the
  star backtracks.
- `LocationCode` (`location_code.dfy`): the level parse. `RegexLevel` applies
  `^.{3}(\d).*` through the regex model. `ParseLevel` is the closed form, and
  a lemma proves the two equal for every string.
- `Rasters` (`rasters.dfy`): the two images a label carries. Both are kept
  symbolic:
  - the Data Matrix symbol is known only by the code it encodes;
  - the arrow glyph is the matplotlib `FancyArrow` drawn on unit axes.
  It also holds the direction dispatch of `create_arrow_image`.
- `Geometry` (`geometry.dfy`): the page and cell layout.
  - Units are exact millimetres (`real`).
  - The origin is ReportLab's bottom-left corner.
  - Points are converted at 25.4/72 mm.
- `PdfCanvas` (`canvas.dfy`): the ReportLab canvas as a class.
  - `pages` holds the closed pages and `current` the open one.
  - Each page is its log of drawing commands.
- `LabelSheet` (`label_sheet.dfy`): the specification and the builder.
  - The specification is a placement plan: row `i` goes to page `i / 2`, slot
    `i % 2`. A renderer turns each placed row into its label's commands.
  - `GenerateLabelPdf` is the builder's row loop with the slot counter. It is
    proved to produce exactly the rendered plan.

## Model

| member | source | states |
|---|---|---|
| Regex.MatchPrefix | app.py:72 | A match captures one character per group of the pattern, and each captured character is in its group's class |
| Regex.TrailingStarMatches | app.py:72 | The trailing `.*` matches any rest of the string and captures nothing, so the match need not reach the end of the string |
| LocationCode.DigitValue | app.py:74 | `int` of a digit character is its value 0-9 |
| LocationCode.RegexLevel | app.py:71-74 | The level read through `re.match(r'^.{3}(\d).*')` is 0 when there is no match, otherwise the captured digit; it is always 0-9 |
| LocationCode.ParseLevel | app.py:71-74 | The level is the value of the fourth character when the code has at least four characters, the first three are not newlines and the fourth is a digit; it is 0 otherwise, and the parse never fails |
| LocationCode.ParseLevelIsRegexLevel | app.py:71-74 | For every string, the closed-form level equals what the regular expression yields |
| Rasters.CreateArrowImage | app.py:29-35 | There is no image exactly when the direction is neither "down" nor "up". An image is an arrow glyph of the requested size. It points down exactly for "down" and up exactly for "up", and it lies centred on its axes |
| Geometry.Cell | app.py:58-61 | A slot's cell is 260×80 mm and centred across the page (2·margin + 260 = 297). Its bottom edge is 100 mm (slot 0) or 200 mm (slot 1) below the page top, and it lies inside the page |
| Geometry.SlotSpacing | app.py:61 | The two cells are 100 mm apart, with a 20 mm gap between them |
| Geometry.CellLayout | app.py:83-107 | Data Matrix: 60 mm square, flush with the cell's left edge. Arrow: 50 mm square, its right edge 10 mm inside the cell's. Both lie inside the cell, centred on its mid-line, and they do not overlap horizontally. Text: anchored at the cell's horizontal centre, baseline centring a 0.8·size line on the mid-line, inside the cell |
| PdfCanvas.Canvas.constructor | app.py:46 | A new canvas has no pages and an empty open page |
| PdfCanvas.Canvas.ShowPage | app.py:68 | `showPage` closes the open page and opens an empty one |
| PdfCanvas.Canvas.DrawImage | app.py:86 | Drawing an image appends one command to the open page and leaves the closed pages alone |
| PdfCanvas.Canvas.SetFont | app.py:90 | Setting the font appends one command to the open page and leaves the closed pages alone |
| PdfCanvas.Canvas.DrawCentredString | app.py:94 | Drawing the text appends one command to the open page and leaves the closed pages alone |
| PdfCanvas.Canvas.Save | app.py:111 | `save` closes the open page if anything was drawn on it. A canvas on which nothing was ever drawn still gets one empty page |
| LabelSheet.ArrowImageFor | app.py:97-103 | An arrow is chosen exactly for levels 1 and 2. It points down exactly for level 1 and up exactly for level 2, and it is 50 mm |
| LabelSheet.ResolveFont | app.py:50-56 | The document's font is Arial-Black exactly when its file could be registered, and Helvetica-Bold otherwise |
| LabelSheet.LabelBoxes | app.py:76-107 | The first command of a label draws the Data Matrix of its code into the matrix square of its slot's cell, without a mask. Any arrow it draws is the arrow its level calls for, placed in the arrow square of that cell with the automatic mask. The Data Matrix is drawn only once |
| LabelSheet.LabelText | app.py:94 | A label writes exactly one text, its own code |
| LabelSheet.LabelImages | app.py:80-107 | A label places the Data Matrix of its code, followed by an arrow exactly when the code's level calls for one |
| LabelSheet.LabelInCell | app.py:76-107 | Every image a label places lies inside its slot's cell. Its text is anchored at the cell's horizontal centre, 0.4·font size below its mid-line |
| LabelSheet.LabelFont | app.py:89-90 | Every font selection of a label is the document's font at size 80 |
| LabelSheet.PaginateLength | app.py:63-69 | Pairing off `N` items gives ⌈N/2⌉ pages |
| LabelSheet.PaginatePage | app.py:63-69 | Page `k` holds items `2k` and `2k+1`, or only `2k` on the last page of an odd count |
| LabelSheet.PaginateFlatten | app.py:64 | Reading the pages one after the other gives back every item once, in order |
| LabelSheet.PaginateSnoc | app.py:67-69 | One more item opens a new page after an even count and joins the last page after an odd count |
| LabelSheet.PlanPlacement | app.py:64-77 | Row `i` is placed on page `i/2` in slot `i%2` |
| LabelSheet.PlanPages | app.py:63-69 | `N` rows give ⌈N/2⌉ pages. Every page holds two rows, except that the last holds one exactly when `N` is odd; no page is empty |
| LabelSheet.PlanOrder | app.py:64 | The plan keeps every row once, in input order |
| LabelSheet.RenderSnoc | app.py:76-107 | A row added to a page appends its label's commands after those already on the page |
| LabelSheet.RenderTexts | app.py:94 | A rendered page writes the codes of its rows, in order |
| LabelSheet.RenderFont | app.py:89-90 | Every font selection on a rendered page is the document's font at size 80 |
| LabelSheet.PageCount | app.py:63-69 | The document for `N` rows has ⌈N/2⌉ pages |
| LabelSheet.RowPlacement | app.py:64-77 | Row `i` is drawn on page `i/2`. For even `i` it opens the page in slot 0; for odd `i` the page is exactly row `i-1` in slot 0 followed by row `i` in slot 1 |
| LabelSheet.PageTexts | app.py:63-94 | Page `k` writes rows `2k` and `2k+1`, or `2k` alone on the last page of an odd count |
| LabelSheet.DocumentTexts | app.py:64-94 | The texts of the document, page after page, are the rows in input order |
| LabelSheet.DocumentFont | app.py:50-90 | One font, chosen before the loop, is used at size 80 for every label of every page |
| LabelSheet.RowStep | app.py:64-109 | One loop turn on the page log. The first row opens the first page. Any other even row closes the open page and opens a new one. An odd row joins the open page |
| LabelSheet.DrawLabel | app.py:71-107 | Drawing a row in a slot appends exactly that row's label commands to the open page and closes no page |
| LabelSheet.GenerateLabelPdf | app.py:44-111 | For `N ≥ 1` rows the saved pages are exactly the rendered plan. For no rows there is one empty page. The slot counter is 0 or 1 whenever a label is drawn and never exceeds 2 |

## Left out

- The web routes, upload checks and template download (`app.py:117-170`) are HTTP and file I/O.
- Reading the spreadsheet (`pd.read_excel`) and the `str(...)` coercion of each cell are not modelled. The builder takes the column as a sequence of strings.
- `EncodeDataMatrix` stands for the Data Matrix encoder (ISO/IEC 16022), which is a foreign library. It is kept symbolic, so the symbol's modules are not modelled. Its failure on characters the symbology cannot carry, which aborts the whole build, is not modelled either.
- The arrow raster is not modelled: the figure setup, rasterisation and PNG buffering in `create_arrow_image` (`app.py:24-28`, `36-41`). Only the dispatch and the arrow's shape parameters are kept.
- ReportLab's PDF output is not modelled: the byte buffer, page size handling and image masking. The canvas is a log of commands, and `mask='auto'` is kept only as a flag on the command.
- Coordinates are exact millimetres. ReportLab's floating-point points are not modelled.
- Registering the font file (`app.py:50-56`) is file I/O. It becomes the boolean parameter `primaryFontRegistered`, and the warning printed on fallback is left out.
- `\d` is modelled on the ASCII digits. Python also accepts other Unicode decimal digits there, and `int` would convert them.
- `LabelSheet.GenerateLabelPdf`: the result for zero rows (one empty page) follows ReportLab's behaviour of saving a canvas on which nothing was drawn; the source does not show whether this is intended.
- `Geometry.Cell`: the `y_positions` values are the cells' bottom edges. ReportLab's y axis grows upwards, and every drawing of a label is placed at or above that edge: the Data Matrix 10 mm above it, the arrow 15 mm above it and the text baseline 40 mm less 32 pt above it.
