# Warband card sheets: a verified model of the layout engine

`process_warbands.py` turns a list of downloaded card images into a printable
A4 PDF. This project models the part of it that decides what goes where:

- **Grid planning** (`Geometry`). The engine fits `max(1, ⌊avail / (w + m)⌋)`
  columns and rows of `w × h` cells with margin `m` inside the page, less two
  margins.
- **Cell placement** (`Geometry`). Slot `i` goes to row `i div cols` and
  column `i mod cols`, counted from the top. Columns are mirrored when the
  direction is `"rtl"`, and the block of cells is centred on the page.
- **Pagination** (`Pagination`, `Layout`). `draw_images_on_page_specific`
  slices a bucket of images into pages of `images_per_page`. For each page it
  draws the images, adds a page break when images remain, and then asks for
  cut lines.
- **Categorisation** (`Categorize`). The keywords `0`, `order`,
  `destruction`, `death` and `chaos` send a name to the *dedicated* bucket.
  Otherwise `inspired` sends it to the *inspired* bucket, and anything else
  goes to the default bucket. The test is a case-insensitive substring test.
- **Document assembly** (`Document`). `process_images_and_generate_pdf` lays
  out each non-empty bucket in a fixed order:
  - default cards, 63 × 88 mm, left to right;
  - inspired cards, 63 × 88 mm, right to left;
  - dedicated sheets, 148 × 105 mm, left to right.

  Each bucket is followed by a page break, and then the document is saved.

The reportlab canvas is a class, `Pdf.Canvas`. Its state is the log of calls
made on it, `events`. The engine's functions are methods that append to that
log. Each method is proved to produce exactly a log given by a specification
function (`Layout.LayoutEvents`, `Document.DocumentEvents`). The properties of
the layout are proved as lemmas about those functions. `Pdf.Pages` cuts a log
at its page breaks into the printed sheets.

All lengths are exact reals in millimetres. The source multiplies every length
by reportlab's `mm` factor. `Geometry.PlanScaleInvariant` and
`Geometry.OriginScales` show that such a change of unit leaves the grid
unchanged and only scales the positions.

Files:
- `arith.dfy`: integer and real arithmetic facts.
- `geometry.dfy`: grid plan and cell placement.
- `pagination.dfy`: chunking a sequence into pages.
- `canvas.dfy`: the canvas and its call log.
- `layout.dfy`: `draw_images_on_page_specific`.
- `categorize.dfy`: bucketing by name.
- `document.dfy`: `process_images_and_generate_pdf`.

## Model

| member | source | states |
|---|---|---|
| Geometry.FitCount | process_warbands.py:73-74 | The clamped count is at least 1. With a positive stride it either fits the available length or is the clamp (length below one stride), and one more stride never fits |
| Geometry.FitCountIsLargest | process_warbands.py:73-74 | Any number of positive strides that fits the available length is at most the fit count |
| Geometry.Plan | process_warbands.py:67-75 | `images_per_row ≥ 1`, `images_per_col ≥ 1` and `images_per_page ≥ 1` for any non-zero strides |
| Geometry.PlanIsLargestGrid | process_warbands.py:70-75 | With positive strides, no column (row) count that fits between the margins exceeds the plan's, and one more column (row) would not fit |
| Geometry.CardGridOnA4 | process_warbands.py:67-75 | 63 × 88 mm cells with a 3 mm margin give a 3 × 3 grid, 9 per page. Slot 0 is at (7.5, 195.5) ltr and at (139.5, 195.5) rtl |
| Geometry.DedicatedGridOnA4 | process_warbands.py:67-75 | 148 × 105 mm cells with a 3 mm margin give 1 column × 2 rows. The slots are at (31, 150) and (31, 42) |
| Geometry.DirectionOf | process_warbands.py:85 | Definition: `"rtl"` selects right to left, any other string left to right; properties in Document.DirectionNames and Geometry.MirrorPlacement |
| Geometry.BlockWidth | process_warbands.py:88-90 | Definition of `total_row_width`; properties in Geometry.BlockInStrides and Geometry.SlotInsideCentredBlock |
| Geometry.BlockHeight | process_warbands.py:93-95 | Definition of `total_col_height`; properties in Geometry.BlockInStrides and Geometry.SlotInsideCentredBlock |
| Geometry.ColumnX | process_warbands.py:88-91 | Definition of `start_x` for a column; properties in Geometry.GridSpacing, Geometry.ColumnInsideBlock and Geometry.ColumnGap |
| Geometry.RowY | process_warbands.py:93-100 | Definition of `start_y` for a row; properties in Geometry.GridSpacing, Geometry.RowInsideBlock and Geometry.RowGap |
| Geometry.Origin | process_warbands.py:80-100 | Definition of a slot's lower-left origin; properties in Geometry.SlotInsideCentredBlock, Geometry.SlotsDisjoint, Geometry.MirrorPlacement and Layout.SourceOrigin |
| Geometry.SlotCell | process_warbands.py:80-86 | The (row, col) of slot `i`: the column is below `images_per_row`, and row-major reading of the (mirrored, for rtl) cell gives back `i` |
| Geometry.SlotInGrid | process_warbands.py:80-82 | A slot index below `images_per_page` has a row below `images_per_col` |
| Geometry.SlotOfCell | process_warbands.py:80-86 | Every cell of the grid is the cell of some slot of the page, in either direction |
| Geometry.SameCellsBothDirections | process_warbands.py:84-86 | ltr and rtl place a page's slots on the same set of origins |
| Geometry.MirrorPlacement | process_warbands.py:84-91 | rtl keeps the row and mirrors the column: the rtl x is the ltr x reflected about the page's vertical centre line, and y is unchanged |
| Geometry.BlockInStrides | process_warbands.py:88-95 | `total_row_width` (`total_col_height`) is n − 1 strides plus one cell |
| Geometry.GridSpacing | process_warbands.py:88-100 | Neighbouring columns are `w + m` apart and neighbouring rows `h + m` apart, with row 0 on top. Column 0 starts at the block's left edge and row 0 ends at its top edge |
| Geometry.SlotInsideCentredBlock | process_warbands.py:88-100 | The block is centred horizontally and vertically, and every slot of a page lies inside it |
| Geometry.ColumnInsideBlock | process_warbands.py:88-91 | A column of the grid lies between the block's left and right edges |
| Geometry.RowInsideBlock | process_warbands.py:93-100 | A row of the grid lies between the block's bottom and top edges |
| Geometry.SlotsDisjoint | process_warbands.py:80-100 | With non-negative margin and positive strides, two different slots are drawn in non-overlapping cells |
| Geometry.ColumnGap | process_warbands.py:91 | Distinct columns are at least one horizontal stride apart |
| Geometry.RowGap | process_warbands.py:96-100 | Distinct rows are at least one vertical stride apart, the later one lower |
| Geometry.UnclampedBlockWithinMargins | process_warbands.py:70-95 | When the planned columns (rows) fit without the clamp, the block keeps at least one margin from both page edges |
| Geometry.PlanScaleInvariant | process_warbands.py:67-75 | Multiplying every length by a positive unit factor (such as `mm`) leaves the grid plan unchanged |
| Geometry.OriginScales | process_warbands.py:88-100 | Multiplying every length by a factor multiplies every slot origin by it |
| Pagination.Chunks | process_warbands.py:77-78 | Definition of the page slices `range` and slicing produce; properties in Pagination.ChunksPartition, Pagination.ChunkAt and Pagination.ChunkOfItem |
| Pagination.ChunksPartition | process_warbands.py:77-78 | The page slices, concatenated, give back the input, and there are ⌈n / per_page⌉ of them |
| Pagination.ChunkAt | process_warbands.py:77-78 | Page k is the slice starting at k · per_page. It is non-empty and holds at most per_page items, and exactly per_page unless it is the last |
| Pagination.ChunkOfItem | process_warbands.py:77-78 | Item k is at offset `k mod per_page` of page `k div per_page` |
| Pagination.TwentyCardsThreePages | process_warbands.py:77-78 | 20 items at 9 per page make 3 pages, the last holding 2 |
| Pdf.Canvas.constructor | process_warbands.py:155 | A new canvas for the output file has an empty log |
| Pdf.Canvas.DrawImage | process_warbands.py:103-111 | Appends one drawImage call with its bitmap, origin and size |
| Pdf.Canvas.ShowPage | process_warbands.py:115 | Appends one page break |
| Pdf.Canvas.Save | process_warbands.py:194 | Appends the save call |
| Pdf.DrawPdfCutLines | process_warbands.py:118-127 | Appends one cut-line call with its grid and sheet arguments |
| Pdf.Pages | process_warbands.py:115 | A log cut at its page breaks has one page more than it has breaks |
| Pdf.PagesAfterBreak | process_warbands.py:113-115 | A break closes the page before it: the page holds exactly the calls before the break |
| Layout.DrawImagesOnPageSpecific | process_warbands.py:57-127 | The method appends exactly `LayoutEvents` for the bucket, with the A4 sheet, cell size, margin and direction it is given |
| Layout.PlanGrid | process_warbands.py:67-74 | The counts computed as the source does, with floor division clamped to one, are the planned grid, at least one cell each way |
| Layout.DrawPage | process_warbands.py:77-127 | One pass of the page loop appends the page's draws, then a break if items remain, then the cut-line call if enabled |
| Layout.DrawPageImages | process_warbands.py:80-111 | The inner loop appends one drawImage per page item, in slot order, at the slot's origin |
| Layout.SourceOrigin | process_warbands.py:81-100 | `start_x`, `start_y` as the source computes them equal the planned slot origin |
| Layout.DrawEvents | process_warbands.py:80-111 | A page makes exactly one drawing call per image, and nothing else |
| Layout.LayoutEvents | process_warbands.py:77-127 | Definition of the calls one bucket makes, in the source's order; properties in Layout.LayoutDraws, Layout.LayoutCallCounts and Layout.LayoutPagesAsWritten |
| Layout.IntendedLayoutEvents | process_warbands.py:77-127 | Definition of the corrected order, cut lines before the break; properties in Layout.IntendedLayoutPages and Layout.IntendedSameDraws |
| Layout.LayoutDraws | process_warbands.py:77-111 | The k-th drawImage of a bucket draws item k in slot `k mod per_page`. The bitmaps drawn are the bucket's, each once, in order |
| Layout.ItemOnPage | process_warbands.py:77-111 | Item k is printed on sheet `k div per_page` as that sheet's `(k mod per_page)`-th draw, in slot `k mod per_page` |
| Layout.AsWrittenPageDraws | process_warbands.py:77-127 | The drawing calls on sheet j are exactly those of the j-th page slice |
| Layout.LayoutPagesAsWritten | process_warbands.py:77-127 | A non-empty bucket prints ⌈n / per_page⌉ sheets with one break fewer. Sheet j holds slice j's draws, preceded by the previous page's cut lines if j > 0, and followed by its own if it is the last |
| Layout.LayoutCallCounts | process_warbands.py:113-127 | Over a whole bucket: ⌈n / per_page⌉ − 1 breaks (none for an empty bucket), and one cut-line call per page when cut lines are on |
| Layout.PageCounts | process_warbands.py:113-127 | One page makes a break only when items remain after it, and one cut-line call when they are on |
| Layout.AsWrittenCutLinesMisplaced | process_warbands.py:113-127 | As written, a bucket of more than one page with cut lines on gives the first sheet no cut lines and the last sheet two |
| Layout.AsWrittenTenCards | process_warbands.py:113-127 | Ten default cards with cut lines on: two sheets, with 0 and 2 cut-line calls |
| Layout.IntendedLayoutPages | process_warbands.py:113-127 | In the corrected order, sheet j holds slice j's draws followed by its own cut lines: exactly one cut-line call per sheet when on, none when off |
| Layout.IntendedSameDraws | process_warbands.py:77-127 | The corrected order makes the same drawImage calls in the same order, drawing every item once |
| Categorize.ToLowerAppend | process_warbands.py:143 | Lower-casing a concatenation lower-cases each part: `lower(a + b) == lower(a) + lower(b)` |
| Categorize.ToLowerFixedPoints | process_warbands.py:143 | A name is unchanged by lower-casing exactly when it holds no upper-case ASCII letter |
| Categorize.Filter | process_warbands.py:142-152 | Definition of one bucket's contents in input order; properties in Categorize.FilterMembers, Categorize.FilterAppend, Categorize.FilterPartition and Categorize.CategorizeImages |
| Categorize.ToLowerIdempotent | process_warbands.py:143 | Lower-casing twice is lower-casing once, and no upper-case letter survives |
| Categorize.Contains | process_warbands.py:145 | The scan returns true iff the keyword occurs as a contiguous substring |
| Categorize.ContainsAny | process_warbands.py:144-147 | True iff some keyword of the list occurs in the name |
| Categorize.BucketOf | process_warbands.py:143-152 | Dedicated iff a dedicated keyword occurs in the lower-cased name. Inspired iff none does and "inspired" occurs. Otherwise the default bucket |
| Categorize.BucketIgnoresCase | process_warbands.py:143 | A name and its lower-cased form go to the same bucket |
| Categorize.DedicatedWins | process_warbands.py:144-149 | Any occurrence of a dedicated keyword makes the name dedicated, even if it also contains "inspired" |
| Categorize.ZeroMakesDedicated | process_warbands.py:146 | A name with a digit 0 anywhere is dedicated |
| Categorize.InspiredChaosIsDedicated | process_warbands.py:144-150 | "Inspired Chaos Knight" is dedicated |
| Categorize.FilterAppend | process_warbands.py:142-152 | Bucketing a concatenation buckets each part in turn, so each bucket keeps input order |
| Categorize.FilterMembers | process_warbands.py:142-152 | An item is in a bucket iff it is an input item whose name selects that bucket |
| Categorize.FilterPartition | process_warbands.py:142-152 | The three buckets together hold the input items with their multiplicities: every item lands in exactly one bucket |
| Categorize.FilterPartitionImages | process_warbands.py:142-152 | The bitmaps of the three buckets together are those of the input |
| Categorize.FilterImagesSnoc | process_warbands.py:142-152 | A new item adds its bitmap to its own bucket and to no other |
| Categorize.CategorizeImages | process_warbands.py:137-152 | The loop returns the dedicated, inspired and default buckets as defined by BucketOf, in input order |
| Document.Section | process_warbands.py:158-168 | Definition of one `if bucket:` block's calls: the layout then one showPage, nothing for an empty bucket; properties in Document.SectionThen, Document.SectionImages and Document.SectionPageCount |
| Document.DocumentEvents | process_warbands.py:158-194 | Definition of the document's calls: the three sections in order, then save; properties in Document.DocumentPages, Document.DocumentImages and Document.DocumentPageCount |
| Document.ProcessImagesAndGeneratePdf | process_warbands.py:130-194 | Empty input creates no canvas. Otherwise a fresh canvas for the output file receives exactly `DocumentEvents`: default, inspired and dedicated sections in that order, with their sizes and directions, then save |
| Document.DrawBucket | process_warbands.py:158-168 | An empty bucket adds nothing. A non-empty one adds its layout followed by one page break |
| Document.DirectionNames | process_warbands.py:165-189 | "ltr" lays out left to right and "rtl" right to left |
| Document.PagesConcatBreak | process_warbands.py:168 | A break splits the sheets into those before it and those after it |
| Document.SectionThen | process_warbands.py:158-192 | Each bucket's section ends with its own break, so the next bucket starts on a fresh sheet |
| Document.SectionPages | process_warbands.py:158-192 | An empty bucket prints no sheet, and a non-empty one prints at least one |
| Document.ChainPages | process_warbands.py:158-194 | Three sections, each closed by a break, followed by save, print each section's sheets in turn |
| Document.DocumentPages | process_warbands.py:158-194 | Buckets never share a sheet. The sheets are the default bucket's, then the inspired's, then the dedicated's, and a last open page holding only the save call |
| Document.SectionImages | process_warbands.py:158-192 | A section draws exactly its bucket's bitmaps, in order |
| Document.DocumentImages | process_warbands.py:137-194 | Every input image is printed exactly once: the default bucket's in input order, then the inspired's, then the dedicated's. As a multiset they are the input images |
| Document.SectionPageCount | process_warbands.py:158-192 | A bucket takes ⌈n / per_page⌉ sheets |
| Document.DocumentPageCount | process_warbands.py:158-194 | The document prints ⌈o / 9⌉ + ⌈i / 9⌉ + ⌈d / 2⌉ sheets, plus the open page closed by save |

## Left out

- Downloading, reading URL files and the command line (`read_urls_from_folder`, `download_images`, `main`): file and network I/O. The images reach the model as opaque bitmaps with names.
- Console output (`print`) and the blanket `try`/`except` of process_warbands.py:132-198. No exception can arise in the model: the strides used are positive constants, and reportlab failures are outside it.
- reportlab internals. `ImageReader`, aspect-ratio fitting (`preserveAspectRatio`, `anchor="c"`) and the PDF bytes are not modelled. A drawImage call is recorded with its bitmap and rectangle.
- The drawing done by `draw_pdf_cut_lines`. Line 10 imports it from uw_images_to_pdf.py, whose copy in the repository does not define it, so the import would fail as shipped; only the call and its arguments are recorded.
- Whether reportlab emits a blank sheet for the page left open when `save` is called. `Document.DocumentPages` shows that page holds no drawing call.
- Floating point. Lengths are exact reals in millimetres, so rounding in `//` on floats is not modelled.
- Layout.DrawImagesOnPageSpecific: a zero stride (`image_width + margin == 0`) is a ZeroDivisionError in the source. It is excluded by a precondition rather than modelled as an error.
- Categorize.ToLower: `str.lower()` is modelled for ASCII letters only. Unicode case mapping is left out.
- Layout.DrawImagesOnPageSpecific: any direction string other than `"rtl"` lays out left to right, as the source's equality test does. The method takes the string, and the layout functions take the resulting direction.
- Document.ProcessImagesAndGeneratePdf: the source returns nothing and leaves the document in the output file. The model returns the canvas (or null for empty input) so that the file's contents can be stated.
- uw_images_to_pdf.py (HTML scraping and downloads) and batch_generate_pdfs.py (subprocess orchestration) are not part of this model.

## Findings

| source | as written | input that shows it | evidently intended | confidence | as-written member | corrected member |
|---|---|---|---|---|---|---|
| process_warbands.py:113-127 | `showPage()` (line 115) is called before `draw_pdf_cut_lines` (line 118). Each page's cut lines therefore land on the next sheet: the first sheet of a bucket gets none and the last gets two sets | 10 default cards with `draw_cut_lines=True`: sheet 1 has 0 cut-line calls, sheet 2 has 2 | Cut lines drawn on the page they belong to, before the break: one set per sheet | not executed | Layout.AsWrittenCutLinesMisplaced | Layout.IntendedLayoutPages |
