/**
 * Grid planning and cell placement on one A4 sheet (process_warbands.py,
 * draw_images_on_page_specific, lines 67-100).
 *
 * All lengths are in millimetres. The source works in PDF points (the
 * reportlab `mm` factor times millimetres); PlanScaleInvariant and
 * OriginScales show that the grid plan does not change and every origin
 * scales by the same factor, so the choice of unit does not matter.
 */
module Geometry {
  import opened Arith

  /** reportlab's A4 page, in millimetres. */
  const A4Width: real := 210.0
  const A4Height: real := 297.0

  /** The page and the cell geometry that one bucket is laid out with. */
  datatype Sheet = Sheet(pageW: real, pageH: real, cellW: real, cellH: real, margin: real)
  {
    /** The floor divisions by the per-cell strides are defined (Python raises on a zero divisor). */
    predicate Plannable() { cellW + margin != 0.0 && cellH + margin != 0.0 }

    /** Both strides are positive, the case the layout is designed for. */
    predicate PositiveStrides() { cellW + margin > 0.0 && cellH + margin > 0.0 }

    /** Every length multiplied by the same factor (a change of unit). */
    function Scale(k: real): Sheet
    {
      Sheet(k * pageW, k * pageH, k * cellW, k * cellH, k * margin)
    }
  }

  /** An A4 sheet with the given cell size and margin, as draw_images_on_page_specific uses. */
  function A4Sheet(cellW: real, cellH: real, margin: real): Sheet
  {
    Sheet(A4Width, A4Height, cellW, cellH, margin)
  }

  /** `image_width + margin`: the distance between neighbouring columns. */
  function StrideX(g: Sheet): real { g.cellW + g.margin }

  /** `image_height + margin`: the distance between neighbouring rows. */
  function StrideY(g: Sheet): real { g.cellH + g.margin }

  /** Columns (images per row) and rows (images per column) of a page. */
  datatype GridPlan = GridPlan(perRow: int, perCol: int)
  {
    function PerPage(): int { perRow * perCol }
  }

  /** Column traversal: the source's `direction == "rtl"` test, anything else being left-to-right. */
  datatype Direction = Ltr | Rtl

  function DirectionOf(direction: string): Direction
  {
    if direction == "rtl" then Rtl else Ltr
  }

  /** A slot's position in the grid; row 0 is the top row, column 0 the left one. */
  datatype CellIndex = CellIndex(row: int, col: int)

  /** The lower-left corner of a drawn cell. */
  datatype Point = Point(x: real, y: real)

  /**
   * `max(1, int(avail // stride))`: how many strides fit into the available
   * length, but never fewer than one. With a positive stride the count either
   * fits or is the clamp, and one stride more never fits.
   */
  function FitCount(avail: real, stride: real): (n: int)
    requires stride != 0.0
    ensures n >= 1
    ensures stride > 0.0 ==> n as real * stride <= avail || (n == 1 && avail < stride)
    ensures stride > 0.0 ==> avail < (n + 1) as real * stride
  {
    var q := (avail / stride).Floor;
    if stride > 0.0 then
      FloorBounds(avail, stride);
      Max(1, q)
    else
      Max(1, q)
  }

  lemma FloorBounds(avail: real, stride: real)
    requires stride > 0.0
    ensures (avail / stride).Floor as real * stride <= avail
    ensures avail < ((avail / stride).Floor + 1) as real * stride
  {
    var t := avail / stride;
    var q := t.Floor;
    assert t * stride == avail;
    RealLessMul(q as real, t, stride);
    assert t < (q + 1) as real;
    RealLessMul(t, (q + 1) as real, stride);
    assert t * stride < (q + 1) as real * stride;
    assert avail < (q + 1) as real * stride;
  }

  /** Any count of positive strides that fits is at most the fit count. */
  lemma FitCountIsLargest(avail: real, stride: real, k: int)
    requires stride > 0.0 && k as real * stride <= avail
    ensures k <= FitCount(avail, stride)
  {
    var n := FitCount(avail, stride);
    FewerStrides(k, n + 1, stride, avail);
  }

  /** Grid plan of lines 70-75: columns and rows are each clamped to at least one. */
  function Plan(g: Sheet): (p: GridPlan)
    requires g.Plannable()
    ensures p.perRow >= 1 && p.perCol >= 1 && p.PerPage() >= 1
  {
    var p := GridPlan(FitCount(g.pageW - 2.0 * g.margin, g.cellW + g.margin),
                      FitCount(g.pageH - 2.0 * g.margin, g.cellH + g.margin));
    MulSign(p.perRow, p.perCol);
    p
  }

  /**
   * With positive strides the plan is the largest grid that fits inside the
   * margins: any column count `cols` (row count `rows`) whose strides fit is
   * at most the planned one, and one more column (row) would not fit.
   */
  lemma PlanIsLargestGrid(g: Sheet, cols: int, rows: int)
    requires g.PositiveStrides()
    ensures var p := Plan(g);
      && (cols as real * (g.cellW + g.margin) <= g.pageW - 2.0 * g.margin ==> cols <= p.perRow)
      && (rows as real * (g.cellH + g.margin) <= g.pageH - 2.0 * g.margin ==> rows <= p.perCol)
      && g.pageW - 2.0 * g.margin < (p.perRow + 1) as real * (g.cellW + g.margin)
      && g.pageH - 2.0 * g.margin < (p.perCol + 1) as real * (g.cellH + g.margin)
  {
    var p := Plan(g);
    assert p.perRow == FitCount(g.pageW - 2.0 * g.margin, g.cellW + g.margin);
    assert p.perCol == FitCount(g.pageH - 2.0 * g.margin, g.cellH + g.margin);
    FitCountTight(g.pageW - 2.0 * g.margin, g.cellW + g.margin, cols);
    FitCountTight(g.pageH - 2.0 * g.margin, g.cellH + g.margin, rows);
  }

  /** One axis of PlanIsLargestGrid. */
  lemma FitCountTight(avail: real, stride: real, k: int)
    requires stride > 0.0
    ensures k as real * stride <= avail ==> k <= FitCount(avail, stride)
    ensures avail < (FitCount(avail, stride) + 1) as real * stride
  {
    if k as real * stride <= avail {
      FitCountIsLargest(avail, stride, k);
    }
  }

  /**
   * Lines 81-86: `row = i // perRow`, `col = i % perRow`, and the column is
   * mirrored for "rtl". The result is the unique cell from which the slot
   * index is recovered row-major (reading the mirrored column back).
   */
  function SlotCell(i: nat, perRow: int, dir: Direction): (c: CellIndex)
    requires perRow >= 1
    ensures 0 <= c.row && 0 <= c.col < perRow
    ensures i == c.row * perRow + (if dir == Rtl then perRow - 1 - c.col else c.col)
  {
    var row := i / perRow;
    var col := i % perRow;
    CellIndex(row, if dir == Rtl then perRow - 1 - col else col)
  }

  /** A slot of a page lies inside the planned grid. */
  lemma SlotInGrid(i: nat, p: GridPlan, dir: Direction)
    requires p.perRow >= 1 && p.perCol >= 1 && i < p.PerPage()
    ensures SlotCell(i, p.perRow, dir).row < p.perCol
  {
    var c := SlotCell(i, p.perRow, dir);
    assert c.row * p.perRow <= i < p.perCol * p.perRow;
    MulCancel(c.row, p.perCol, p.perRow);
  }

  /** `total_row_width` of lines 88-90. */
  function BlockWidth(g: Sheet, p: GridPlan): real
  {
    p.perRow as real * g.cellW + (p.perRow - 1) as real * g.margin
  }

  /** `total_col_height` of lines 93-95. */
  function BlockHeight(g: Sheet, p: GridPlan): real
  {
    p.perCol as real * g.cellH + (p.perCol - 1) as real * g.margin
  }

  /** Left edge of the block of cells. */
  function BlockLeft(g: Sheet, p: GridPlan): real
  {
    (g.pageW - BlockWidth(g, p)) / 2.0
  }

  /** Bottom edge of the block of cells. */
  function BlockBottom(g: Sheet, p: GridPlan): real
  {
    (g.pageH - BlockHeight(g, p)) / 2.0
  }

  /** `start_x` of line 91 for a column. */
  function ColumnX(g: Sheet, p: GridPlan, col: int): real
  {
    (g.pageW - BlockWidth(g, p)) / 2.0 + col as real * StrideX(g)
  }

  /** `start_y` of lines 96-100 for a row, measured from the top of the page down. */
  function RowY(g: Sheet, p: GridPlan, row: int): real
  {
    g.pageH - ((g.pageH - BlockHeight(g, p)) / 2.0 + (row + 1) as real * g.cellH + row as real * g.margin)
  }

  /** The lower-left origin at which slot `i` of a page is drawn. */
  function Origin(g: Sheet, p: GridPlan, i: nat, dir: Direction): Point
    requires p.perRow >= 1
  {
    var c := SlotCell(i, p.perRow, dir);
    Point(ColumnX(g, p, c.col), RowY(g, p, c.row))
  }

  /** The block spans (n - 1) strides plus one cell, in each direction. */
  lemma BlockInStrides(g: Sheet, p: GridPlan)
    ensures BlockWidth(g, p) == (p.perRow - 1) as real * StrideX(g) + g.cellW
    ensures BlockHeight(g, p) == (p.perCol - 1) as real * StrideY(g) + g.cellH
  {
    var n, m := p.perRow as real, p.perCol as real;
    assert (n - 1.0) * (g.cellW + g.margin) == (n - 1.0) * g.cellW + (n - 1.0) * g.margin;
    assert (m - 1.0) * (g.cellH + g.margin) == (m - 1.0) * g.cellH + (m - 1.0) * g.margin;
  }

  /** A row's origin, counted in strides down from the top of the block. */
  lemma RowInStrides(g: Sheet, p: GridPlan, row: int)
    ensures RowY(g, p, row) == BlockBottom(g, p) + BlockHeight(g, p) - g.cellH - row as real * StrideY(g)
  {
    var r := row as real;
    assert (r + 1.0) * g.cellH + r * g.margin == r * (g.cellH + g.margin) + g.cellH;
  }

  /**
   * Neighbouring columns are one horizontal stride apart, neighbouring rows
   * one vertical stride apart with row 0 on top, column 0 starts at the
   * block's left edge and row 0 ends at the block's top edge.
   */
  lemma GridSpacing(g: Sheet, p: GridPlan, col: int, row: int)
    ensures ColumnX(g, p, col + 1) - ColumnX(g, p, col) == g.cellW + g.margin
    ensures RowY(g, p, row) - RowY(g, p, row + 1) == g.cellH + g.margin
    ensures ColumnX(g, p, 0) == BlockLeft(g, p)
    ensures RowY(g, p, 0) + g.cellH == BlockBottom(g, p) + BlockHeight(g, p)
  {
    var c := col as real;
    assert (c + 1.0) * StrideX(g) == c * StrideX(g) + StrideX(g);
    RowInStrides(g, p, row);
    RowInStrides(g, p, row + 1);
    RowInStrides(g, p, 0);
    var r := row as real;
    assert (r + 1.0) * StrideY(g) == r * StrideY(g) + StrideY(g);
  }

  /**
   * The block of cells is centred on the page (its left and right edges, and
   * its bottom and top edges, are symmetric about the page's centre lines),
   * and every slot of a page is drawn inside the block.
   */
  lemma SlotInsideCentredBlock(g: Sheet, p: GridPlan, i: nat, dir: Direction)
    requires g.PositiveStrides() && p.perRow >= 1 && p.perCol >= 1 && i < p.PerPage()
    ensures BlockLeft(g, p) + (BlockLeft(g, p) + BlockWidth(g, p)) == g.pageW
    ensures BlockBottom(g, p) + (BlockBottom(g, p) + BlockHeight(g, p)) == g.pageH
    ensures var o := Origin(g, p, i, dir);
      && BlockLeft(g, p) <= o.x && o.x + g.cellW <= BlockLeft(g, p) + BlockWidth(g, p)
      && BlockBottom(g, p) <= o.y && o.y + g.cellH <= BlockBottom(g, p) + BlockHeight(g, p)
  {
    var c := SlotCell(i, p.perRow, dir);
    SlotInGrid(i, p, dir);
    ColumnInsideBlock(g, p, c.col);
    RowInsideBlock(g, p, c.row);
  }

  lemma ColumnInsideBlock(g: Sheet, p: GridPlan, col: int)
    requires StrideX(g) > 0.0 && 0 <= col < p.perRow
    ensures BlockLeft(g, p) <= ColumnX(g, p, col)
    ensures ColumnX(g, p, col) + g.cellW <= BlockLeft(g, p) + BlockWidth(g, p)
  {
    BlockInStrides(g, p);
    RealLessMul(0.0, col as real, StrideX(g));
    RealLessMul(col as real, (p.perRow - 1) as real, StrideX(g));
  }

  lemma RowInsideBlock(g: Sheet, p: GridPlan, row: int)
    requires StrideY(g) > 0.0 && 0 <= row < p.perCol
    ensures BlockBottom(g, p) <= RowY(g, p, row)
    ensures RowY(g, p, row) + g.cellH <= BlockBottom(g, p) + BlockHeight(g, p)
  {
    BlockInStrides(g, p);
    RowInStrides(g, p, row);
    RealLessMul(0.0, row as real, StrideY(g));
    RealLessMul(row as real, (p.perCol - 1) as real, StrideY(g));
  }

  /**
   * Direction only mirrors the placement: the rtl origin of a slot is the
   * ltr origin reflected about the page's vertical centre line
   * (x_rtl + width/2 - pageW/2 == -(x_ltr + width/2 - pageW/2)), at the same height.
   */
  lemma MirrorPlacement(g: Sheet, p: GridPlan, i: nat)
    requires p.perRow >= 1
    ensures SlotCell(i, p.perRow, Rtl).row == SlotCell(i, p.perRow, Ltr).row
    ensures SlotCell(i, p.perRow, Rtl).col == p.perRow - 1 - SlotCell(i, p.perRow, Ltr).col
    ensures Origin(g, p, i, Rtl).y == Origin(g, p, i, Ltr).y
    ensures Origin(g, p, i, Rtl).x == g.pageW - g.cellW - Origin(g, p, i, Ltr).x
  {
    var n := p.perRow;
    var col := SlotCell(i, n, Ltr).col;
    var s := StrideX(g);
    assert (n - 1 - col) as real * s == (n - 1) as real * s - col as real * s;
    BlockInStrides(g, p);
  }

  /** The origins of all slots of one page. */
  function PageOrigins(g: Sheet, p: GridPlan, dir: Direction): set<Point>
    requires p.perRow >= 1
  {
    set i: nat | i < p.PerPage() :: Origin(g, p, i, dir)
  }

  /** The slot of a page that `dir` places in cell (row, col) of the grid. */
  lemma SlotOfCell(p: GridPlan, row: int, col: int, dir: Direction) returns (j: nat)
    requires p.perRow >= 1 && 0 <= row < p.perCol && 0 <= col < p.perRow
    ensures j < p.PerPage() && SlotCell(j, p.perRow, dir) == CellIndex(row, col)
  {
    var n := p.perRow;
    var r := if dir == Rtl then n - 1 - col else col;
    j := row * n + r;
    DivModUnique(j, n, row, r);
    MulMono(row + 1, p.perCol, n);
  }

  /** ltr and rtl occupy exactly the same cells of a page. */
  lemma SameCellsBothDirections(g: Sheet, p: GridPlan)
    requires p.perRow >= 1 && p.perCol >= 1
    ensures PageOrigins(g, p, Ltr) == PageOrigins(g, p, Rtl)
  {
    forall o | o in PageOrigins(g, p, Ltr) ensures o in PageOrigins(g, p, Rtl) {
      var i: nat :| i < p.PerPage() && o == Origin(g, p, i, Ltr);
      var c := SlotCell(i, p.perRow, Ltr);
      SlotInGrid(i, p, Ltr);
      var j := SlotOfCell(p, c.row, c.col, Rtl);
      assert Origin(g, p, j, Rtl) == o;
    }
    forall o | o in PageOrigins(g, p, Rtl) ensures o in PageOrigins(g, p, Ltr) {
      var i: nat :| i < p.PerPage() && o == Origin(g, p, i, Rtl);
      var c := SlotCell(i, p.perRow, Rtl);
      SlotInGrid(i, p, Rtl);
      var j := SlotOfCell(p, c.row, c.col, Ltr);
      assert Origin(g, p, j, Ltr) == o;
    }
  }

  /** The open interiors of two cells drawn at `a` and `b` intersect. */
  predicate Overlap(a: Point, b: Point, w: real, h: real)
  {
    a.x < b.x + w && b.x < a.x + w && a.y < b.y + h && b.y < a.y + h
  }

  /** Two different slots of one page are drawn in non-overlapping cells when the margin is not negative. */
  lemma SlotsDisjoint(g: Sheet, p: GridPlan, i: nat, j: nat, dir: Direction)
    requires g.PositiveStrides() && g.margin >= 0.0
    requires p.perRow >= 1 && i != j
    ensures !Overlap(Origin(g, p, i, dir), Origin(g, p, j, dir), g.cellW, g.cellH)
  {
    var a, b := SlotCell(i, p.perRow, dir), SlotCell(j, p.perRow, dir);
    if a.col < b.col {
      ColumnGap(g, p, a.col, b.col);
    } else if b.col < a.col {
      ColumnGap(g, p, b.col, a.col);
    } else if a.row < b.row {
      RowGap(g, p, a.row, b.row);
    } else {
      RowGap(g, p, b.row, a.row);
    }
  }

  /** Columns further apart are at least one horizontal stride apart. */
  lemma ColumnGap(g: Sheet, p: GridPlan, lo: int, hi: int)
    requires lo < hi && StrideX(g) > 0.0
    ensures ColumnX(g, p, hi) - ColumnX(g, p, lo) >= StrideX(g)
  {
    var s := StrideX(g);
    var d := hi as real - lo as real;
    RealLessMul(1.0, d, s);
    assert hi as real * s - lo as real * s == d * s;
  }

  /** Rows further apart are at least one vertical stride apart, the later one lower. */
  lemma RowGap(g: Sheet, p: GridPlan, lo: int, hi: int)
    requires lo < hi && StrideY(g) > 0.0
    ensures RowY(g, p, lo) - RowY(g, p, hi) >= StrideY(g)
  {
    RowInStrides(g, p, lo);
    RowInStrides(g, p, hi);
    var s := StrideY(g);
    var d := hi as real - lo as real;
    RealLessMul(1.0, d, s);
    assert hi as real * s - lo as real * s == d * s;
  }

  /**
   * When the planned columns fit without the clamp and the margin is not
   * negative, the block keeps at least one margin from the left and right
   * edges of the page; likewise for rows.
   */
  lemma UnclampedBlockWithinMargins(g: Sheet)
    requires g.PositiveStrides() && g.margin >= 0.0
    ensures var p := Plan(g);
      (p.perRow as real * (g.cellW + g.margin) <= g.pageW - 2.0 * g.margin ==>
         BlockLeft(g, p) >= g.margin && BlockLeft(g, p) + BlockWidth(g, p) <= g.pageW - g.margin)
    ensures var p := Plan(g);
      (p.perCol as real * (g.cellH + g.margin) <= g.pageH - 2.0 * g.margin ==>
         BlockBottom(g, p) >= g.margin && BlockBottom(g, p) + BlockHeight(g, p) <= g.pageH - g.margin)
  {
    var p := Plan(g);
    BlockInStrides(g, p);
    var n, m := p.perRow as real, p.perCol as real;
    assert n * StrideX(g) == (n - 1.0) * StrideX(g) + StrideX(g);
    assert m * StrideY(g) == (m - 1.0) * StrideY(g) + StrideY(g);
  }

  /** The grid plan does not depend on the unit of length. */
  lemma PlanScaleInvariant(g: Sheet, k: real)
    requires g.Plannable() && k > 0.0
    ensures g.Scale(k).Plannable() && Plan(g.Scale(k)) == Plan(g)
  {
    var h := g.Scale(k);
    ScaledAxis(g.pageW, g.cellW, g.margin, k);
    ScaledAxis(g.pageH, g.cellH, g.margin, k);
    SameFitCount(g.pageW - 2.0 * g.margin, g.cellW + g.margin, k, h.pageW - 2.0 * h.margin, h.cellW + h.margin);
    SameFitCount(g.pageH - 2.0 * g.margin, g.cellH + g.margin, k, h.pageH - 2.0 * h.margin, h.cellH + h.margin);
  }

  /** Stride and available length of one axis, scaled. */
  lemma ScaledAxis(page: real, cell: real, margin: real, k: real)
    ensures k * cell + k * margin == k * (cell + margin)
    ensures k * page - 2.0 * (k * margin) == k * (page - 2.0 * margin)
  {
  }

  lemma SameFitCount(avail: real, stride: real, k: real, avail': real, stride': real)
    requires stride != 0.0 && k > 0.0 && avail' == k * avail && stride' == k * stride
    ensures stride' != 0.0 && FitCount(avail', stride') == FitCount(avail, stride)
  {
    DivScale(avail, stride, k);
    assert avail' / stride' == avail / stride;
  }

  /** A change of unit scales every origin by the same factor (the grid plan being kept by PlanScaleInvariant). */
  lemma OriginScales(g: Sheet, p: GridPlan, i: nat, dir: Direction, k: real)
    requires p.perRow >= 1
    ensures var o := Origin(g, p, i, dir); Origin(g.Scale(k), p, i, dir) == Point(k * o.x, k * o.y)
  {
    var c := SlotCell(i, p.perRow, dir);
    ColumnXScales(g, p, c.col, k);
    RowYScales(g, p, c.row, k);
  }

  lemma ColumnXScales(g: Sheet, p: GridPlan, col: int, k: real)
    ensures ColumnX(g.Scale(k), p, col) == k * ColumnX(g, p, col)
  {
    var h := g.Scale(k);
    BlockInStrides(g, p);
    BlockInStrides(h, p);
    var n, c, s := (p.perRow - 1) as real, col as real, StrideX(g);
    assert StrideX(h) == k * s;
    assert n * (k * s) == k * (n * s);
    assert c * (k * s) == k * (c * s);
  }

  lemma RowYScales(g: Sheet, p: GridPlan, row: int, k: real)
    ensures RowY(g.Scale(k), p, row) == k * RowY(g, p, row)
  {
    var h := g.Scale(k);
    BlockInStrides(g, p);
    BlockInStrides(h, p);
    RowInStrides(g, p, row);
    RowInStrides(h, p, row);
    var m, r, s := (p.perCol - 1) as real, row as real, StrideY(g);
    assert StrideY(h) == k * s;
    assert m * (k * s) == k * (m * s);
    assert r * (k * s) == k * (r * s);
  }

  /**
   * The card cells of lines 162-164 and 174-176: 63 x 88 mm with a 3 mm
   * margin give a 3 x 3 grid on A4 ((210 - 6) / 66 = 3.09, (297 - 6) / 91 = 3.2),
   * centred with slot 0 at (7.5, 195.5) left-to-right and at (139.5, 195.5) right-to-left.
   */
  lemma CardGridOnA4()
    ensures Plan(A4Sheet(63.0, 88.0, 3.0)) == GridPlan(3, 3)
    ensures Plan(A4Sheet(63.0, 88.0, 3.0)).PerPage() == 9
    ensures Origin(A4Sheet(63.0, 88.0, 3.0), GridPlan(3, 3), 0, Ltr) == Point(7.5, 195.5)
    ensures Origin(A4Sheet(63.0, 88.0, 3.0), GridPlan(3, 3), 0, Rtl) == Point(139.5, 195.5)
  {
    assert 3.0 <= 204.0 / 66.0 < 4.0;
    assert (204.0 / 66.0).Floor == 3;
    assert 3.0 <= 291.0 / 91.0 < 4.0;
    assert (291.0 / 91.0).Floor == 3;
  }

  /**
   * The dedicated cells of lines 186-188: 148 x 105 mm with a 3 mm margin give
   * one column and two rows on A4 ((210 - 6) / 151 = 1.35, (297 - 6) / 108 = 2.69),
   * with the two slots at (31, 150) and (31, 42).
   */
  lemma DedicatedGridOnA4()
    ensures Plan(A4Sheet(148.0, 105.0, 3.0)) == GridPlan(1, 2)
    ensures Plan(A4Sheet(148.0, 105.0, 3.0)).PerPage() == 2
    ensures Origin(A4Sheet(148.0, 105.0, 3.0), GridPlan(1, 2), 0, Ltr) == Point(31.0, 150.0)
    ensures Origin(A4Sheet(148.0, 105.0, 3.0), GridPlan(1, 2), 1, Ltr) == Point(31.0, 42.0)
  {
    assert 1.0 <= 204.0 / 151.0 < 2.0;
    assert (204.0 / 151.0).Floor == 1;
    assert 2.0 <= 291.0 / 108.0 < 3.0;
    assert (291.0 / 108.0).Floor == 2;
  }
}
