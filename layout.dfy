/**
 * draw_images_on_page_specific (process_warbands.py lines 57-127): lays one
 * bucket of images out on consecutive A4 pages of a canvas, a grid of
 * `images_per_page` cells per page, with a page break between pages and,
 * when asked, a call to draw the cut lines after each page's images.
 *
 * LayoutEvents is the log of canvas calls the function makes;
 * DrawImagesOnPageSpecific is the function itself, proved to make exactly
 * those calls. LayoutPagesAsWritten then shows what lands on each printed
 * page, and IntendedLayoutEvents is the order the comments of the source
 * describe (cut lines on the page they belong to, then the break).
 */
module Layout {
  import opened Arith
  import opened Geometry
  import opened Pagination
  import opened Pdf

  /** The drawImage call for item `it` in slot `i` of a page. */
  function DrawOf(it: Item, i: nat, g: Sheet, p: GridPlan, dir: Direction): Event
    requires p.perRow >= 1
  {
    var o := Origin(g, p, i, dir);
    DrawImage(it.img, o.x, o.y, g.cellW, g.cellH)
  }

  /** The drawImage calls of one page, slot by slot (lines 80-111). */
  function DrawEvents(page: seq<Item>, g: Sheet, p: GridPlan, dir: Direction): (es: seq<Event>)
    requires p.perRow >= 1
    ensures |es| == |page| && OnlyDraws(es)
  {
    seq(|page|, k requires 0 <= k < |page| => DrawOf(page[k], k, g, p, dir))
  }

  /** The draw_pdf_cut_lines call of lines 117-127, or nothing when cut lines are off. */
  function CutEvents(g: Sheet, p: GridPlan, cut: bool): seq<Event>
  {
    if cut then [CutLines(p.perRow, p.perCol, g.pageW, g.pageH, g.cellW, g.cellH, g.margin)] else []
  }

  /** The showPage of lines 114-115: only when items remain after this page. */
  function BreakEvents(items: seq<Item>, p: GridPlan, start: nat): seq<Event>
  {
    if start + p.PerPage() < |items| then [ShowPage] else []
  }

  /** The page of items that starts at `start` (line 78, a clamped slice). */
  function PageAt(items: seq<Item>, p: GridPlan, start: nat): seq<Item>
    requires start <= |items| && p.PerPage() >= 1
  {
    items[start .. Min(start + p.PerPage(), |items|)]
  }

  /** The calls made for the page at `start`, in the source's order: draws, break, cut lines. */
  function PageEvents(items: seq<Item>, g: Sheet, p: GridPlan, dir: Direction, cut: bool, start: nat): seq<Event>
    requires p.perRow >= 1 && p.PerPage() >= 1 && start <= |items|
  {
    DrawEvents(PageAt(items, p, start), g, p, dir) + BreakEvents(items, p, start) + CutEvents(g, p, cut)
  }

  /** The calls made for the pages from `start` on. */
  function EventsFrom(items: seq<Item>, g: Sheet, p: GridPlan, dir: Direction, cut: bool, start: nat): seq<Event>
    requires p.perRow >= 1 && p.PerPage() >= 1
    decreases |items| - start
  {
    if start >= |items| then []
    else PageEvents(items, g, p, dir, cut, start) + EventsFrom(items, g, p, dir, cut, start + p.PerPage())
  }

  /** All calls draw_images_on_page_specific makes on the canvas for one bucket. */
  function LayoutEvents(items: seq<Item>, g: Sheet, dir: Direction, cut: bool): seq<Event>
    requires g.Plannable()
  {
    EventsFrom(items, g, Plan(g), dir, cut, 0)
  }

  /**
   * draw_images_on_page_specific: the grid plan of lines 67-75, then page by
   * page the drawImage calls of lines 80-111, the conditional showPage and
   * the cut lines. A zero stride is a ZeroDivisionError in the source.
   */
  method DrawImagesOnPageSpecific(c: Canvas, items: seq<Item>, imageWidth: real, imageHeight: real,
                                  margin: real, direction: string, drawCutLines: bool)
    requires imageWidth + margin != 0.0 && imageHeight + margin != 0.0
    modifies c
    ensures c.events == old(c.events)
      + LayoutEvents(items, A4Sheet(imageWidth, imageHeight, margin), DirectionOf(direction), drawCutLines)
  {
    var imagesPerRow, imagesPerCol := PlanGrid(imageWidth, imageHeight, margin);
    var imagesPerPage := imagesPerRow * imagesPerCol;
    ghost var g := A4Sheet(imageWidth, imageHeight, margin);
    ghost var p := GridPlan(imagesPerRow, imagesPerCol);
    ghost var dir := DirectionOf(direction);

    ghost var total := old(c.events) + LayoutEvents(items, g, dir, drawCutLines);
    var pageStart: nat := 0;
    while pageStart < |items|
      invariant total == c.events + EventsFrom(items, g, p, dir, drawCutLines, pageStart)
      decreases |items| - pageStart
    {
      ghost var before := c.events;
      DrawPage(c, items, pageStart, imagesPerRow, imagesPerCol, imageWidth, imageHeight, margin, direction, drawCutLines);
      EventsFromStep(items, g, p, dir, drawCutLines, pageStart);
      LogStep(total, before, c.events, PageEvents(items, g, p, dir, drawCutLines, pageStart),
              EventsFrom(items, g, p, dir, drawCutLines, pageStart),
              EventsFrom(items, g, p, dir, drawCutLines, pageStart + imagesPerPage));
      pageStart := pageStart + imagesPerPage;
    }
  }

  /** Lines 67-75: how many cells fit across and down the A4 page inside the margins, at least one each way. */
  method PlanGrid(imageWidth: real, imageHeight: real, margin: real) returns (imagesPerRow: int, imagesPerCol: int)
    requires imageWidth + margin != 0.0 && imageHeight + margin != 0.0
    ensures GridPlan(imagesPerRow, imagesPerCol) == Plan(A4Sheet(imageWidth, imageHeight, margin))
    ensures imagesPerRow >= 1 && imagesPerCol >= 1 && imagesPerRow * imagesPerCol >= 1
  {
    var pageWidth, pageHeight := A4Width, A4Height;
    var availableWidth := pageWidth - 2.0 * margin;
    var availableHeight := pageHeight - 2.0 * margin;
    imagesPerRow := Max(1, (availableWidth / (imageWidth + margin)).Floor);
    imagesPerCol := Max(1, (availableHeight / (imageHeight + margin)).Floor);
  }

  /**
   * One pass of the page loop (lines 78-127): the page's slice of the items
   * is drawn, a page break follows when items remain, then the cut lines.
   */
  method DrawPage(c: Canvas, items: seq<Item>, pageStart: nat, imagesPerRow: int, imagesPerCol: int,
                  imageWidth: real, imageHeight: real, margin: real, direction: string, drawCutLines: bool)
    requires imagesPerRow >= 1 && imagesPerRow * imagesPerCol >= 1 && pageStart < |items|
    modifies c
    ensures c.events == old(c.events) + PageEvents(items, A4Sheet(imageWidth, imageHeight, margin),
      GridPlan(imagesPerRow, imagesPerCol), DirectionOf(direction), drawCutLines, pageStart)
  {
    var pageWidth, pageHeight := A4Width, A4Height;
    var imagesPerPage := imagesPerRow * imagesPerCol;
    ghost var g := A4Sheet(imageWidth, imageHeight, margin);
    ghost var p := GridPlan(imagesPerRow, imagesPerCol);
    var pageImages := items[pageStart .. Min(pageStart + imagesPerPage, |items|)];
    assert pageImages == PageAt(items, p, pageStart);
    DrawPageImages(c, pageImages, imagesPerRow, imagesPerCol, imageWidth, imageHeight, margin, direction);
    if pageStart + imagesPerPage < |items| {
      c.ShowPage();
    }
    if drawCutLines {
      DrawPdfCutLines(c, imagesPerRow, imagesPerCol, pageWidth, pageHeight, imageWidth, imageHeight, margin);
    }
  }

  /**
   * The inner loop of lines 80-111: slot `i` of the page goes to row
   * `i // images_per_row` and to column `i % images_per_row`, mirrored for
   * "rtl", at the centred-block position.
   */
  method DrawPageImages(c: Canvas, pageImages: seq<Item>, imagesPerRow: int, imagesPerCol: int,
                        imageWidth: real, imageHeight: real, margin: real, direction: string)
    requires imagesPerRow >= 1
    modifies c
    ensures c.events == old(c.events) + DrawEvents(pageImages, A4Sheet(imageWidth, imageHeight, margin),
                                                   GridPlan(imagesPerRow, imagesPerCol), DirectionOf(direction))
  {
    var pageWidth, pageHeight := A4Width, A4Height;
    ghost var g := A4Sheet(imageWidth, imageHeight, margin);
    ghost var p := GridPlan(imagesPerRow, imagesPerCol);
    ghost var dir := DirectionOf(direction);
    var i := 0;
    while i < |pageImages|
      invariant 0 <= i <= |pageImages|
      invariant c.events == old(c.events) + DrawEvents(pageImages[..i], g, p, dir)
    {
      var row := i / imagesPerRow;
      var col := i % imagesPerRow;
      if direction == "rtl" {
        col := imagesPerRow - 1 - col;
      }
      var totalRowWidth := imagesPerRow as real * imageWidth + (imagesPerRow - 1) as real * margin;
      var startX := (pageWidth - totalRowWidth) / 2.0 + col as real * (imageWidth + margin);
      var totalColHeight := imagesPerCol as real * imageHeight + (imagesPerCol - 1) as real * margin;
      var startY := pageHeight - ((pageHeight - totalColHeight) / 2.0
                                  + (row + 1) as real * imageHeight + row as real * margin);
      assert SlotCell(i, p.perRow, dir) == CellIndex(row, col);
      SourceOrigin(imageWidth, imageHeight, margin, imagesPerRow, imagesPerCol, i, dir, row, col);
      c.DrawImage(pageImages[i].img, startX, startY, imageWidth, imageHeight);
      DrawEventsSnoc(pageImages, i, g, p, dir);
      i := i + 1;
    }
    assert pageImages[..i] == pageImages;
  }

  /** One more slot of a page adds its drawImage call at the end. */
  lemma DrawEventsSnoc(page: seq<Item>, i: nat, g: Sheet, p: GridPlan, dir: Direction)
    requires p.perRow >= 1 && i < |page|
    ensures DrawEvents(page[..i + 1], g, p, dir) == DrawEvents(page[..i], g, p, dir) + [DrawOf(page[i], i, g, p, dir)]
  {
  }

  /** The origin of a slot, written as lines 88-100 compute it from the slot's row and column. */
  lemma SourceOrigin(w: real, h: real, m: real, perRow: int, perCol: int, i: nat, dir: Direction, row: int, col: int)
    requires perRow >= 1 && SlotCell(i, perRow, dir) == CellIndex(row, col)
    ensures Origin(A4Sheet(w, h, m), GridPlan(perRow, perCol), i, dir) == Point(
      (A4Width - (perRow as real * w + (perRow - 1) as real * m)) / 2.0 + col as real * (w + m),
      A4Height - ((A4Height - (perCol as real * h + (perCol - 1) as real * m)) / 2.0
                     + (row + 1) as real * h + row as real * m))
  {
  }

  /** Writing one more page moves it from the calls still to come to the calls made. */
  lemma LogStep(total: seq<Event>, before: seq<Event>, after: seq<Event>, page: seq<Event>, here: seq<Event>,
                rest: seq<Event>)
    requires total == before + here && after == before + page && here == page + rest
    ensures total == after + rest
  {
    AppendAssoc(before, page, rest);
  }

  lemma AppendAssoc<T>(a: seq<T>, b: seq<T>, c: seq<T>)
    ensures a + (b + c) == (a + b) + c
  {
  }

  /** The log of a page's cut-line call (if any) holds no draw and no break. */
  lemma CutEventsCounts(g: Sheet, p: GridPlan, cut: bool)
    ensures Draws(CutEvents(g, p, cut)) == [] && DrawnImages(CutEvents(g, p, cut)) == []
    ensures Breaks(CutEvents(g, p, cut)) == 0 && CutCalls(CutEvents(g, p, cut)) == (if cut then 1 else 0)
  {
  }

  lemma BreakEventsCounts(items: seq<Item>, p: GridPlan, start: nat)
    ensures Draws(BreakEvents(items, p, start)) == [] && DrawnImages(BreakEvents(items, p, start)) == []
    ensures CutCalls(BreakEvents(items, p, start)) == 0
  {
  }

  /** The first of the chunks from `start` is the page at `start`. */
  lemma FirstChunk(items: seq<Item>, p: GridPlan, start: nat)
    requires p.PerPage() >= 1 && start < |items|
    ensures ChunksFrom(items, p.PerPage(), start)
      == [PageAt(items, p, start)] + ChunksFrom(items, p.PerPage(), start + p.PerPage())
    ensures start + p.PerPage() >= |items| ==> ChunksFrom(items, p.PerPage(), start + p.PerPage()) == []
  {
  }

  /**
   * The shape of the pages the source's order produces, when `carry` is
   * already on the open page: the first page is `carry` and its draws; every
   * later page opens with the previous page's cut lines; the last page also
   * ends with its own.
   */
  ghost predicate AsWrittenShape(ps: seq<seq<Event>>, cs: seq<seq<Item>>, g: Sheet, p: GridPlan, dir: Direction,
                                 cut: bool, carry: seq<Event>)
    requires p.perRow >= 1
  {
    && |ps| == |cs|
    && forall j :: 0 <= j < |cs| ==>
         ps[j] == (if j == 0 then carry else CutEvents(g, p, cut)) + DrawEvents(cs[j], g, p, dir)
                  + (if j == |cs| - 1 then CutEvents(g, p, cut) else [])
  }

  /** A page closed by a break in front of pages of that shape. */
  lemma AsWrittenShapeCons(ps: seq<seq<Event>>, cs: seq<seq<Item>>, c0: seq<Item>, g: Sheet, p: GridPlan,
                           dir: Direction, cut: bool, carry: seq<Event>)
    requires p.perRow >= 1 && |cs| >= 1 && AsWrittenShape(ps, cs, g, p, dir, cut, CutEvents(g, p, cut))
    ensures AsWrittenShape([carry + DrawEvents(c0, g, p, dir)] + ps, [c0] + cs, g, p, dir, cut, carry)
  {
    var ps', cs' := [carry + DrawEvents(c0, g, p, dir)] + ps, [c0] + cs;
    forall j | 0 <= j < |cs'|
      ensures ps'[j] == (if j == 0 then carry else CutEvents(g, p, cut)) + DrawEvents(cs'[j], g, p, dir)
                        + (if j == |cs'| - 1 then CutEvents(g, p, cut) else [])
    {
      if j > 0 {
        assert ps'[j] == ps[j - 1] && cs'[j] == cs[j - 1];
      }
    }
  }

  /** A last page alone has that shape. */
  lemma AsWrittenShapeOne(c0: seq<Item>, g: Sheet, p: GridPlan, dir: Direction, cut: bool, carry: seq<Event>)
    requires p.perRow >= 1
    ensures AsWrittenShape([(carry + DrawEvents(c0, g, p, dir)) + CutEvents(g, p, cut)], [c0], g, p, dir, cut, carry)
  {
  }

  /** The pages from the page at `start` on, with `carry` already on the open page. */
  lemma {:induction false} AsWrittenPagesFrom(items: seq<Item>, g: Sheet, p: GridPlan, dir: Direction, cut: bool,
                                               start: nat, carry: seq<Event>)
    requires p.perRow >= 1 && p.PerPage() >= 1 && start < |items| && Breaks(carry) == 0
    ensures AsWrittenShape(Pages(carry + EventsFrom(items, g, p, dir, cut, start)),
                           ChunksFrom(items, p.PerPage(), start), g, p, dir, cut, carry)
    decreases |items| - start
  {
    if start + p.PerPage() < |items| {
      CutEventsCounts(g, p, cut);
      AsWrittenPagesFrom(items, g, p, dir, cut, start + p.PerPage(), CutEvents(g, p, cut));
      AsWrittenPagesStep(items, g, p, dir, cut, start, carry);
    } else {
      AsWrittenPagesLast(items, g, p, dir, cut, start, carry);
    }
  }

  /** A page followed by more: its draws, then the break, then its cut lines open the next page. */
  lemma AsWrittenPagesStep(items: seq<Item>, g: Sheet, p: GridPlan, dir: Direction, cut: bool,
                           start: nat, carry: seq<Event>)
    requires p.perRow >= 1 && p.PerPage() >= 1 && start + p.PerPage() < |items| && Breaks(carry) == 0
    requires AsWrittenShape(Pages(CutEvents(g, p, cut) + EventsFrom(items, g, p, dir, cut, start + p.PerPage())),
                            ChunksFrom(items, p.PerPage(), start + p.PerPage()), g, p, dir, cut, CutEvents(g, p, cut))
    ensures AsWrittenShape(Pages(carry + EventsFrom(items, g, p, dir, cut, start)),
                           ChunksFrom(items, p.PerPage(), start), g, p, dir, cut, carry)
  {
    var n := p.PerPage();
    var d := DrawEvents(PageAt(items, p, start), g, p, dir);
    var cl := CutEvents(g, p, cut);
    var rest := EventsFrom(items, g, p, dir, cut, start + n);
    var es := EventsFrom(items, g, p, dir, cut, start);
    FirstChunk(items, p, start);
    OnlyDrawsCounts(d);
    LogSplit(carry, d);
    assert es == ((d + [ShowPage]) + cl) + rest;
    Regroup(carry, d, [ShowPage], cl, rest);
    PagesAfterBreak(carry + d, cl + rest);
    AsWrittenShapeCons(Pages(cl + rest), ChunksFrom(items, n, start + n), PageAt(items, p, start),
                       g, p, dir, cut, carry);
  }

  /** The last page: its draws, then its cut lines, and no break. */
  lemma AsWrittenPagesLast(items: seq<Item>, g: Sheet, p: GridPlan, dir: Direction, cut: bool,
                           start: nat, carry: seq<Event>)
    requires p.perRow >= 1 && p.PerPage() >= 1 && start < |items| <= start + p.PerPage() && Breaks(carry) == 0
    ensures AsWrittenShape(Pages(carry + EventsFrom(items, g, p, dir, cut, start)),
                           ChunksFrom(items, p.PerPage(), start), g, p, dir, cut, carry)
  {
    var d := DrawEvents(PageAt(items, p, start), g, p, dir);
    var cl := CutEvents(g, p, cut);
    LastPageEvents(items, g, p, dir, cut, start);
    OnlyDrawsCounts(d);
    CutEventsCounts(g, p, cut);
    OnePage(carry, d, cl);
    FirstChunk(items, p, start);
    AsWrittenShapeOne(PageAt(items, p, start), g, p, dir, cut, carry);
  }

  /** The calls for the last page: its draws, then its cut lines. */
  lemma LastPageEvents(items: seq<Item>, g: Sheet, p: GridPlan, dir: Direction, cut: bool, start: nat)
    requires p.perRow >= 1 && p.PerPage() >= 1 && start < |items| <= start + p.PerPage()
    ensures EventsFrom(items, g, p, dir, cut, start)
         == DrawEvents(PageAt(items, p, start), g, p, dir) + CutEvents(g, p, cut)
    ensures IntendedEventsFrom(items, g, p, dir, cut, start)
         == DrawEvents(PageAt(items, p, start), g, p, dir) + CutEvents(g, p, cut)
  {
    var d := DrawEvents(PageAt(items, p, start), g, p, dir);
    var cl := CutEvents(g, p, cut);
    assert EventsFrom(items, g, p, dir, cut, start + p.PerPage()) == [];
    assert IntendedEventsFrom(items, g, p, dir, cut, start + p.PerPage()) == [];
    assert BreakEvents(items, p, start) == [];
    assert ((d + []) + cl) + [] == d + cl;
    assert ((d + cl) + []) + [] == d + cl;
  }

  /** Pieces without a break make one open page. */
  lemma OnePage(a: seq<Event>, b: seq<Event>, c: seq<Event>)
    requires Breaks(a) == 0 && Breaks(b) == 0 && Breaks(c) == 0
    ensures Pages(a + (b + c)) == [(a + b) + c]
  {
    AppendAssoc(a, b, c);
    LogSplit(a, b);
    LogSplit(a + b, c);
    PagesWithoutBreak((a + b) + c);
  }

  /**
   * What lands on each printed page of a non-empty bucket, in the source's
   * order: one page per chunk of `images_per_page` items, separated by
   * ceil(n / per_page) - 1 breaks. Page j holds the draws of the j-th chunk;
   * the cut lines drawn after page j's images land at the top of page j + 1,
   * so the first page has none and the last one gets a second set.
   */
  lemma LayoutPagesAsWritten(items: seq<Item>, g: Sheet, dir: Direction, cut: bool)
    requires g.Plannable() && |items| > 0
    ensures var p := Plan(g);
      var es := LayoutEvents(items, g, dir, cut);
      var ps := Pages(es);
      var cs := Chunks(items, p.PerPage());
      && |ps| == |cs| == NumChunks(|items|, p.PerPage())
      && Breaks(es) == |cs| - 1
      && forall j :: 0 <= j < |cs| ==>
           ps[j] == (if j == 0 then [] else CutEvents(g, p, cut)) + DrawEvents(cs[j], g, p, dir)
                    + (if j == |cs| - 1 then CutEvents(g, p, cut) else [])
  {
    var p := Plan(g);
    var es := LayoutEvents(items, g, dir, cut);
    assert [] + es == es;
    AsWrittenPagesFrom(items, g, p, dir, cut, 0, []);
    ChunksPartition(items, p.PerPage());
    assert AsWrittenShape(Pages(es), Chunks(items, p.PerPage()), g, p, dir, cut, []);
  }

  /**
   * Call counts of a whole bucket: a break between consecutive pages only
   * (ceil(n / per_page) - 1 of them, none for an empty bucket) and, when cut
   * lines are on, one cut-line call per page.
   */
  lemma LayoutCallCounts(items: seq<Item>, g: Sheet, dir: Direction, cut: bool)
    requires g.Plannable()
    ensures var n := Plan(g).PerPage();
      var es := LayoutEvents(items, g, dir, cut);
      && Breaks(es) == (if items == [] then 0 else NumChunks(|items|, n) - 1)
      && CutCalls(es) == (if cut then NumChunks(|items|, n) else 0)
  {
    var n := Plan(g).PerPage();
    CountsFrom(items, g, Plan(g), dir, cut, 0);
    ChunksPartition(items, n);
  }

  /** A log with a break between consecutive pages of `cs` only, and one cut-line call per page when they are on. */
  ghost predicate CountsHold(es: seq<Event>, cs: seq<seq<Item>>, cut: bool)
  {
    && Breaks(es) == (if cs == [] then 0 else |cs| - 1)
    && CutCalls(es) == (if cut then |cs| else 0)
  }

  lemma {:induction false} CountsFrom(items: seq<Item>, g: Sheet, p: GridPlan, dir: Direction, cut: bool, start: nat)
    requires p.perRow >= 1 && p.PerPage() >= 1 && start <= |items|
    ensures CountsHold(EventsFrom(items, g, p, dir, cut, start), ChunksFrom(items, p.PerPage(), start), cut)
    decreases |items| - start
  {
    if start < |items| {
      if start + p.PerPage() < |items| {
        CountsFrom(items, g, p, dir, cut, start + p.PerPage());
      }
      CountsStep(items, g, p, dir, cut, start);
    } else {
      assert EventsFrom(items, g, p, dir, cut, start) == [] && ChunksFrom(items, p.PerPage(), start) == [];
    }
  }

  /** One page of CountsFrom, the pages after it being counted already. */
  lemma CountsStep(items: seq<Item>, g: Sheet, p: GridPlan, dir: Direction, cut: bool, start: nat)
    requires p.perRow >= 1 && p.PerPage() >= 1 && start < |items|
    requires start + p.PerPage() < |items| ==>
      CountsHold(EventsFrom(items, g, p, dir, cut, start + p.PerPage()),
                 ChunksFrom(items, p.PerPage(), start + p.PerPage()), cut)
    ensures CountsHold(EventsFrom(items, g, p, dir, cut, start), ChunksFrom(items, p.PerPage(), start), cut)
  {
    var n := p.PerPage();
    EventsFromStep(items, g, p, dir, cut, start);
    PageCounts(items, g, p, dir, cut, start);
    FirstChunk(items, p, start);
    if start + n >= |items| {
      assert EventsFrom(items, g, p, dir, cut, start + n) == [];
    }
    CountsCombine(PageEvents(items, g, p, dir, cut, start), EventsFrom(items, g, p, dir, cut, start + n),
                  EventsFrom(items, g, p, dir, cut, start), ChunksFrom(items, n, start),
                  ChunksFrom(items, n, start + n), cut, start + n < |items|);
  }

  /** The calls from a page on: that page's, then those of the pages after it. */
  lemma EventsFromStep(items: seq<Item>, g: Sheet, p: GridPlan, dir: Direction, cut: bool, start: nat)
    requires p.perRow >= 1 && p.PerPage() >= 1 && start < |items|
    ensures EventsFrom(items, g, p, dir, cut, start)
         == PageEvents(items, g, p, dir, cut, start) + EventsFrom(items, g, p, dir, cut, start + p.PerPage())
  {
  }

  /** A page's counts followed by those of the pages after it. */
  lemma CountsCombine(page: seq<Event>, rest: seq<Event>, es: seq<Event>, cs: seq<seq<Item>>, more: seq<seq<Item>>,
                       cut: bool, hasMore: bool)
    requires es == page + rest && |cs| == |more| + 1
    requires Breaks(page) == (if hasMore then 1 else 0) && CutCalls(page) == (if cut then 1 else 0)
    requires hasMore ==> more != [] && CountsHold(rest, more, cut)
    requires !hasMore ==> rest == [] && more == []
    ensures CountsHold(es, cs, cut)
  {
    LogSplit(page, rest);
  }

  /** One page's calls: a break only when items remain, and one cut-line call when they are on. */
  lemma PageCounts(items: seq<Item>, g: Sheet, p: GridPlan, dir: Direction, cut: bool, start: nat)
    requires p.perRow >= 1 && p.PerPage() >= 1 && start < |items|
    ensures Breaks(PageEvents(items, g, p, dir, cut, start)) == (if start + p.PerPage() < |items| then 1 else 0)
    ensures CutCalls(PageEvents(items, g, p, dir, cut, start)) == (if cut then 1 else 0)
  {
    var d := DrawEvents(PageAt(items, p, start), g, p, dir);
    var b := BreakEvents(items, p, start);
    OnlyDrawsCounts(d);
    CutEventsCounts(g, p, cut);
    LogSplit(d, b);
    LogSplit(d + b, CutEvents(g, p, cut));
  }

  /** Slot `k % per_page` for the k-th item from `start` on: where the items are meant to go. */
  ghost function PlacedFrom(items: seq<Item>, g: Sheet, p: GridPlan, dir: Direction, start: nat): seq<Event>
    requires p.perRow >= 1 && p.PerPage() >= 1 && start <= |items|
  {
    seq(|items| - start, k requires 0 <= k < |items| - start => DrawOf(items[start + k], k % p.PerPage(), g, p, dir))
  }

  /** A full page's draws, then the placements of the items after it. */
  lemma PlacedSplit(items: seq<Item>, g: Sheet, p: GridPlan, dir: Direction, start: nat)
    requires p.perRow >= 1 && p.PerPage() >= 1 && start < |items|
    ensures start + p.PerPage() < |items| ==>
      PlacedFrom(items, g, p, dir, start)
        == DrawEvents(PageAt(items, p, start), g, p, dir) + PlacedFrom(items, g, p, dir, start + p.PerPage())
    ensures start + p.PerPage() >= |items| ==>
      PlacedFrom(items, g, p, dir, start) == DrawEvents(PageAt(items, p, start), g, p, dir)
  {
    var n := p.PerPage();
    var whole := PlacedFrom(items, g, p, dir, start);
    var d := DrawEvents(PageAt(items, p, start), g, p, dir);
    forall k | 0 <= k < |d|
      ensures whole[k] == d[k]
    {
      DivModUnique(k, n, 0, k);
    }
    if start + n < |items| {
      var more := PlacedFrom(items, g, p, dir, start + n);
      forall k | n <= k < |whole|
        ensures whole[k] == more[k - n]
      {
        ModShift(k, n);
      }
      assert whole == d + more;
    } else {
      assert whole == d;
    }
  }

  /** The draws and drawn bitmaps of the calls from a page on: the page's draws, then the rest. */
  lemma EventsFromLog(items: seq<Item>, g: Sheet, p: GridPlan, dir: Direction, cut: bool, start: nat)
    requires p.perRow >= 1 && p.PerPage() >= 1 && start < |items|
    ensures var rest := EventsFrom(items, g, p, dir, cut, start + p.PerPage());
      && Draws(EventsFrom(items, g, p, dir, cut, start)) == DrawEvents(PageAt(items, p, start), g, p, dir) + Draws(rest)
      && DrawnImages(EventsFrom(items, g, p, dir, cut, start)) == Images(PageAt(items, p, start)) + DrawnImages(rest)
      && (start + p.PerPage() >= |items| ==> rest == [])
  {
    var d := DrawEvents(PageAt(items, p, start), g, p, dir);
    var b := BreakEvents(items, p, start);
    var cl := CutEvents(g, p, cut);
    var rest := EventsFrom(items, g, p, dir, cut, start + p.PerPage());
    assert EventsFrom(items, g, p, dir, cut, start) == ((d + b) + cl) + rest;
    OnlyDrawsCounts(d);
    DrawEventsImages(PageAt(items, p, start), g, p, dir);
    BreakEventsCounts(items, p, start);
    CutEventsCounts(g, p, cut);
    PageLog(d, b, cl, rest);
  }

  /** The items from a page on are the page's items, then those after it. */
  lemma PageSplit(items: seq<Item>, p: GridPlan, start: nat)
    requires p.PerPage() >= 1 && start < |items|
    ensures start + p.PerPage() < |items| ==> items[start..] == PageAt(items, p, start) + items[start + p.PerPage()..]
    ensures start + p.PerPage() >= |items| ==> items[start..] == PageAt(items, p, start)
  {
  }

  /** The same for the intended order. */
  lemma IntendedEventsFromLog(items: seq<Item>, g: Sheet, p: GridPlan, dir: Direction, cut: bool, start: nat)
    requires p.perRow >= 1 && p.PerPage() >= 1 && start < |items|
    ensures var rest := IntendedEventsFrom(items, g, p, dir, cut, start + p.PerPage());
      && Draws(IntendedEventsFrom(items, g, p, dir, cut, start))
           == DrawEvents(PageAt(items, p, start), g, p, dir) + Draws(rest)
      && DrawnImages(IntendedEventsFrom(items, g, p, dir, cut, start)) == Images(PageAt(items, p, start)) + DrawnImages(rest)
      && (start + p.PerPage() >= |items| ==> rest == [])
  {
    var d := DrawEvents(PageAt(items, p, start), g, p, dir);
    var b := BreakEvents(items, p, start);
    var cl := CutEvents(g, p, cut);
    var rest := IntendedEventsFrom(items, g, p, dir, cut, start + p.PerPage());
    assert IntendedEventsFrom(items, g, p, dir, cut, start) == ((d + cl) + b) + rest;
    OnlyDrawsCounts(d);
    DrawEventsImages(PageAt(items, p, start), g, p, dir);
    BreakEventsCounts(items, p, start);
    CutEventsCounts(g, p, cut);
    PageLog(d, cl, b, rest);
  }

  lemma {:induction false} DrawsFrom(items: seq<Item>, g: Sheet, p: GridPlan, dir: Direction, cut: bool, start: nat)
    requires p.perRow >= 1 && p.PerPage() >= 1 && start <= |items|
    ensures Draws(EventsFrom(items, g, p, dir, cut, start)) == PlacedFrom(items, g, p, dir, start)
    decreases |items| - start
  {
    if start < |items| {
      EventsFromLog(items, g, p, dir, cut, start);
      PlacedSplit(items, g, p, dir, start);
      if start + p.PerPage() < |items| {
        DrawsFrom(items, g, p, dir, cut, start + p.PerPage());
      }
    }
  }

  /** A page's drawing calls draw the page's bitmaps, in order. */
  lemma DrawEventsImages(page: seq<Item>, g: Sheet, p: GridPlan, dir: Direction)
    requires p.perRow >= 1
    ensures DrawnImages(DrawEvents(page, g, p, dir)) == Images(page)
  {
    OnlyDrawsImages(DrawEvents(page, g, p, dir));
  }

  lemma {:induction false} ImagesFrom(items: seq<Item>, g: Sheet, p: GridPlan, dir: Direction, cut: bool, start: nat)
    requires p.perRow >= 1 && p.PerPage() >= 1 && start <= |items|
    ensures DrawnImages(EventsFrom(items, g, p, dir, cut, start)) == Images(items[start..])
    decreases |items| - start
  {
    if start < |items| {
      EventsFromLog(items, g, p, dir, cut, start);
      PageSplit(items, p, start);
      if start + p.PerPage() < |items| {
        ImagesFrom(items, g, p, dir, cut, start + p.PerPage());
        ImagesSplit(PageAt(items, p, start), items[start + p.PerPage()..]);
      }
    }
  }

  /**
   * Every item of the bucket is drawn exactly once and in order: the k-th
   * drawImage call draws the k-th item, in slot k % images_per_page of its
   * page, and the bitmaps drawn are the items' bitmaps.
   */
  lemma LayoutDraws(items: seq<Item>, g: Sheet, dir: Direction, cut: bool)
    requires g.Plannable()
    ensures var p := Plan(g);
      var ds := Draws(LayoutEvents(items, g, dir, cut));
      && |ds| == |items|
      && (forall k :: 0 <= k < |items| ==> ds[k] == DrawOf(items[k], k % p.PerPage(), g, p, dir))
      && DrawnImages(LayoutEvents(items, g, dir, cut)) == Images(items)
  {
    var p := Plan(g);
    DrawsFrom(items, g, p, dir, cut, 0);
    PlacedFromStart(items, g, p, dir);
    ImagesFrom(items, g, p, dir, cut, 0);
    assert items[0..] == items;
  }

  /** From the first item on, the k-th placement is item k in slot k % per_page. */
  lemma PlacedFromStart(items: seq<Item>, g: Sheet, p: GridPlan, dir: Direction)
    requires p.perRow >= 1 && p.PerPage() >= 1
    ensures var ds := PlacedFrom(items, g, p, dir, 0);
      && |ds| == |items|
      && forall k :: 0 <= k < |items| ==> ds[k] == DrawOf(items[k], k % p.PerPage(), g, p, dir)
  {
  }

  /**
   * Item k is on page k / images_per_page of the as-written layout, in slot
   * k % images_per_page: it is that page's (k % images_per_page)-th draw.
   */
  lemma ItemOnPage(items: seq<Item>, g: Sheet, dir: Direction, cut: bool, k: nat)
    requires g.Plannable() && k < |items|
    ensures var p := Plan(g);
      var n := p.PerPage();
      var ps := Pages(LayoutEvents(items, g, dir, cut));
      && 0 <= k / n < |ps| && 0 <= k % n
      && k % n < |Draws(ps[k / n])|
      && Draws(ps[k / n])[k % n] == DrawOf(items[k], k % n, g, p, dir)
  {
    var n := Plan(g).PerPage();
    var j, r := k / n, k % n;
    ChunkOfItem(items, n, k);
    DrawInChunk(items, g, dir, cut, j, r);
    assert Chunks(items, n)[j][r] == items[k];
  }

  /** The r-th draw on page j is the r-th item of chunk j, drawn in slot r. */
  lemma DrawInChunk(items: seq<Item>, g: Sheet, dir: Direction, cut: bool, j: nat, r: nat)
    requires g.Plannable()
    requires j < |Chunks(items, Plan(g).PerPage())| && r < |Chunks(items, Plan(g).PerPage())[j]|
    ensures var p := Plan(g);
      var ps := Pages(LayoutEvents(items, g, dir, cut));
      && j < |ps| && r < |Draws(ps[j])|
      && Draws(ps[j])[r] == DrawOf(Chunks(items, p.PerPage())[j][r], r, g, p, dir)
  {
    AsWrittenPageDraws(items, g, dir, cut, j);
  }

  /** The drawing calls on page j of the as-written layout are those of the j-th chunk. */
  lemma AsWrittenPageDraws(items: seq<Item>, g: Sheet, dir: Direction, cut: bool, j: nat)
    requires g.Plannable() && j < |Chunks(items, Plan(g).PerPage())|
    ensures var p := Plan(g);
      var ps := Pages(LayoutEvents(items, g, dir, cut));
      var cs := Chunks(items, p.PerPage());
      j < |ps| && Draws(ps[j]) == DrawEvents(cs[j], g, p, dir)
  {
    var p := Plan(g);
    var ps := Pages(LayoutEvents(items, g, dir, cut));
    var cs := Chunks(items, p.PerPage());
    LayoutPagesAsWritten(items, g, dir, cut);
    var cl := CutEvents(g, p, cut);
    var d := DrawEvents(cs[j], g, p, dir);
    var pre := if j == 0 then [] else cl;
    var post := if j == |cs| - 1 then cl else [];
    assert ps[j] == (pre + d) + post;
    CutEventsCounts(g, p, cut);
    OnlyDrawsCounts(d);
    FramedDraws(pre, d, post);
  }

  /**
   * The order evidently intended: the option `--draw-cut-lines` draws cut
   * lines "at the edges of images" (line 225), and one call is made per
   * page, so each page's call belongs on that page: its draws, then its
   * cut lines, then the break.
   */
  function IntendedPageEvents(items: seq<Item>, g: Sheet, p: GridPlan, dir: Direction, cut: bool, start: nat): seq<Event>
    requires p.perRow >= 1 && p.PerPage() >= 1 && start <= |items|
  {
    DrawEvents(PageAt(items, p, start), g, p, dir) + CutEvents(g, p, cut) + BreakEvents(items, p, start)
  }

  function IntendedEventsFrom(items: seq<Item>, g: Sheet, p: GridPlan, dir: Direction, cut: bool, start: nat): seq<Event>
    requires p.perRow >= 1 && p.PerPage() >= 1
    decreases |items| - start
  {
    if start >= |items| then []
    else IntendedPageEvents(items, g, p, dir, cut, start) + IntendedEventsFrom(items, g, p, dir, cut, start + p.PerPage())
  }

  /** The corrected log of one bucket. */
  function IntendedLayoutEvents(items: seq<Item>, g: Sheet, dir: Direction, cut: bool): seq<Event>
    requires g.Plannable()
  {
    IntendedEventsFrom(items, g, Plan(g), dir, cut, 0)
  }

  /** Every page holds its chunk's draws followed by its own cut lines. */
  ghost predicate IntendedShape(ps: seq<seq<Event>>, cs: seq<seq<Item>>, g: Sheet, p: GridPlan, dir: Direction, cut: bool)
    requires p.perRow >= 1
  {
    && |ps| == |cs|
    && forall j :: 0 <= j < |cs| ==> ps[j] == DrawEvents(cs[j], g, p, dir) + CutEvents(g, p, cut)
  }

  lemma IntendedShapeCons(ps: seq<seq<Event>>, cs: seq<seq<Item>>, c0: seq<Item>, g: Sheet, p: GridPlan,
                          dir: Direction, cut: bool)
    requires p.perRow >= 1 && IntendedShape(ps, cs, g, p, dir, cut)
    ensures IntendedShape([DrawEvents(c0, g, p, dir) + CutEvents(g, p, cut)] + ps, [c0] + cs, g, p, dir, cut)
  {
    var ps', cs' := [DrawEvents(c0, g, p, dir) + CutEvents(g, p, cut)] + ps, [c0] + cs;
    forall j | 0 <= j < |cs'|
      ensures ps'[j] == DrawEvents(cs'[j], g, p, dir) + CutEvents(g, p, cut)
    {
      if j > 0 {
        assert ps'[j] == ps[j - 1] && cs'[j] == cs[j - 1];
      }
    }
  }

  lemma {:induction false} IntendedPagesFrom(items: seq<Item>, g: Sheet, p: GridPlan, dir: Direction, cut: bool,
                                              start: nat)
    requires p.perRow >= 1 && p.PerPage() >= 1 && start < |items|
    ensures IntendedShape(Pages(IntendedEventsFrom(items, g, p, dir, cut, start)),
                          ChunksFrom(items, p.PerPage(), start), g, p, dir, cut)
    decreases |items| - start
  {
    if start + p.PerPage() < |items| {
      IntendedPagesFrom(items, g, p, dir, cut, start + p.PerPage());
      IntendedPagesStep(items, g, p, dir, cut, start);
    } else {
      IntendedPagesLast(items, g, p, dir, cut, start);
    }
  }

  lemma IntendedPagesStep(items: seq<Item>, g: Sheet, p: GridPlan, dir: Direction, cut: bool, start: nat)
    requires p.perRow >= 1 && p.PerPage() >= 1 && start + p.PerPage() < |items|
    requires IntendedShape(Pages(IntendedEventsFrom(items, g, p, dir, cut, start + p.PerPage())),
                           ChunksFrom(items, p.PerPage(), start + p.PerPage()), g, p, dir, cut)
    ensures IntendedShape(Pages(IntendedEventsFrom(items, g, p, dir, cut, start)),
                          ChunksFrom(items, p.PerPage(), start), g, p, dir, cut)
  {
    var n := p.PerPage();
    var d := DrawEvents(PageAt(items, p, start), g, p, dir);
    var cl := CutEvents(g, p, cut);
    var rest := IntendedEventsFrom(items, g, p, dir, cut, start + n);
    var es := IntendedEventsFrom(items, g, p, dir, cut, start);
    FirstChunk(items, p, start);
    OnlyDrawsCounts(d);
    CutEventsCounts(g, p, cut);
    LogSplit(d, cl);
    assert es == ((d + cl) + [ShowPage]) + rest;
    PagesAfterBreak(d + cl, rest);
    IntendedShapeCons(Pages(rest), ChunksFrom(items, n, start + n), PageAt(items, p, start), g, p, dir, cut);
  }

  lemma IntendedPagesLast(items: seq<Item>, g: Sheet, p: GridPlan, dir: Direction, cut: bool, start: nat)
    requires p.perRow >= 1 && p.PerPage() >= 1 && start < |items| <= start + p.PerPage()
    ensures IntendedShape(Pages(IntendedEventsFrom(items, g, p, dir, cut, start)),
                          ChunksFrom(items, p.PerPage(), start), g, p, dir, cut)
  {
    var d := DrawEvents(PageAt(items, p, start), g, p, dir);
    var cl := CutEvents(g, p, cut);
    LastPageEvents(items, g, p, dir, cut, start);
    OnlyDrawsCounts(d);
    CutEventsCounts(g, p, cut);
    OnePage([], d, cl);
    assert [] + (d + cl) == d + cl && ([] + d) + cl == d + cl;
    FirstChunk(items, p, start);
  }

  /**
   * With the intended order, a non-empty bucket prints one page per chunk of
   * `images_per_page` items, each holding that chunk's draws and exactly one
   * set of cut lines when they are on (none when off).
   */
  lemma IntendedLayoutPages(items: seq<Item>, g: Sheet, dir: Direction, cut: bool)
    requires g.Plannable() && |items| > 0
    ensures var p := Plan(g);
      var ps := Pages(IntendedLayoutEvents(items, g, dir, cut));
      var cs := Chunks(items, p.PerPage());
      && |ps| == |cs| == NumChunks(|items|, p.PerPage())
      && forall j :: 0 <= j < |cs| ==>
           && ps[j] == DrawEvents(cs[j], g, p, dir) + CutEvents(g, p, cut)
           && CutCalls(ps[j]) == (if cut then 1 else 0)
  {
    var p := Plan(g);
    var ps := Pages(IntendedLayoutEvents(items, g, dir, cut));
    var cs := Chunks(items, p.PerPage());
    IntendedPagesFrom(items, g, p, dir, cut, 0);
    ChunksPartition(items, p.PerPage());
    forall j | 0 <= j < |cs|
      ensures CutCalls(ps[j]) == (if cut then 1 else 0)
    {
      var d := DrawEvents(cs[j], g, p, dir);
      OnlyDrawsCounts(d);
      CutEventsCounts(g, p, cut);
      LogSplit(d, CutEvents(g, p, cut));
    }
  }

  /** Two logs with the same drawing calls, so the same bitmaps drawn. */
  ghost predicate SameDraws(x: seq<Event>, y: seq<Event>)
  {
    Draws(x) == Draws(y) && DrawnImages(x) == DrawnImages(y)
  }

  lemma {:induction false} IntendedSameDrawsFrom(items: seq<Item>, g: Sheet, p: GridPlan, dir: Direction, cut: bool,
                                                  start: nat)
    requires p.perRow >= 1 && p.PerPage() >= 1 && start <= |items|
    ensures SameDraws(IntendedEventsFrom(items, g, p, dir, cut, start), EventsFrom(items, g, p, dir, cut, start))
    decreases |items| - start
  {
    if start < |items| {
      if start + p.PerPage() < |items| {
        IntendedSameDrawsFrom(items, g, p, dir, cut, start + p.PerPage());
      }
      IntendedSameDrawsStep(items, g, p, dir, cut, start);
    } else {
      assert IntendedEventsFrom(items, g, p, dir, cut, start) == [] && EventsFrom(items, g, p, dir, cut, start) == [];
    }
  }

  /** One page of IntendedSameDrawsFrom, the pages after it being alike already. */
  lemma IntendedSameDrawsStep(items: seq<Item>, g: Sheet, p: GridPlan, dir: Direction, cut: bool, start: nat)
    requires p.perRow >= 1 && p.PerPage() >= 1 && start < |items|
    requires start + p.PerPage() < |items| ==>
      SameDraws(IntendedEventsFrom(items, g, p, dir, cut, start + p.PerPage()),
                EventsFrom(items, g, p, dir, cut, start + p.PerPage()))
    ensures SameDraws(IntendedEventsFrom(items, g, p, dir, cut, start), EventsFrom(items, g, p, dir, cut, start))
  {
    var n := p.PerPage();
    EventsFromLog(items, g, p, dir, cut, start);
    IntendedEventsFromLog(items, g, p, dir, cut, start);
    SameDrawsStep(IntendedEventsFrom(items, g, p, dir, cut, start), EventsFrom(items, g, p, dir, cut, start),
                  IntendedEventsFrom(items, g, p, dir, cut, start + n), EventsFrom(items, g, p, dir, cut, start + n),
                  DrawEvents(PageAt(items, p, start), g, p, dir), Images(PageAt(items, p, start)));
  }

  /** Two logs that start with the same page and go on alike are alike. */
  lemma SameDrawsStep(x: seq<Event>, y: seq<Event>, rx: seq<Event>, ry: seq<Event>, d: seq<Event>, imgs: seq<Bitmap>)
    requires Draws(x) == d + Draws(rx) && Draws(y) == d + Draws(ry)
    requires DrawnImages(x) == imgs + DrawnImages(rx) && DrawnImages(y) == imgs + DrawnImages(ry)
    requires (rx == [] && ry == []) || SameDraws(rx, ry)
    ensures SameDraws(x, y)
  {
  }

  /**
   * The intended order makes the same drawImage calls, in the same order:
   * only the position of the cut lines changes, and the corrected layout
   * draws the same items in the same slots.
   */
  lemma IntendedSameDraws(items: seq<Item>, g: Sheet, dir: Direction, cut: bool)
    requires g.Plannable()
    ensures Draws(IntendedLayoutEvents(items, g, dir, cut)) == Draws(LayoutEvents(items, g, dir, cut))
    ensures DrawnImages(IntendedLayoutEvents(items, g, dir, cut)) == Images(items)
  {
    IntendedSameDrawsFrom(items, g, Plan(g), dir, cut, 0);
    LayoutDraws(items, g, dir, cut);
  }

  /**
   * The source as written: when a bucket needs two pages or more and cut
   * lines are on, the first page gets no cut lines and the last page gets
   * two sets, because each page's cut lines are drawn after its showPage.
   */
  lemma AsWrittenCutLinesMisplaced(items: seq<Item>, g: Sheet, dir: Direction)
    requires g.Plannable() && |items| > Plan(g).PerPage()
    ensures var ps := Pages(LayoutEvents(items, g, dir, true));
      && |ps| >= 2
      && CutCalls(ps[0]) == 0
      && CutCalls(ps[|ps| - 1]) == 2
  {
    var p := Plan(g);
    var n := p.PerPage();
    var ps := Pages(LayoutEvents(items, g, dir, true));
    var cs := Chunks(items, n);
    LayoutPagesAsWritten(items, g, dir, true);
    FirstChunk(items, p, 0);
    FirstChunk(items, p, n);
    assert |cs| >= 2;
    var cl := CutEvents(g, p, true);
    CutEventsCounts(g, p, true);
    var d0 := DrawEvents(cs[0], g, p, dir);
    assert ps[0] == ([] + d0) + [];
    CutCallsFramed([], d0, []);
    var last := |cs| - 1;
    var dl := DrawEvents(cs[last], g, p, dir);
    assert ps[last] == (cl + dl) + cl;
    CutCallsFramed(cl, dl, cl);
  }

  /** Drawing calls add no cut lines to the pieces around them. */
  lemma CutCallsFramed(pre: seq<Event>, d: seq<Event>, post: seq<Event>)
    requires OnlyDraws(d)
    ensures CutCalls((pre + d) + post) == CutCalls(pre) + CutCalls(post)
  {
    OnlyDrawsCounts(d);
    LogSplit(pre, d);
    LogSplit(pre + d, post);
  }

  /** Ten cards with cut lines on: the 3 x 3 card grid spills onto a second page and shows the misplacement. */
  lemma AsWrittenTenCards(items: seq<Item>)
    requires |items| == 10
    ensures var ps := Pages(LayoutEvents(items, A4Sheet(63.0, 88.0, 3.0), Ltr, true));
      |ps| == 2 && CutCalls(ps[0]) == 0 && CutCalls(ps[1]) == 2
  {
    var g := A4Sheet(63.0, 88.0, 3.0);
    CardGridOnA4();
    AsWrittenCutLinesMisplaced(items, g, Ltr);
    LayoutPagesAsWritten(items, g, Ltr, true);
    assert NumChunks(10, 9) == 2;
  }

  lemma Regroup<T>(a: seq<T>, b: seq<T>, c: seq<T>, d: seq<T>, e: seq<T>)
    ensures a + (((b + c) + d) + e) == (a + b) + c + (d + e)
  {
  }
}
