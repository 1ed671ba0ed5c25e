/**
 * process_images_and_generate_pdf (process_warbands.py lines 130-194): the
 * images are sorted into three buckets by name, then one canvas receives the
 * default bucket as 63 x 88 mm cards left to right, the "inspired" bucket as
 * cards right to left, and the "dedicated" bucket as 148 x 105 mm sheets, each
 * non-empty bucket closed by a page break, and the document is saved.
 *
 * Lengths are in millimetres; the source's `mm` factor is a change of unit
 * (Geometry.PlanScaleInvariant shows the layout does not depend on it).
 */
module Document {
  import opened Arith
  import opened Geometry
  import opened Pagination
  import opened Pdf
  import opened Layout
  import opened Categorize

  /** Card size of lines 162-163 and 174-175. */
  const CardWidth: real := 63.0
  const CardHeight: real := 88.0

  /** Size of a dedicated sheet, lines 186-187. */
  const DedicatedWidth: real := 148.0
  const DedicatedHeight: real := 105.0

  /** The margin all three buckets use. */
  const Margin: real := 3.0

  function CardSheet(): Sheet { A4Sheet(CardWidth, CardHeight, Margin) }
  function DedicatedSheet(): Sheet { A4Sheet(DedicatedWidth, DedicatedHeight, Margin) }

  /** One bucket's calls: its layout and the showPage after it, or nothing when the bucket is empty. */
  function Section(bucket: seq<Item>, g: Sheet, dir: Direction, cut: bool): seq<Event>
    requires g.Plannable()
  {
    if bucket == [] then [] else LayoutEvents(bucket, g, dir, cut) + [ShowPage]
  }

  /** The calls made on the canvas for a non-empty input. */
  function DocumentEvents(items: seq<Item>, cut: bool): seq<Event>
  {
    Section(Filter(items, Other), CardSheet(), Ltr, cut)
    + Section(Filter(items, Inspired), CardSheet(), Rtl, cut)
    + Section(Filter(items, Dedicated), DedicatedSheet(), Ltr, cut)
    + [Save]
  }

  /**
   * process_images_and_generate_pdf: nothing is created for an empty input;
   * otherwise a canvas for `outputPdf` receives exactly DocumentEvents. The
   * canvas is returned so that what was written can be stated.
   */
  method ProcessImagesAndGeneratePdf(imagesWithNames: seq<Item>, outputPdf: string, drawCutLines: bool)
    returns (pdfCanvas: Canvas?)
    ensures imagesWithNames == [] <==> pdfCanvas == null
    ensures pdfCanvas != null ==>
      && fresh(pdfCanvas)
      && pdfCanvas.filename == outputPdf
      && pdfCanvas.events == DocumentEvents(imagesWithNames, drawCutLines)
  {
    if imagesWithNames == [] {
      return null;
    }
    var dedicatedImages, inspiredImages, otherImages := CategorizeImages(imagesWithNames);
    pdfCanvas := new Canvas(outputPdf);
    DirectionNames();
    ghost var so := Section(otherImages, CardSheet(), Ltr, drawCutLines);
    ghost var si := Section(inspiredImages, CardSheet(), Rtl, drawCutLines);
    ghost var sd := Section(dedicatedImages, DedicatedSheet(), Ltr, drawCutLines);
    DrawBucket(pdfCanvas, otherImages, CardWidth, CardHeight, "ltr", drawCutLines);
    assert pdfCanvas.events == [] + so;
    DrawBucket(pdfCanvas, inspiredImages, CardWidth, CardHeight, "rtl", drawCutLines);
    assert pdfCanvas.events == ([] + so) + si;
    DrawBucket(pdfCanvas, dedicatedImages, DedicatedWidth, DedicatedHeight, "ltr", drawCutLines);
    assert pdfCanvas.events == (([] + so) + si) + sd;
    pdfCanvas.Save();
    assert [] + so == so;
  }

  /** The direction strings of lines 165, 177 and 189. */
  lemma DirectionNames()
    ensures DirectionOf("ltr") == Ltr && DirectionOf("rtl") == Rtl
  {
    assert "ltr"[0] != "rtl"[0];
  }

  /** One `if bucket: draw_images_on_page_specific(...); showPage()` block of lines 158-192. */
  method DrawBucket(c: Canvas, bucket: seq<Item>, imageWidth: real, imageHeight: real, direction: string,
                    drawCutLines: bool)
    requires imageWidth + Margin != 0.0 && imageHeight + Margin != 0.0
    modifies c
    ensures c.events == old(c.events)
      + Section(bucket, A4Sheet(imageWidth, imageHeight, Margin), DirectionOf(direction), drawCutLines)
  {
    if bucket != [] {
      ghost var before := c.events;
      DrawImagesOnPageSpecific(c, bucket, imageWidth, imageHeight, Margin, direction, drawCutLines);
      c.ShowPage();
      AppendAssoc(before, LayoutEvents(bucket, A4Sheet(imageWidth, imageHeight, Margin), DirectionOf(direction),
                                       drawCutLines), [ShowPage]);
    } else {
      assert c.events + [] == c.events;
    }
  }

  /** A break splits a log into the pages before it and the pages after it. */
  lemma {:induction false} PagesConcatBreak(a: seq<Event>, b: seq<Event>)
    ensures Pages(a + [ShowPage] + b) == Pages(a) + Pages(b)
  {
    if a == [] {
      assert a + [ShowPage] + b == [ShowPage] + b;
      assert ([ShowPage] + b)[1..] == b;
    } else {
      assert (a + [ShowPage] + b)[0] == a[0];
      assert (a + [ShowPage] + b)[1..] == a[1..] + [ShowPage] + b;
      PagesConcatBreak(a[1..], b);
    }
  }

  /** The pages one bucket prints: those of its layout, none for an empty bucket. */
  function SectionPages(bucket: seq<Item>, g: Sheet, dir: Direction, cut: bool): (ps: seq<seq<Event>>)
    requires g.Plannable()
    ensures bucket == [] <==> ps == []
  {
    if bucket == [] then [] else Pages(LayoutEvents(bucket, g, dir, cut))
  }

  /** A section ends with its own break, so what follows starts on a fresh sheet. */
  lemma SectionThen(bucket: seq<Item>, g: Sheet, dir: Direction, cut: bool, rest: seq<Event>)
    requires g.Plannable()
    ensures Pages(Section(bucket, g, dir, cut) + rest) == SectionPages(bucket, g, dir, cut) + Pages(rest)
  {
    if bucket == [] {
      assert Section(bucket, g, dir, cut) + rest == rest;
    } else {
      PagesConcatBreak(LayoutEvents(bucket, g, dir, cut), rest);
    }
  }

  /**
   * Buckets never share a sheet: the document's pages are the default
   * bucket's pages, then the inspired bucket's, then the dedicated bucket's,
   * and a last open page holding only the save call.
   */
  lemma DocumentPages(items: seq<Item>, cut: bool)
    ensures Pages(DocumentEvents(items, cut))
         == SectionPages(Filter(items, Other), CardSheet(), Ltr, cut)
          + SectionPages(Filter(items, Inspired), CardSheet(), Rtl, cut)
          + SectionPages(Filter(items, Dedicated), DedicatedSheet(), Ltr, cut)
          + [[Save]]
  {
    var so := Section(Filter(items, Other), CardSheet(), Ltr, cut);
    var si := Section(Filter(items, Inspired), CardSheet(), Rtl, cut);
    var sd := Section(Filter(items, Dedicated), DedicatedSheet(), Ltr, cut);
    SectionThen(Filter(items, Other), CardSheet(), Ltr, cut, si + (sd + [Save]));
    SectionThen(Filter(items, Inspired), CardSheet(), Rtl, cut, sd + [Save]);
    SectionThen(Filter(items, Dedicated), DedicatedSheet(), Ltr, cut, [Save]);
    ChainPages(so, si, sd,
               SectionPages(Filter(items, Other), CardSheet(), Ltr, cut),
               SectionPages(Filter(items, Inspired), CardSheet(), Rtl, cut),
               SectionPages(Filter(items, Dedicated), DedicatedSheet(), Ltr, cut));
  }

  /** Three sections, each ending in a break, then the save call. */
  lemma ChainPages(s1: seq<Event>, s2: seq<Event>, s3: seq<Event>,
                   p1: seq<seq<Event>>, p2: seq<seq<Event>>, p3: seq<seq<Event>>)
    requires Pages(s1 + (s2 + (s3 + [Save]))) == p1 + Pages(s2 + (s3 + [Save]))
    requires Pages(s2 + (s3 + [Save])) == p2 + Pages(s3 + [Save])
    requires Pages(s3 + [Save]) == p3 + Pages([Save])
    ensures Pages(s1 + s2 + s3 + [Save]) == p1 + p2 + p3 + [[Save]]
  {
    AppendAssoc(s1 + s2, s3, [Save]);
    AppendAssoc(s1, s2, s3 + [Save]);
    var rest := Pages([Save][1..]);
    assert [Save][1..] == [] && rest == [[]];
    assert [Save] + rest[0] == [Save];
    assert Pages([Save]) == [[Save] + rest[0]] + rest[1..];
  }

  /** The bitmaps one section draws are its bucket's, in order. */
  lemma SectionImages(bucket: seq<Item>, g: Sheet, dir: Direction, cut: bool)
    requires g.Plannable()
    ensures DrawnImages(Section(bucket, g, dir, cut)) == Images(bucket)
  {
    if bucket != [] {
      LayoutDraws(bucket, g, dir, cut);
      LogSplit(LayoutEvents(bucket, g, dir, cut), [ShowPage]);
    }
  }

  /**
   * Every input image is printed exactly once: the default bucket's images
   * in input order, then the inspired ones, then the dedicated ones, and as
   * a multiset the drawn images are the input images.
   */
  lemma DocumentImages(items: seq<Item>, cut: bool)
    ensures DrawnImages(DocumentEvents(items, cut))
         == Images(Filter(items, Other)) + Images(Filter(items, Inspired)) + Images(Filter(items, Dedicated))
    ensures multiset(DrawnImages(DocumentEvents(items, cut))) == multiset(Images(items))
  {
    var so := Section(Filter(items, Other), CardSheet(), Ltr, cut);
    var si := Section(Filter(items, Inspired), CardSheet(), Rtl, cut);
    var sd := Section(Filter(items, Dedicated), DedicatedSheet(), Ltr, cut);
    SectionImages(Filter(items, Other), CardSheet(), Ltr, cut);
    SectionImages(Filter(items, Inspired), CardSheet(), Rtl, cut);
    SectionImages(Filter(items, Dedicated), DedicatedSheet(), Ltr, cut);
    LogSplit(so, si);
    LogSplit(so + si, sd);
    LogSplit(so + si + sd, [Save]);
    FilterPartitionImages(items);
  }

  /** The number of sheets a bucket takes: nine cards or two dedicated sheets per page. */
  lemma SectionPageCount(bucket: seq<Item>, g: Sheet, dir: Direction, cut: bool)
    requires g.Plannable()
    ensures |SectionPages(bucket, g, dir, cut)| == NumChunks(|bucket|, Plan(g).PerPage())
  {
    var n := Plan(g).PerPage();
    if bucket == [] {
      DivModUnique(n - 1, n, 0, n - 1);
    } else {
      LayoutPagesAsWritten(bucket, g, dir, cut);
    }
  }

  /**
   * The document prints ceil(o / 9) + ceil(i / 9) + ceil(d / 2) sheets for
   * o default, i inspired and d dedicated images, plus the open page the
   * save call closes.
   */
  lemma DocumentPageCount(items: seq<Item>, cut: bool)
    ensures |Pages(DocumentEvents(items, cut))|
         == NumChunks(|Filter(items, Other)|, 9) + NumChunks(|Filter(items, Inspired)|, 9)
          + NumChunks(|Filter(items, Dedicated)|, 2) + 1
  {
    DocumentPages(items, cut);
    CardGridOnA4();
    DedicatedGridOnA4();
    SectionPageCount(Filter(items, Other), CardSheet(), Ltr, cut);
    SectionPageCount(Filter(items, Inspired), CardSheet(), Rtl, cut);
    SectionPageCount(Filter(items, Dedicated), DedicatedSheet(), Ltr, cut);
  }
}
