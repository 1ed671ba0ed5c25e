/**
 * The drawing surface the layout engine drives: a reportlab canvas
 * (process_warbands.py lines 102-111, 115, 118-127, 155, 168, 194) seen as
 * the ordered log of the calls made on it. Pixels, aspect-fit scaling and
 * the tick geometry of draw_pdf_cut_lines are not modelled; each call is
 * recorded with its arguments.
 */
module Pdf {

  /** A decoded image, known to the engine only by identity. */
  datatype Bitmap = Bitmap(id: nat)

  /** One entry of `images_with_names`: an image and its file name. */
  datatype Item = Item(img: Bitmap, name: string)

  /** A call made on the canvas, in the order it was made. */
  datatype Event =
    | DrawImage(img: Bitmap, x: real, y: real, width: real, height: real)
    | ShowPage
    | CutLines(perRow: int, perCol: int, pageW: real, pageH: real, cellW: real, cellH: real, margin: real)
    | Save

  /** `canvas.Canvas(output_pdf, pagesize=A4)`: an output file and the calls made so far. */
  class Canvas {
    const filename: string
    var events: seq<Event>

    constructor (filename: string)
      ensures this.filename == filename && events == []
    {
      this.filename := filename;
      events := [];
    }

    /** `drawImage(img, x, y, width=w, height=h, ...)`. */
    method DrawImage(img: Bitmap, x: real, y: real, width: real, height: real)
      modifies this
      ensures events == old(events) + [Event.DrawImage(img, x, y, width, height)]
    {
      events := events + [Event.DrawImage(img, x, y, width, height)];
    }

    /** `showPage()`: finish the current page and start a new one. */
    method ShowPage()
      modifies this
      ensures events == old(events) + [Event.ShowPage]
    {
      events := events + [Event.ShowPage];
    }

    /** `save()`: write the document. */
    method Save()
      modifies this
      ensures events == old(events) + [Event.Save]
    {
      events := events + [Event.Save];
    }
  }

  /** `draw_pdf_cut_lines(canvas, ...)`, defined outside this part of the program: one recorded call. */
  method DrawPdfCutLines(c: Canvas, perRow: int, perCol: int, pageW: real, pageH: real,
                         cellW: real, cellH: real, margin: real)
    modifies c
    ensures c.events == old(c.events) + [CutLines(perRow, perCol, pageW, pageH, cellW, cellH, margin)]
  {
    c.events := c.events + [CutLines(perRow, perCol, pageW, pageH, cellW, cellH, margin)];
  }

  /** The image-drawing calls of a log, in order. */
  function Draws(es: seq<Event>): seq<Event>
  {
    if es == [] then [] else (if es[0].DrawImage? then [es[0]] else []) + Draws(es[1..])
  }

  /** The number of page breaks in a log. */
  function Breaks(es: seq<Event>): nat
  {
    if es == [] then 0 else (if es[0].ShowPage? then 1 else 0) + Breaks(es[1..])
  }

  /** The number of cut-line calls in a log. */
  function CutCalls(es: seq<Event>): nat
  {
    if es == [] then 0 else (if es[0].CutLines? then 1 else 0) + CutCalls(es[1..])
  }

  /** The bitmaps of a sequence of events (of the drawing calls among them). */
  function DrawnImages(es: seq<Event>): seq<Bitmap>
  {
    if es == [] then [] else (if es[0].DrawImage? then [es[0].img] else []) + DrawnImages(es[1..])
  }

  /** Draws, Breaks, CutCalls and DrawnImages read a log piece by piece. */
  lemma LogSplit(a: seq<Event>, b: seq<Event>)
    ensures Draws(a + b) == Draws(a) + Draws(b)
    ensures Breaks(a + b) == Breaks(a) + Breaks(b)
    ensures CutCalls(a + b) == CutCalls(a) + CutCalls(b)
    ensures DrawnImages(a + b) == DrawnImages(a) + DrawnImages(b)
  {
    DrawsSplit(a, b);
    BreaksSplit(a, b);
    CutCallsSplit(a, b);
    DrawnImagesSplit(a, b);
  }

  lemma {:induction false} DrawsSplit(a: seq<Event>, b: seq<Event>)
    ensures Draws(a + b) == Draws(a) + Draws(b)
  {
    if a == [] {
      assert a + b == b;
    } else {
      assert (a + b)[0] == a[0];
      assert (a + b)[1..] == a[1..] + b;
      DrawsSplit(a[1..], b);
    }
  }

  lemma {:induction false} BreaksSplit(a: seq<Event>, b: seq<Event>)
    ensures Breaks(a + b) == Breaks(a) + Breaks(b)
  {
    if a == [] {
      assert a + b == b;
    } else {
      assert (a + b)[0] == a[0];
      assert (a + b)[1..] == a[1..] + b;
      BreaksSplit(a[1..], b);
    }
  }

  lemma {:induction false} CutCallsSplit(a: seq<Event>, b: seq<Event>)
    ensures CutCalls(a + b) == CutCalls(a) + CutCalls(b)
  {
    if a == [] {
      assert a + b == b;
    } else {
      assert (a + b)[0] == a[0];
      assert (a + b)[1..] == a[1..] + b;
      CutCallsSplit(a[1..], b);
    }
  }

  lemma {:induction false} DrawnImagesSplit(a: seq<Event>, b: seq<Event>)
    ensures DrawnImages(a + b) == DrawnImages(a) + DrawnImages(b)
  {
    if a == [] {
      assert a + b == b;
    } else {
      assert (a + b)[0] == a[0];
      assert (a + b)[1..] == a[1..] + b;
      DrawnImagesSplit(a[1..], b);
    }
  }

  /**
   * A page's log: its drawing calls, two pieces without drawing calls (the
   * break and the cut lines, in either order), then the rest of the log.
   */
  lemma PageLog(d: seq<Event>, b: seq<Event>, c: seq<Event>, rest: seq<Event>)
    requires Draws(b) == [] && Draws(c) == [] && DrawnImages(b) == [] && DrawnImages(c) == []
    ensures Draws(((d + b) + c) + rest) == Draws(d) + Draws(rest)
    ensures DrawnImages(((d + b) + c) + rest) == DrawnImages(d) + DrawnImages(rest)
  {
    LogSplit(d, b);
    LogSplit(d + b, c);
    LogSplit((d + b) + c, rest);
  }

  /** Drawing calls framed by pieces without any: the frame adds no drawing call. */
  lemma FramedDraws(pre: seq<Event>, d: seq<Event>, post: seq<Event>)
    requires Draws(pre) == [] && Draws(d) == d && Draws(post) == []
    ensures Draws((pre + d) + post) == d
  {
    LogSplit(pre, d);
    LogSplit(pre + d, post);
  }

  /** A log made only of image-drawing calls. */
  predicate OnlyDraws(es: seq<Event>)
  {
    forall k :: 0 <= k < |es| ==> es[k].DrawImage?
  }

  lemma {:induction false} OnlyDrawsCounts(es: seq<Event>)
    requires OnlyDraws(es)
    ensures Draws(es) == es && Breaks(es) == 0 && CutCalls(es) == 0
  {
    if es != [] {
      OnlyDrawsCounts(es[1..]);
    }
  }

  /** The bitmaps of a sequence of items, in order. */
  function Images(items: seq<Item>): (imgs: seq<Bitmap>)
    ensures |imgs| == |items|
  {
    seq(|items|, k requires 0 <= k < |items| => items[k].img)
  }

  lemma ImagesSplit(a: seq<Item>, b: seq<Item>)
    ensures Images(a + b) == Images(a) + Images(b)
  {
  }

  /** The bitmaps drawn by a log of drawing calls are those of its calls, one each, in order. */
  lemma {:induction false} OnlyDrawsImages(es: seq<Event>)
    requires OnlyDraws(es)
    ensures DrawnImages(es) == seq(|es|, k requires 0 <= k < |es| => es[k].img)
  {
    if es != [] {
      OnlyDrawsImages(es[1..]);
    }
  }

  /**
   * The pages of a log: the calls between consecutive page breaks. The last
   * entry is the page still open after the last break (empty if none was drawn).
   */
  function Pages(es: seq<Event>): (ps: seq<seq<Event>>)
    ensures |ps| == Breaks(es) + 1
  {
    if es == [] then [[]]
    else if es[0].ShowPage? then [[]] + Pages(es[1..])
    else
      var rest := Pages(es[1..]);
      [[es[0]] + rest[0]] + rest[1..]
  }

  /** A page without a break in it ends where the next break starts the following page. */
  lemma {:induction false} PagesAfterBreak(a: seq<Event>, b: seq<Event>)
    requires Breaks(a) == 0
    ensures Pages(a + [ShowPage] + b) == [a] + Pages(b)
  {
    if a == [] {
      assert [ShowPage] + b == a + [ShowPage] + b;
      assert ([ShowPage] + b)[1..] == b;
    } else {
      assert (a + [ShowPage] + b)[1..] == a[1..] + [ShowPage] + b;
      assert !a[0].ShowPage?;
      PagesAfterBreak(a[1..], b);
      assert [a[0]] + a[1..] == a;
    }
  }

  /** A log without breaks is one (open) page. */
  lemma {:induction false} PagesWithoutBreak(a: seq<Event>)
    requires Breaks(a) == 0
    ensures Pages(a) == [a]
  {
    if a != [] {
      assert !a[0].ShowPage?;
      PagesWithoutBreak(a[1..]);
      assert [a[0]] + a[1..] == a;
    }
  }
}
