/** The pagination engine of the PDF BRD: a cursor that moves down the page,
    starts a new page when a block does not fit above the bottom margin, and
    records what it draws. jsPDF itself is not modelled: a page start stands for
    `addPage` with its frame, header and "Page | n" footer, a block for a `text`
    call, a highlight for the filled `rect` behind a bullet, and `splitTextToSize`
    is a function `wrap` giving the number of lines a text wraps to at a width in
    a font.

    The font is document state, as in jsPDF: each writer sets it, and so does the
    footer of every new page (10 pt, normal). `writeWrappedText` sets its font
    before it makes room, so a block that starts a new page is drawn in the
    footer's font; `writeBulletList` sets the bullet font only after wrapping, so
    a list's first bullet is wrapped in whatever font was set before it. */
module PdfLayout {
  import opened Options
  import opened Text

  /** A font setting of Helvetica: the size in points and whether it is bold. */
  datatype Font = Font(size: real, bold: bool)

  /** The font the footer of every page leaves set. */
  const FooterFont: Font := Font(10.0, false)
  /** The font `writeBulletList` draws each bullet in. */
  const BulletFont: Font := Font(11.0, false)

  /** One drawing call, in drawing order. */
  datatype Op =
    | PageStart(number: nat)
    | Block(text: string, x: real, y: real, lines: nat, font: Font)
    | Highlight(x: real, y: real, width: real, height: real)

  /** The part of `LayoutState` that the engine mutates, the font currently set,
      and the drawing trace. */
  datatype Cursor = Cursor(y: real, page: nat, ops: seq<Op>, font: Font)

  /** The part of `LayoutState` fixed for a document: the page height, the
      content width (page width less both margins) and the line breaker. */
  datatype Page = Page(height: real, contentWidth: real, wrap: (string, real, Font) -> nat)

  /** The optional settings of `writeWrappedText` that move the cursor or set the
      font; an absent one takes its default (line height 6, no indent, nothing
      before or after, 11 pt, normal). */
  datatype TextOptions = TextOptions(
    lineHeight: Option<real>, indent: Option<real>, before: Option<real>, after: Option<real>,
    fontSize: Option<real>, bold: bool)

  /** The font `writeWrappedText` sets for the given options. */
  function FontOf(o: TextOptions): Font {
    Font(o.fontSize.GetOr(11.0), o.bold)
  }

  const MarginX: real := 18.0
  /** Where writing starts on every page. */
  const Top: real := 34.0
  /** The space kept free above the bottom edge. */
  const BottomGap: real := 26.0
  /** The bullet prefix exactly as the source spells it: the UTF-8 bytes of a
      bullet read back as Windows-1252 characters, then a space. */
  const Bullet: string := "\U{E2}\U{20AC}\U{A2} "

  function SafeBottom(p: Page): real {
    p.height - BottomGap
  }

  /** The first page of a new document. */
  const Start: Cursor := Cursor(Top, 1, [PageStart(1)], FooterFont)

  // ---- The trace invariant: pages are numbered 1, 2, ... in drawing order ----

  /** The numbers of the page starts in a trace, in order. */
  function PageStarts(ops: seq<Op>): seq<nat> {
    if ops == [] then []
    else PageStarts(ops[..|ops| - 1]) + (if ops[|ops| - 1].PageStart? then [ops[|ops| - 1].number] else [])
  }

  /** `[1, 2, ..., n]`. */
  function UpTo(n: nat): (r: seq<nat>)
    ensures |r| == n
    ensures forall i :: 0 <= i < n ==> r[i] == i + 1
  {
    if n == 0 then [] else UpTo(n - 1) + [n]
  }

  /** The cursor is on the last page of the trace, and the trace started pages
      1 to `page` one after the other. */
  predicate Numbered(c: Cursor) {
    PageStarts(c.ops) == UpTo(c.page)
  }

  /** The number of highlight rectangles in a trace. */
  function Highlights(ops: seq<Op>): nat {
    if ops == [] then 0
    else Highlights(ops[..|ops| - 1]) + (if ops[|ops| - 1].Highlight? then 1 else 0)
  }

  /** The op at `i`, if a highlight, is immediately followed by the text it sits
      behind, and reaches from 4.8 above that text's baseline. */
  predicate UnderTextAt(ops: seq<Op>, i: nat)
    requires i < |ops|
  {
    ops[i].Highlight? ==> i + 1 < |ops| && ops[i + 1].Block? && ops[i].y == ops[i + 1].y - 4.8
  }

  /** Every highlight is drawn immediately before the text it sits behind. */
  predicate HighlightsUnderText(ops: seq<Op>) {
    forall i :: 0 <= i < |ops| ==> UnderTextAt(ops, i)
  }

  /** `r` continues a cursor with trace `ops` on page `page`: the trace only
      grows, the page number never goes back, numbered pages stay numbered,
      highlights stay in front of their text, and `added` highlights are drawn. */
  predicate Keeps(ops: seq<Op>, page: nat, r: Cursor, added: nat) {
    && page <= r.page && |ops| <= |r.ops| && r.ops[..|ops|] == ops
    && (PageStarts(ops) == UpTo(page) ==> Numbered(r))
    && (HighlightsUnderText(ops) ==> HighlightsUnderText(r.ops))
    && Highlights(r.ops) == Highlights(ops) + added
  }

  // ---- The layout rules on cursor values ----

  /** `addNewPage`: the next page, written from the top, its footer's font set. */
  function NewPage(c: Cursor): (r: Cursor)
    ensures r.page == c.page + 1 && r.y == Top && r.font == FooterFont
  {
    Cursor(Top, c.page + 1, c.ops + [PageStart(c.page + 1)], FooterFont)
  }

  /** `ensureSpace`: stay when `needed` fits above the bottom margin, otherwise
      start a new page. */
  function MakeRoom(p: Page, c: Cursor, needed: real): (r: Cursor)
    ensures c.y + needed <= SafeBottom(p) ==> r == c
    ensures c.y + needed > SafeBottom(p) ==> r.page == c.page + 1 && r.y == Top
  {
    if c.y + needed <= SafeBottom(p) then c else NewPage(c)
  }

  /** The height of `n` wrapped lines. */
  function LinesHeight(n: nat, lineHeight: real): real {
    n as real * lineHeight
  }

  /** Draw a block at the cursor and move below it. */
  function Put(c: Cursor, op: Op, advance: real): Cursor {
    c.(y := c.y + advance, ops := c.ops + [op])
  }

  /** The filled rectangle behind a bullet whose text starts at `y`. */
  function HighlightAt(p: Page, y: real, height: real): Op {
    Highlight(MarginX - 1.0, y - 4.8, p.contentWidth + 2.0, height + 1.8)
  }

  /** The common step of both writers: make room for a block of `height` and the
      `gap` under it, draw its highlight first when asked, set `setFont` if given,
      draw the block in the font then set, and move below the gap. */
  function PlaceBlock(p: Page, c: Cursor, text: string, x: real, n: nat, height: real, gap: real,
                      highlight: bool, setFont: Option<Font>): Cursor {
    var c1 := MakeRoom(p, c, height + gap);
    var c2 := if highlight then c1.(ops := c1.ops + [HighlightAt(p, c1.y, height)]) else c1;
    var f := setFont.GetOr(c1.font);
    Put(c2.(font := f), Block(text, x, c1.y, n, f), height + gap)
  }

  /** Move down by `before` when it is positive. */
  function SkipBefore(c: Cursor, before: real): (r: Cursor)
    ensures r.ops == c.ops && r.page == c.page && r.font == c.font
  {
    if before > 0.0 then c.(y := c.y + before) else c
  }

  /** `writeWrappedText`: skip `before`, set the font, wrap in it, make room for
      the wrapped lines and `after`, draw, and move below. */
  function WriteWrapped(p: Page, c: Cursor, text: string, o: TextOptions): Cursor {
    var indent := o.indent.GetOr(0.0);
    var c1 := SkipBefore(c, o.before.GetOr(0.0)).(font := FontOf(o));
    var n := p.wrap(text, p.contentWidth - indent, c1.font);
    PlaceBlock(p, c1, text, MarginX + indent, n, LinesHeight(n, o.lineHeight.GetOr(6.0)), o.after.GetOr(0.0), false, None)
  }

  /** One bullet of `writeBulletList`: nothing for a blank line; otherwise the
      trimmed item behind a bullet, wrapped 8 narrower than the content in the
      font already set, with its highlight first when asked, drawn in the bullet
      font. */
  function WriteBullet(p: Page, c: Cursor, line: string, highlight: bool): Cursor {
    var item := Trim(line);
    if item == [] then c
    else
      var text := Bullet + item;
      var n := p.wrap(text, p.contentWidth - 8.0, c.font);
      PlaceBlock(p, c, text, MarginX + 4.0, n, LinesHeight(n, 6.0), 2.0, highlight, Some(BulletFont))
  }

  /** `writeBulletList`: the bullets one after the other. */
  function WriteBullets(p: Page, c: Cursor, lines: seq<string>, highlight: bool): Cursor
    decreases |lines|
  {
    if lines == [] then c
    else WriteBullet(p, WriteBullets(p, c, lines[..|lines| - 1], highlight), lines[|lines| - 1], highlight)
  }

  /** Writing one more line of a list. */
  lemma WriteBulletsSnoc(p: Page, c: Cursor, lines: seq<string>, i: nat, highlight: bool)
    requires i < |lines|
    ensures WriteBullets(p, c, lines[..i + 1], highlight) == WriteBullet(p, WriteBullets(p, c, lines[..i], highlight), lines[i], highlight)
  {
    assert lines[..i + 1][..i] == lines[..i];
  }

  // ---- What each rule keeps ----

  /** `ensureSpace` starts at most one page, and afterwards a block that fits on
      an empty page fits where the cursor is. */
  lemma EnsureSpaceFits(p: Page, c: Cursor, needed: real)
    requires Top + needed <= SafeBottom(p)
    ensures MakeRoom(p, c, needed).y + needed <= SafeBottom(p)
    ensures MakeRoom(p, c, needed).page <= c.page + 1
  {
  }

  lemma KeepsRefl(c: Cursor)
    ensures Keeps(c.ops, c.page, c, 0)
  {
    assert c.ops[..|c.ops|] == c.ops;
  }

  lemma KeepsTrans(a: Cursor, b: Cursor, c: Cursor, x: nat, y: nat)
    requires Keeps(a.ops, a.page, b, x) && Keeps(b.ops, b.page, c, y)
    ensures Keeps(a.ops, a.page, c, x + y)
  {
    assert c.ops[..|a.ops|] == c.ops[..|b.ops|][..|a.ops|];
  }

  /** Appending an op that is not a highlight: the trace grows, and a page start
      is numbered as the next page. */
  lemma Append(c: Cursor, op: Op, r: Cursor)
    requires r.ops == c.ops + [op] && !op.Highlight?
    requires if op.PageStart? then r.page == c.page + 1 && op.number == r.page else r.page == c.page
    ensures Keeps(c.ops, c.page, r, 0)
  {
    var ops := c.ops;
    assert r.ops[..|ops|] == ops;
    if HighlightsUnderText(ops) {
      forall i | 0 <= i < |r.ops|
        ensures UnderTextAt(r.ops, i)
      {
        if i < |ops| {
          assert UnderTextAt(ops, i);
          assert r.ops[i] == ops[i];
          if i + 1 < |ops| {
            assert r.ops[i + 1] == ops[i + 1];
          }
        }
      }
    }
  }

  /** Appending a highlight and then the text it sits behind. */
  lemma AppendHighlighted(c: Cursor, h: Op, block: Op, r: Cursor)
    requires h.Highlight? && block.Block? && h.y == block.y - 4.8
    requires r.ops == c.ops + [h, block] && r.page == c.page
    ensures Keeps(c.ops, c.page, r, 1)
  {
    var ops := c.ops;
    var mid := c.(ops := ops + [h]);
    assert r.ops == mid.ops + [block];
    assert r.ops[..|ops|] == ops;
    assert PageStarts(mid.ops) == PageStarts(ops) by {
      assert mid.ops[..|ops|] == ops;
    }
    assert Highlights(mid.ops) == Highlights(ops) + 1 by {
      assert mid.ops[..|ops|] == ops;
    }
    assert r.ops[..|mid.ops|] == mid.ops;
    if HighlightsUnderText(ops) {
      forall i | 0 <= i < |r.ops|
        ensures UnderTextAt(r.ops, i)
      {
        if i < |ops| {
          assert UnderTextAt(ops, i);
          assert r.ops[i] == ops[i];
          if i + 1 < |ops| {
            assert r.ops[i + 1] == ops[i + 1];
          }
        }
      }
    }
  }

  /** A new page is numbered as the next page. */
  lemma NewPageKeeps(c: Cursor)
    ensures Keeps(c.ops, c.page, NewPage(c), 0)
  {
    Append(c, PageStart(c.page + 1), NewPage(c));
  }

  /** `ensureSpace` keeps the trace invariants. */
  lemma EnsureSpaceKeeps(p: Page, c: Cursor, needed: real)
    ensures Keeps(c.ops, c.page, MakeRoom(p, c, needed), 0)
  {
    if c.y + needed <= SafeBottom(p) {
      KeepsRefl(c);
    } else {
      NewPageKeeps(c);
    }
  }

  /** A placed block keeps the trace invariants and adds one highlight when asked. */
  lemma PlaceBlockKeeps(p: Page, c: Cursor, text: string, x: real, n: nat, height: real, gap: real,
                        highlight: bool, setFont: Option<Font>)
    ensures Keeps(c.ops, c.page, PlaceBlock(p, c, text, x, n, height, gap, highlight, setFont), if highlight then 1 else 0)
  {
    var c1 := MakeRoom(p, c, height + gap);
    EnsureSpaceKeeps(p, c, height + gap);
    var block := Block(text, x, c1.y, n, setFont.GetOr(c1.font));
    var r := PlaceBlock(p, c, text, x, n, height, gap, highlight, setFont);
    if highlight {
      AppendHighlighted(c1, HighlightAt(p, c1.y, height), block, r);
      KeepsTrans(c, c1, r, 0, 1);
    } else {
      Append(c1, block, r);
      KeepsTrans(c, c1, r, 0, 0);
    }
  }

  /** `writeWrappedText` keeps the trace invariants and draws no highlight. */
  lemma WriteWrappedKeeps(p: Page, c: Cursor, text: string, o: TextOptions)
    ensures Keeps(c.ops, c.page, WriteWrapped(p, c, text, o), 0)
  {
    var c1 := SkipBefore(c, o.before.GetOr(0.0)).(font := FontOf(o));
    var n := p.wrap(text, p.contentWidth - o.indent.GetOr(0.0), FontOf(o));
    assert WriteWrapped(p, c, text, o) == PlaceBlock(p, c1, text, MarginX + o.indent.GetOr(0.0), n, LinesHeight(n, o.lineHeight.GetOr(6.0)), o.after.GetOr(0.0), false, None);
    PlaceBlockKeeps(p, c1, text, MarginX + o.indent.GetOr(0.0), n, LinesHeight(n, o.lineHeight.GetOr(6.0)), o.after.GetOr(0.0), false, None);
  }

  /** When a text block and the gap after it fit on an empty page, the cursor
      stays above the bottom margin after `writeWrappedText`. */
  lemma WriteWrappedFits(p: Page, c: Cursor, text: string, o: TextOptions)
    requires Top + LinesHeight(p.wrap(text, p.contentWidth - o.indent.GetOr(0.0), FontOf(o)), o.lineHeight.GetOr(6.0)) + o.after.GetOr(0.0) <= SafeBottom(p)
    ensures WriteWrapped(p, c, text, o).y <= SafeBottom(p)
  {
  }

  /** One bullet keeps the trace invariants, and adds one highlight exactly when
      highlighting a line that is not blank. */
  lemma WriteBulletKeeps(p: Page, c: Cursor, line: string, highlight: bool)
    ensures Keeps(c.ops, c.page, WriteBullet(p, c, line, highlight), if highlight && !IsBlank(line) then 1 else 0)
  {
    var item := Trim(line);
    if item == [] {
      KeepsRefl(c);
    } else {
      var text := Bullet + item;
      var n := p.wrap(text, p.contentWidth - 8.0, c.font);
      assert WriteBullet(p, c, line, highlight) == PlaceBlock(p, c, text, MarginX + 4.0, n, LinesHeight(n, 6.0), 2.0, highlight, Some(BulletFont));
      PlaceBlockKeeps(p, c, text, MarginX + 4.0, n, LinesHeight(n, 6.0), 2.0, highlight, Some(BulletFont));
    }
  }

  /** The number of highlights a list draws: one per line that is not blank,
      when highlighting. */
  function HighlightCount(lines: seq<string>, highlight: bool): nat {
    if lines == [] then 0
    else HighlightCount(lines[..|lines| - 1], highlight) + (if highlight && !IsBlank(lines[|lines| - 1]) then 1 else 0)
  }

  /** `writeBulletList` keeps the trace invariants and draws one highlight per
      line that is not blank when highlighting, none otherwise. */
  lemma {:induction false} WriteBulletsKeeps(p: Page, c: Cursor, lines: seq<string>, highlight: bool)
    ensures Keeps(c.ops, c.page, WriteBullets(p, c, lines, highlight), HighlightCount(lines, highlight))
    decreases |lines|
  {
    if lines == [] {
      KeepsRefl(c);
    } else {
      var front := lines[..|lines| - 1];
      WriteBulletsKeeps(p, c, front, highlight);
      var mid := WriteBullets(p, c, front, highlight);
      WriteBulletKeeps(p, mid, lines[|lines| - 1], highlight);
      KeepsTrans(c, mid, WriteBullets(p, c, lines, highlight), HighlightCount(front, highlight),
        if highlight && !IsBlank(lines[|lines| - 1]) then 1 else 0);
    }
  }

  /** Without highlighting a list draws no highlight. */
  lemma {:induction false} PlainListCount(lines: seq<string>)
    ensures HighlightCount(lines, false) == 0
    decreases |lines|
  {
    if lines != [] {
      PlainListCount(lines[..|lines| - 1]);
    }
  }

  /** With highlighting, a list none of whose lines is blank draws one highlight
      per line. */
  lemma {:induction false} HighlightedListCount(lines: seq<string>)
    requires forall i :: 0 <= i < |lines| ==> !IsBlank(lines[i])
    ensures HighlightCount(lines, true) == |lines|
    decreases |lines|
  {
    if lines != [] {
      var front := lines[..|lines| - 1];
      assert forall i :: 0 <= i < |front| ==> front[i] == lines[i];
      HighlightedListCount(front);
    }
  }

  // ---- The font each text is wrapped and drawn in ----

  /** The last op of a trace is a block of `lines` lines drawn in `font`. */
  predicate EndsWithBlock(ops: seq<Op>, lines: nat, font: Font) {
    |ops| > 0 && ops[|ops| - 1].Block? && ops[|ops| - 1].lines == lines && ops[|ops| - 1].font == font
  }

  /** `writeWrappedText` wraps the text in the font of its options and draws it as
      one block; the block is drawn, and the font is left set, in that font, except
      when the block starts a new page: then it is the footer's font. */
  lemma WriteWrappedFont(p: Page, c: Cursor, text: string, o: TextOptions)
    ensures var r := WriteWrapped(p, c, text, o);
      && EndsWithBlock(r.ops, p.wrap(text, p.contentWidth - o.indent.GetOr(0.0), FontOf(o)), r.font)
      && (r.page == c.page ==> r.font == FontOf(o))
      && (r.page != c.page ==> r.font == FooterFont)
  {
  }

  /** A bullet that is not blank is wrapped in the font already set and drawn, and
      leaves set, the bullet font; a blank line changes nothing. */
  lemma WriteBulletFont(p: Page, c: Cursor, line: string, highlight: bool)
    ensures IsBlank(line) ==> WriteBullet(p, c, line, highlight) == c
    ensures !IsBlank(line) ==>
      var r := WriteBullet(p, c, line, highlight);
      EndsWithBlock(r.ops, p.wrap(Bullet + Trim(line), p.contentWidth - 8.0, c.font), BulletFont) && r.font == BulletFont
  {
  }

  /** Every line of `lines` is blank. */
  predicate AllBlank(lines: seq<string>) {
    forall i :: 0 <= i < |lines| ==> IsBlank(lines[i])
  }

  lemma AllBlankSnoc(lines: seq<string>)
    requires lines != []
    ensures AllBlank(lines) <==> AllBlank(lines[..|lines| - 1]) && IsBlank(lines[|lines| - 1])
  {
    var front := lines[..|lines| - 1];
    assert forall i :: 0 <= i < |front| ==> front[i] == lines[i];
  }

  /** The font a bullet leaves set. */
  lemma WriteBulletLeaves(p: Page, c: Cursor, line: string, highlight: bool)
    ensures WriteBullet(p, c, line, highlight).font == (if IsBlank(line) then c.font else BulletFont)
  {
    WriteBulletFont(p, c, line, highlight);
  }

  /** A list leaves the bullet font set once it has a line that is not blank, and
      the font it started with when every line is blank; so only a list's first
      drawn bullet is wrapped in the font set before the list. */
  lemma {:induction false} WriteBulletsFont(p: Page, c: Cursor, lines: seq<string>, highlight: bool)
    ensures WriteBullets(p, c, lines, highlight).font == (if AllBlank(lines) then c.font else BulletFont)
    decreases |lines|
  {
    if lines != [] {
      var front := lines[..|lines| - 1];
      var mid := WriteBullets(p, c, front, highlight);
      assert WriteBullets(p, c, lines, highlight) == WriteBullet(p, mid, lines[|lines| - 1], highlight);
      WriteBulletsFont(p, c, front, highlight);
      WriteBulletLeaves(p, mid, lines[|lines| - 1], highlight);
      AllBlankSnoc(lines);
    }
  }

  // ---- The layout engine as the source runs it: a state updated in place ----

  /** `LayoutState`: the cursor fields the writers update in place, with the trace
      of what has been drawn. */
  class Layout {
    var y: real
    var pageNumber: nat
    var ops: seq<Op>
    var font: Font
    const page: Page

    function State(): Cursor
      reads this
    {
      Cursor(y, pageNumber, ops, font)
    }

    /** The state `generatePHLBRDPdfBlob` sets up, first page drawn. */
    constructor (page: Page)
      ensures this.page == page && State() == Start
    {
      this.page := page;
      y := Top;
      pageNumber := 1;
      ops := [PageStart(1)];
      font := FooterFont;
    }

    method AddNewPage()
      modifies this
      ensures State() == NewPage(old(State()))
    {
      pageNumber := pageNumber + 1;
      ops := ops + [PageStart(pageNumber)];
      font := FooterFont;
      y := Top;
    }

    method EnsureSpace(heightNeeded: real)
      modifies this
      ensures State() == MakeRoom(page, old(State()), heightNeeded)
    {
      if y + heightNeeded <= page.height - BottomGap {
        return;
      }
      AddNewPage();
    }

    method WriteWrappedText(text: string, o: TextOptions)
      modifies this
      ensures State() == WriteWrapped(page, old(State()), text, o)
    {
      var lineHeight := o.lineHeight.GetOr(6.0);
      var indent := o.indent.GetOr(0.0);
      var before := o.before.GetOr(0.0);
      var after := o.after.GetOr(0.0);
      if before > 0.0 {
        y := y + before;
      }
      font := Font(o.fontSize.GetOr(11.0), o.bold);
      var maxWidth := page.contentWidth - indent;
      var lines := page.wrap(text, maxWidth, font);
      var blockHeight := LinesHeight(lines, lineHeight);
      EnsureSpace(blockHeight + after);
      ops := ops + [Block(text, MarginX + indent, y, lines, font)];
      y := y + (blockHeight + after);
    }

    /** The body of the `forEach` in `writeBulletList`: one line. */
    method WriteBulletItem(line: string, highlight: bool)
      modifies this
      ensures State() == WriteBullet(page, old(State()), line, highlight)
    {
      var item := Trim(line);
      if item == [] {
        return;
      }
      var bulletText := Bullet + item;
      var wrapped := page.wrap(bulletText, page.contentWidth - 8.0, font);
      var blockHeight := LinesHeight(wrapped, 6.0);
      EnsureSpace(blockHeight + 2.0);
      if highlight {
        ops := ops + [HighlightAt(page, y, blockHeight)];
      }
      font := BulletFont;
      ops := ops + [Block(bulletText, MarginX + 4.0, y, wrapped, font)];
      y := y + (blockHeight + 2.0);
    }

    method WriteBulletList(lines: seq<string>, highlight: bool)
      modifies this
      ensures State() == WriteBullets(page, old(State()), lines, highlight)
    {
      var i := 0;
      while i < |lines|
        invariant 0 <= i <= |lines|
        invariant State() == WriteBullets(page, old(State()), lines[..i], highlight)
      {
        WriteBulletsSnoc(page, old(State()), lines, i, highlight);
        WriteBulletItem(lines[i], highlight);
        i := i + 1;
      }
      assert lines[..i] == lines;
    }
  }
}
