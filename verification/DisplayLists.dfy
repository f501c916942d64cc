/** What the display list compiler makes of a list of transitions, and what the hardware makes of the lists. */
module DisplayLists {
  import opened Options

  const WORD: int := 0x1_0000_0000

  function Wrap(x: int): (r: int)
    ensures 0 <= r < WORD
  {
    x % WORD
  }

  // ---- views and transitions ----

  /** bm_Buffer, bm_Width and bti_PixelSize. */
  datatype Bitmap = Bitmap(base: int, width: nat, size: nat)

  /** The fields of a View the compiler reads; lace tells whether its type compiles with cvu_16_32_lace. */
  datatype View = View(id: int, bitmap: Option<Bitmap>, lace: bool, absTop: int, winTop: int,
                       winLeft: int, leftEdge: int, pixXSize: int)

  /** A horizontal band, by its owner and its height. */
  datatype Transition = Transition(view: Option<View>, height: nat)

  /** The list ends at a height of 0. */
  predicate Listed(ts: seq<Transition>) { forall i :: 0 <= i < |ts| ==> ts[i].height > 0 }

  /** The leftmost column shown; C's division truncates, and leftEdge is negative here. */
  function Left(v: View): int
    requires v.pixXSize > 0
  {
    if v.leftEdge < 0 then v.winLeft + -v.leftEdge / v.pixXSize else v.winLeft
  }

  function Pitch(b: Bitmap): int { b.width * b.size }

  function PixelAddr(b: Bitmap, x: int, y: int): int { b.base + (y * b.width + x) * b.size }

  // ---- spans ----

  /** Display lines top to bot - 1, for the transition of that index, or for a filling blank (-1). */
  datatype Span = Span(view: Option<View>, top: nat, bot: nat, owner: int)

  function Max(a: int, b: int): int { if a > b then a else b }

  function Min(a: int, b: int): int { if a < b then a else b }

  predicate Visible(transtop: int, t: Transition, height: nat) { transtop < height && transtop + t.height > 0 }

  /** transtop after a transition; past the bottom, transbot is left as it was. */
  function Below(transtop: int, t: Transition, height: nat): int
  {
    if transtop < height then transtop + t.height else transtop
  }

  function EndOf(ts: seq<Transition>, transtop: int, height: nat): int
    decreases |ts|
  {
    if ts == [] then transtop else EndOf(ts[1..], Below(transtop, ts[0], height), height)
  }

  /** The spans of the transitions from index i on. */
  function Bands(ts: seq<Transition>, i: nat, transtop: int, height: nat): seq<Span>
    decreases |ts|
  {
    if ts == [] then []
    else
      (if Visible(transtop, ts[0], height) then
         [Span(ts[0].view, Max(transtop, 0), Min(transtop + ts[0].height, height), i)]
       else []) +
      Bands(ts[1..], i + 1, Below(transtop, ts[0], height), height)
  }

  function Leading(startY: int, height: nat): seq<Span>
  {
    if startY > 0 then [Span(None, 0, Min(startY, height), -1)] else []
  }

  function Trailing(end: int, height: nat): seq<Span>
  {
    if 0 <= end < height then [Span(None, end, height, -1)] else []
  }

  /** Everything processtransitions hands to buildVDLentry. */
  function Spans(ts: seq<Transition>, startY: int, height: nat): seq<Span>
  {
    Leading(startY, height) + Bands(ts, 0, startY, height) + Trailing(EndOf(ts, startY, height), height)
  }

  /** What processtransitions needs: a start above the bottom, and transitions that reach the display. */
  predicate Placed(ts: seq<Transition>, startY: int, height: nat)
  {
    Listed(ts) && startY < height && EndOf(ts, startY, height) >= 0
  }

  // ---- tiling ----

  /** The spans fill lines a to b - 1 in order, leaving no line out and showing none twice. */
  predicate Tiles(ss: seq<Span>, a: int, b: int)
    decreases |ss|
  {
    if ss == [] then a == b else ss[0].top == a && ss[0].top < ss[0].bot && Tiles(ss[1..], ss[0].bot, b)
  }

  lemma {:induction false} TilesThen(x: seq<Span>, y: seq<Span>, a: int, b: int, c: int)
    requires Tiles(x, a, b) && Tiles(y, b, c)
    ensures Tiles(x + y, a, c)
    decreases |x|
  {
    if x == [] {
      assert x + y == y;
    } else {
      assert (x + y)[1..] == x[1..] + y;
      TilesThen(x[1..], y, x[0].bot, b, c);
    }
  }

  lemma {:induction false} BandsTile(ts: seq<Transition>, i: nat, transtop: int, height: nat)
    requires Listed(ts) && height > 0
    ensures Tiles(Bands(ts, i, transtop, height), Min(Max(transtop, 0), height), Min(Max(EndOf(ts, transtop, height), 0), height))
    ensures transtop < height || EndOf(ts, transtop, height) == transtop
    decreases |ts|
  {
    if ts != [] {
      var t, rest := ts[0], Bands(ts[1..], i + 1, Below(transtop, ts[0], height), height);
      assert Listed(ts[1..]);
      BandsTile(ts[1..], i + 1, Below(transtop, t, height), height);
      if Visible(transtop, t, height) {
        assert ([Span(t.view, Max(transtop, 0), Min(transtop + t.height, height), i)] + rest)[1..] == rest;
      } else {
        assert [] + rest == rest;
      }
    }
  }

  /** The spans tile the display from its first line to its last. */
  lemma DisplayTiled(ts: seq<Transition>, startY: int, height: nat)
    requires Placed(ts, startY, height) && height > 0
    ensures Tiles(Spans(ts, startY, height), 0, height)
  {
    var x, y, end := Leading(startY, height), Bands(ts, 0, startY, height), EndOf(ts, startY, height);
    BandsTile(ts, 0, startY, height);
    TilesThen(x, y, 0, Min(Max(startY, 0), height), Min(end, height));
    TilesThen(x + y, Trailing(end, height), 0, Min(end, height), height);
  }

  // ---- fields ----

  /** Lines of field f among lines 0 to n - 1. */
  function LinesBelow(n: nat, f: nat): nat
    requires f <= 1
  {
    (n + 1 - f) / 2
  }

  /** (high + !((top & 1) ^ field)) >> 1 for odd heights, high >> 1 for even ones. */
  function FieldLines(top: nat, bot: nat, f: nat): nat
    requires top <= bot && f <= 1
  {
    var high := bot - top;
    if high % 2 == 1 then (high + if top % 2 == f then 1 else 0) / 2 else high / 2
  }

  /** The first line of field f at or below top. */
  function FirstLine(top: nat, f: nat): nat
    requires f <= 1
  {
    if top % 2 == f then top else top + 1
  }

  /** The count is the number of the field's lines in the span, and the first of them is FirstLine. */
  lemma FieldLinesExact(top: nat, bot: nat, f: nat)
    requires top <= bot && f <= 1
    ensures FieldLines(top, bot, f) == LinesBelow(bot, f) - LinesBelow(top, f)
    ensures FirstLine(top, f) == 2 * LinesBelow(top, f) + f
    ensures FieldLines(top, bot, f) > 0 <==> FirstLine(top, f) < bot
  {
  }

  // ---- list entries ----

  datatype Link = To(at: nat) | EndField

  /** A display list entry: lines to show, address of the first, distance to the next, and whether DMA is on. */
  datatype Unit = Unit(lines: nat, addr: int, pitch: int, dma: bool, next: Link)

  /** gb_VRAMBase, which blanks point at with DMA off. */
  const VRAM_BASE: int := 0

  predicate Shows(v: Option<View>) { v.Some? && v.value.bitmap.Some? }

  /** The bitmap row a view shows on display line y of an interlaced display. */
  function RowOf(v: View, y: int): int
  {
    if v.lace then y - v.absTop + v.winTop else (y - v.absTop) / 2 + v.winTop
  }

  predicate Fit(v: Option<View>) { Shows(v) ==> v.value.pixXSize > 0 }

  predicate AllFit(ss: seq<Span>) { forall i :: 0 <= i < |ss| ==> Fit(ss[i].view) && ss[i].top < ss[i].bot }

  /** What cvu_16_32, cvu_16_32_lace or cvu_blank writes for a span that has lines in the field. */
  function UnitOf(s: Span, f: nat, next: Link): Unit
    requires f <= 1 && s.top < s.bot && Fit(s.view)
  {
    var n := FieldLines(s.top, s.bot, f);
    if !Shows(s.view) then Unit(n, VRAM_BASE, 0, false, next)
    else
      var v, b := s.view.value, s.view.value.bitmap.value;
      Unit(n, Wrap(PixelAddr(b, Left(v), RowOf(v, FirstLine(s.top, f)))), if v.lace then 2 * Pitch(b) else Pitch(b), true, next)
  }

  /** Spans that have lines in field f. */
  function InField(ss: seq<Span>, f: nat): (r: seq<Span>)
    requires f <= 1 && AllFit(ss)
    ensures AllFit(r) && forall i :: 0 <= i < |r| ==> FieldLines(r[i].top, r[i].bot, f) > 0
    ensures |r| <= |ss|
    decreases |ss|
  {
    if ss == [] then []
    else (if FieldLines(ss[0].top, ss[0].bot, f) > 0 then [ss[0]] else []) + InField(ss[1..], f)
  }

  /** The list of a field: one entry a span, each linked to the next, the last to the field terminator. */
  function Chain(ss: seq<Span>, f: nat, at: nat): (r: seq<Unit>)
    requires f <= 1 && AllFit(ss)
    ensures |r| == |ss|
    decreases |ss|
  {
    if ss == [] then []
    else [UnitOf(ss[0], f, if |ss| == 1 then EndField else To(at + 1))] + Chain(ss[1..], f, at + 1)
  }

  function FieldList(ts: seq<Transition>, startY: int, height: nat, f: nat): seq<Unit>
    requires f <= 1 && AllFit(Spans(ts, startY, height))
  {
    Chain(InField(Spans(ts, startY, height), f), f, 0)
  }

  // ---- what the hardware shows ----

  datatype Fetch = Pixels(addr: int) | Dark

  function LineOf(u: Unit, k: nat): Fetch
  {
    if u.dma then Pixels(Wrap(u.addr + k * u.pitch)) else Dark
  }

  /** Follows the links from entry at and shows the k-th line from there; nothing once the list has ended. */
  function ShownLine(us: seq<Unit>, at: nat, k: nat): Option<Fetch>
    decreases |us| - at
  {
    if at >= |us| then None
    else if k < us[at].lines then Some(LineOf(us[at], k))
    else
      match us[at].next
      case EndField => None
      case To(n) => if n > at then ShownLine(us, n, k - us[at].lines) else None
  }

  /** What display line y ought to show. */
  function Wanted(v: Option<View>, y: nat): Fetch
    requires Fit(v)
  {
    if Shows(v) then Pixels(Wrap(PixelAddr(v.value.bitmap.value, Left(v.value), RowOf(v.value, y)))) else Dark
  }

  /** The span that line y belongs to. */
  function SpanAt(ss: seq<Span>, y: nat): Option<Span>
    decreases |ss|
  {
    if ss == [] then None else if ss[0].top <= y < ss[0].bot then Some(ss[0]) else SpanAt(ss[1..], y)
  }

  // ---- lines, one by one ----

  lemma WrapAdd(x: int, y: int)
    ensures Wrap(Wrap(x) + y) == Wrap(x + y)
  {
    assert x == Wrap(x) + (x / WORD) * WORD;
    WrapCycles(Wrap(x) + y, x / WORD);
  }

  lemma {:induction false} WrapCycles(x: int, k: int)
    ensures Wrap(x + k * WORD) == Wrap(x)
    decreases if k >= 0 then k else -k
  {
    if k > 0 {
      WrapCycles(x + WORD, k - 1);
      assert x + k * WORD == x + WORD + (k - 1) * WORD;
    } else if k < 0 {
      WrapCycles(x - WORD, k + 1);
      assert x + k * WORD == x - WORD + (k + 1) * WORD;
    }
  }

  /** d rows further down is d pitches further on. */
  lemma RowsDown(b: Bitmap, x: int, y: int, d: int)
    ensures PixelAddr(b, x, y + d) == PixelAddr(b, x, y) + d * Pitch(b)
  {
    var w, s := b.width, b.size;
    assert (y + d) * w + x == (y * w + x) + d * w;
    Distribute(y * w + x, d * w, s);
    assert d * w * s == d * (w * s);
  }

  lemma Distribute(a: int, b: int, c: int)
    ensures (a + b) * c == a * c + b * c
  {
  }

  lemma Associate(k: int, a: int)
    ensures (2 * k) * a == k * (2 * a)
  {
  }

  /** The k-th line of an entry is what line top + 2k wants. */
  lemma UnitLine(s: Span, f: nat, next: Link, k: nat)
    requires f <= 1 && s.top < s.bot && Fit(s.view)
    ensures LineOf(UnitOf(s, f, next), k) == Wanted(s.view, FirstLine(s.top, f) + 2 * k)
  {
    if Shows(s.view) {
      var v, y := s.view.value, FirstLine(s.top, f);
      var b := v.bitmap.value;
      var d := if v.lace then 2 * k else k;
      assert RowOf(v, y + 2 * k) == RowOf(v, y) + d;
      RowsDown(b, Left(v), RowOf(v, y), d);
      Associate(k, Pitch(b));
      WrapAdd(PixelAddr(b, Left(v), RowOf(v, y)), k * (if v.lace then 2 * Pitch(b) else Pitch(b)));
    }
  }

  /** The k-th line of the field, reckoned from the spans. */
  function PickLine(ss: seq<Span>, f: nat, k: nat): Option<Fetch>
    requires f <= 1 && AllFit(ss)
    decreases |ss|
  {
    if ss == [] then None
    else
      var n := FieldLines(ss[0].top, ss[0].bot, f);
      if k < n then Some(LineOf(UnitOf(ss[0], f, EndField), k)) else PickLine(ss[1..], f, k - n)
  }

  lemma {:induction false} FollowChain(us: seq<Unit>, at: nat, ss: seq<Span>, f: nat, k: nat)
    requires f <= 1 && AllFit(ss) && at <= |us| && us[at..] == Chain(ss, f, at)
    ensures ShownLine(us, at, k) == PickLine(ss, f, k)
    decreases |ss|
  {
    hide UnitOf, FieldLines, LineOf;
    if ss != [] {
      var u := us[at];
      assert u == us[at..][0] == Chain(ss, f, at)[0];
      assert us[at + 1..] == us[at..][1..] == Chain(ss[1..], f, at + 1);
      UnitFacts(ss[0], f, if |ss| == 1 then EndField else To(at + 1), k);
      if k >= u.lines { FollowChain(us, at + 1, ss[1..], f, k - u.lines); }
    }
  }

  lemma UnitFacts(s: Span, f: nat, next: Link, k: nat)
    requires f <= 1 && s.top < s.bot && Fit(s.view)
    ensures var u := UnitOf(s, f, next);
            u.lines == FieldLines(s.top, s.bot, f) && u.next == next && LineOf(u, k) == LineOf(UnitOf(s, f, EndField), k)
  {
  }

  lemma {:induction false} PickInField(ss: seq<Span>, f: nat, k: nat)
    requires f <= 1 && AllFit(ss)
    ensures PickLine(InField(ss, f), f, k) == PickLine(ss, f, k)
    decreases |ss|
  {
    hide UnitOf, LineOf, FieldLines;
    if ss != [] {
      var n, rest := FieldLines(ss[0].top, ss[0].bot, f), InField(ss[1..], f);
      if n > 0 {
        assert ([ss[0]] + rest)[1..] == rest;
        if k >= n { PickInField(ss[1..], f, k - n); }
      } else {
        assert [] + rest == rest;
        PickInField(ss[1..], f, k);
      }
    }
  }

  /** In spans that tile lines a to b - 1, the k-th of their lines in the field is what that line wants. */
  lemma {:induction false} PickTiled(ss: seq<Span>, f: nat, a: nat, b: nat, k: nat)
    requires f <= 1 && AllFit(ss) && Tiles(ss, a, b)
    ensures a <= b
    ensures var y := FirstLine(a, f) + 2 * k;
            if y < b then SpanAt(ss, y).Some? && Fit(SpanAt(ss, y).value.view)
                          && PickLine(ss, f, k) == Some(Wanted(SpanAt(ss, y).value.view, y))
            else PickLine(ss, f, k) == None
    decreases |ss|
  {
    hide UnitOf, LineOf, Wanted;
    if ss != [] {
      var s := ss[0];
      var n := FieldLines(s.top, s.bot, f);
      FieldLinesExact(s.top, s.bot, f);
      FieldLinesExact(s.bot, s.bot, f);
      if k < n {
        UnitLine(s, f, EndField, k);
      } else {
        PickTiled(ss[1..], f, s.bot, b, k - n);
      }
      if ss[1..] != [] { PickTiled(ss[1..], f, s.bot, b, 0); }
    }
  }

  lemma {:induction false} BandsFit(ts: seq<Transition>, i: nat, transtop: int, height: nat)
    requires Listed(ts) && height > 0 && forall j :: 0 <= j < |ts| ==> Fit(ts[j].view)
    ensures AllFit(Bands(ts, i, transtop, height))
    decreases |ts|
  {
    if ts != [] { BandsFit(ts[1..], i + 1, Below(transtop, ts[0], height), height); }
  }

  lemma SpansFit(ts: seq<Transition>, startY: int, height: nat)
    requires Placed(ts, startY, height) && height > 0
    requires forall j :: 0 <= j < |ts| ==> Fit(ts[j].view)
    ensures AllFit(Spans(ts, startY, height))
  {
    BandsFit(ts, 0, startY, height);
  }

  /** Following the list of field f, its k-th line is display line 2k + f, and shows what the view that
      covers it wants there; after the display's last line the list has ended. */
  lemma FieldShown(ts: seq<Transition>, startY: int, height: nat, f: nat, k: nat)
    requires f <= 1 && Placed(ts, startY, height) && height > 0 && AllFit(Spans(ts, startY, height))
    ensures var ss, us, y := Spans(ts, startY, height), FieldList(ts, startY, height, f), 2 * k + f;
            if y < height then SpanAt(ss, y).Some? && Fit(SpanAt(ss, y).value.view)
                               && ShownLine(us, 0, k) == Some(Wanted(SpanAt(ss, y).value.view, y))
            else ShownLine(us, 0, k) == None
  {
    hide Spans, Tiles, InField, Chain, ShownLine, PickLine, Wanted, SpanAt;
    var ss := Spans(ts, startY, height);
    var us := FieldList(ts, startY, height, f);
    DisplayTiled(ts, startY, height);
    assert us[0..] == us;
    FollowChain(us, 0, InField(ss, f), f, k);
    PickInField(ss, f, k);
    PickTiled(ss, f, 0, height, k);
  }

  // ---- what is wanted, from the transitions and the view ----

  /** The height of the first j transitions. */
  function Heights(ts: seq<Transition>, j: nat): nat
    requires j <= |ts|
  {
    if j == 0 then 0 else ts[0].height + Heights(ts[1..], j - 1)
  }

  /** Transition j has display line y. */
  predicate Covers(ts: seq<Transition>, startY: int, j: nat, y: int)
    requires j < |ts|
  {
    startY + Heights(ts, j) <= y < startY + Heights(ts, j) + ts[j].height
  }

  /** The lowest line of the list's last transition, and one more. */
  function Bottom(ts: seq<Transition>, startY: int): int { startY + Heights(ts, |ts|) }

  lemma {:induction false} SpanAtTwo(x: seq<Span>, z: seq<Span>, y: nat)
    ensures SpanAt(x + z, y) == if SpanAt(x, y).Some? then SpanAt(x, y) else SpanAt(z, y)
    decreases |x|
  {
    if x == [] {
      assert x + z == z;
    } else {
      assert (x + z)[1..] == x[1..] + z;
      SpanAtTwo(x[1..], z, y);
    }
  }

  lemma {:induction false} BandsCovering(ts: seq<Transition>, i: nat, startY: int, height: nat, y: nat, j: nat)
    requires y < height && j < |ts| && Covers(ts, startY, j, y)
    ensures var s := SpanAt(Bands(ts, i, startY, height), y);
            s.Some? && s.value.view == ts[j].view && s.value.owner == i + j
    decreases |ts|
  {
    var rest := Bands(ts[1..], i + 1, Below(startY, ts[0], height), height);
    if j > 0 {
      BandsCovering(ts[1..], i + 1, Below(startY, ts[0], height), height, y, j - 1);
    }
    if Visible(startY, ts[0], height) {
      var s := Span(ts[0].view, Max(startY, 0), Min(startY + ts[0].height, height), i);
      assert ([s] + rest)[1..] == rest;
    } else {
      assert [] + rest == rest;
    }
  }

  /** Lines above the first transition and below the last are in no band. */
  lemma {:induction false} BandsOutside(ts: seq<Transition>, i: nat, startY: int, height: nat, y: nat)
    requires y < height && (y < startY || y >= Bottom(ts, startY))
    ensures SpanAt(Bands(ts, i, startY, height), y) == None
    ensures Min(Bottom(ts, startY), height) == Min(EndOf(ts, startY, height), height)
    decreases |ts|
  {
    if ts != [] {
      var rest := Bands(ts[1..], i + 1, Below(startY, ts[0], height), height);
      BandsOutside(ts[1..], i + 1, Below(startY, ts[0], height), height, y);
      if Visible(startY, ts[0], height) {
        var s := Span(ts[0].view, Max(startY, 0), Min(startY + ts[0].height, height), i);
        assert ([s] + rest)[1..] == rest;
      } else {
        assert [] + rest == rest;
      }
    }
  }

  /** A line a transition covers is in the span of that transition. */
  lemma SpanCovering(ts: seq<Transition>, startY: int, height: nat, y: nat, j: nat)
    requires Placed(ts, startY, height) && y < height && j < |ts| && Covers(ts, startY, j, y)
    ensures var s := SpanAt(Spans(ts, startY, height), y);
            s.Some? && s.value.view == ts[j].view && s.value.owner == j
  {
    var x, z, t := Leading(startY, height), Bands(ts, 0, startY, height), Trailing(EndOf(ts, startY, height), height);
    BandsCovering(ts, 0, startY, height, y, j);
    SpanAtTwo(x + z, t, y);
    SpanAtTwo(x, z, y);
  }

  /** A line no transition covers is in a filling blank. */
  lemma SpanOutside(ts: seq<Transition>, startY: int, height: nat, y: nat)
    requires Placed(ts, startY, height) && y < height && (y < startY || y >= Bottom(ts, startY))
    ensures var s := SpanAt(Spans(ts, startY, height), y); s.Some? && s.value.view == None
  {
    hide Bands;
    var x, z, t := Leading(startY, height), Bands(ts, 0, startY, height), Trailing(EndOf(ts, startY, height), height);
    BandsOutside(ts, 0, startY, height, y);
    SpanAtTwo(x + z, t, y);
    SpanAtTwo(x, z, y);
    if y >= startY { TrailingHas(EndOf(ts, startY, height), height, y); }
  }

  lemma TrailingHas(end: int, height: nat, y: nat)
    requires 0 <= end <= y < height
    ensures SpanAt(Trailing(end, height), y) == Some(Span(None, end, height, -1))
  {
  }

  /** The row of the bitmap a display line falls on: every line has its own in a view for interlaced bitmaps,
      lines 2m and 2m + 1 below the view's top share one in others. */
  predicate OnRow(v: View, y: int, row: int)
  {
    var down, r := y - v.absTop, row - v.winTop;
    if v.lace then r == down else 2 * r <= down <= 2 * r + 1
  }

  /** The column the left edge of the display falls on: a view that starts left of the display has that many
      whole pixels cut off. */
  predicate OnColumn(v: View, column: int)
    requires v.pixXSize > 0
  {
    var cut := column - v.winLeft;
    if v.leftEdge < 0 then cut * v.pixXSize <= -v.leftEdge < (cut + 1) * v.pixXSize else cut == 0
  }

  lemma LeftExact(v: View, column: int)
    requires v.pixXSize > 0
    ensures OnColumn(v, column) <==> column == Left(v)
  {
    var cut, p := column - v.winLeft, v.pixXSize;
    if v.leftEdge < 0 { QuotientExact(-v.leftEdge, p, cut); }
  }

  lemma QuotientExact(n: nat, p: nat, q: int)
    requires p > 0
    ensures q * p <= n < (q + 1) * p <==> q == n / p
  {
    var e := n / p;
    assert n == e * p + n % p;
    if q < e { Monotone(q + 1, e, p); }
    if q > e { Monotone(e + 1, q, p); }
  }

  lemma Monotone(a: int, b: int, p: nat)
    requires a <= b
    ensures a * p <= b * p
  {
  }

  /** What a line wants: the address of the bitmap's pixel in the view's row and column. */
  lemma WantedPixel(v: View, y: nat, row: int, column: int)
    requires Fit(Some(v)) && v.bitmap.Some? && OnRow(v, y, row) && OnColumn(v, column)
    ensures var b := v.bitmap.value;
            Wanted(Some(v), y) == Pixels((b.base + row * b.width * b.size + column * b.size) % WORD)
  {
    var b := v.bitmap.value;
    LeftExact(v, column);
    Distribute(row * b.width, column, b.size);
  }

  /** The k-th line the list of field f shows is that of the transition that covers display line 2k + f: the
      view's own row and column, nothing where it has no bitmap and where no transition is. */
  lemma LineShown(ts: seq<Transition>, startY: int, height: nat, f: nat, k: nat, j: nat, row: int, column: int)
    requires f <= 1 && Placed(ts, startY, height) && AllFit(Spans(ts, startY, height)) && 2 * k + f < height && j < |ts|
    ensures var shown, y := ShownLine(FieldList(ts, startY, height, f), 0, k), 2 * k + f;
            && (y < startY || y >= Bottom(ts, startY) ==> shown == Some(Dark))
            && (Covers(ts, startY, j, y) ==>
                  if !Shows(ts[j].view) then shown == Some(Dark)
                  else
                    var v, b := ts[j].view.value, ts[j].view.value.bitmap.value;
                    v.pixXSize > 0 &&
                    (OnRow(v, y, row) && OnColumn(v, column) ==>
                       shown == Some(Pixels((b.base + row * b.width * b.size + column * b.size) % WORD))))
  {
    hide Spans, SpanAt, FieldList, ShownLine, OnRow, OnColumn, Placed, AllFit;
    var y := 2 * k + f;
    FieldShown(ts, startY, height, f, k);
    if y < startY || y >= Bottom(ts, startY) { SpanOutside(ts, startY, height, y); }
    if Covers(ts, startY, j, y) {
      SpanCovering(ts, startY, height, y, j);
      if Shows(ts[j].view) {
        var v := ts[j].view.value;
        if OnRow(v, y, row) && OnColumn(v, column) { WantedPixel(v, y, row, column); }
      }
    }
  }

  /** A field has an entry exactly when it has a line: field 1 of a display one line high has none. */
  lemma FieldNotEmpty(ts: seq<Transition>, startY: int, height: nat, f: nat)
    requires f <= 1 && Placed(ts, startY, height) && height > 0 && AllFit(Spans(ts, startY, height))
    ensures FieldList(ts, startY, height, f) != [] <==> f < height
  {
    var ss := Spans(ts, startY, height);
    DisplayTiled(ts, startY, height);
    PickInField(ss, f, 0);
    PickTiled(ss, f, 0, height, 0);
    if InField(ss, f) != [] { PickFirst(InField(ss, f), f); }
  }

  lemma PickFirst(ss: seq<Span>, f: nat)
    requires f <= 1 && AllFit(ss) && ss != [] && FieldLines(ss[0].top, ss[0].bot, f) > 0
    ensures PickLine(ss, f, 0).Some?
  {
  }

  /** The two fields between them have every line of the display: line y is line y / 2 of field y % 2,
      and no other line of either. */
  lemma FieldsPartition(height: nat, f: nat, k: nat)
    requires f <= 1
    ensures k < LinesBelow(height, f) <==> 2 * k + f < height
    ensures (2 * k + f) / 2 == k && (2 * k + f) % 2 == f
    ensures LinesBelow(height, 0) + LinesBelow(height, 1) == height
  {
  }
}
