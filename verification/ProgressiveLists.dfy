/** Display lists of a display with one field a frame. */
module ProgressiveLists {
  import opened Options
  import opened DisplayLists

  /** cvu_16_32_lace does not ask how many fields there are: it emits the lines of field 0. One-field projectors
      offer no view type that compiles with it. */
  predicate Laced(s: Span) { Shows(s.view) && s.view.value.lace }

  /** Lines of the entry of a span. */
  function Lines(s: Span): nat
    requires s.top < s.bot
  {
    if Laced(s) then FieldLines(s.top, s.bot, 0) else s.bot - s.top
  }

  /** The row a view ought to show on display line y: no line is left out. */
  function FullRow(v: View, y: int): int { y - v.absTop + v.winTop }

  /** What the compile routines write for a span. */
  function FullUnit(s: Span, next: Link): Unit
    requires s.top < s.bot && Fit(s.view)
  {
    if !Shows(s.view) then Unit(s.bot - s.top, VRAM_BASE, 0, false, next)
    else if s.view.value.lace then UnitOf(s, 0, next)
    else
      var v, b := s.view.value, s.view.value.bitmap.value;
      Unit(s.bot - s.top, Wrap(PixelAddr(b, Left(v), FullRow(v, s.top))), Pitch(b), true, next)
  }

  /** Spans that get an entry. */
  function Entered(ss: seq<Span>): (r: seq<Span>)
    requires AllFit(ss)
    ensures AllFit(r) && |r| <= |ss|
    decreases |ss|
  {
    if ss == [] then [] else (if Lines(ss[0]) > 0 then [ss[0]] else []) + Entered(ss[1..])
  }

  function FullChain(ss: seq<Span>, at: nat): (r: seq<Unit>)
    requires AllFit(ss)
    ensures |r| == |ss|
    decreases |ss|
  {
    if ss == [] then [] else [FullUnit(ss[0], if |ss| == 1 then EndField else To(at + 1))] + FullChain(ss[1..], at + 1)
  }

  function FullList(ts: seq<Transition>, startY: int, height: nat): seq<Unit>
    requires AllFit(Spans(ts, startY, height))
  {
    FullChain(Entered(Spans(ts, startY, height)), 0)
  }

  function FullWanted(v: Option<View>, y: nat): Fetch
    requires Fit(v)
  {
    if Shows(v) then Pixels(Wrap(PixelAddr(v.value.bitmap.value, Left(v.value), FullRow(v.value, y)))) else Dark
  }

  // ---- line by line ----

  /** The k-th line, reckoned from the spans. */
  function Pick(ss: seq<Span>, k: nat): Option<Fetch>
    requires AllFit(ss)
    decreases |ss|
  {
    if ss == [] then None
    else if k < Lines(ss[0]) then Some(LineOf(FullUnit(ss[0], EndField), k))
    else Pick(ss[1..], k - Lines(ss[0]))
  }

  lemma FullFacts(s: Span, next: Link, k: nat)
    requires s.top < s.bot && Fit(s.view)
    ensures var u := FullUnit(s, next);
            u.lines == Lines(s) && u.next == next && LineOf(u, k) == LineOf(FullUnit(s, EndField), k)
  {
  }

  lemma {:induction false} Followed(us: seq<Unit>, at: nat, ss: seq<Span>, k: nat)
    requires AllFit(ss) && at <= |us| && us[at..] == FullChain(ss, at)
    ensures ShownLine(us, at, k) == Pick(ss, k)
    decreases |ss|
  {
    hide FullUnit, Lines, LineOf;
    if ss != [] {
      assert us[at] == us[at..][0] == FullChain(ss, at)[0];
      assert us[at + 1..] == us[at..][1..] == FullChain(ss[1..], at + 1);
      FullFacts(ss[0], if |ss| == 1 then EndField else To(at + 1), k);
      if k >= us[at].lines { Followed(us, at + 1, ss[1..], k - us[at].lines); }
    }
  }

  lemma {:induction false} PickEntered(ss: seq<Span>, k: nat)
    requires AllFit(ss)
    ensures Pick(Entered(ss), k) == Pick(ss, k)
    decreases |ss|
  {
    hide FullUnit, LineOf, Lines;
    if ss != [] {
      var n, rest := Lines(ss[0]), Entered(ss[1..]);
      if n > 0 {
        assert ([ss[0]] + rest)[1..] == rest;
        if k >= n { PickEntered(ss[1..], k - n); }
      } else {
        assert [] + rest == rest;
        PickEntered(ss[1..], k);
      }
    }
  }

  lemma ListPicks(ts: seq<Transition>, startY: int, height: nat, k: nat)
    requires AllFit(Spans(ts, startY, height))
    ensures ShownLine(FullList(ts, startY, height), 0, k) == Pick(Spans(ts, startY, height), k)
  {
    hide Spans, ShownLine, Pick, Entered, FullChain;
    var ss := Spans(ts, startY, height);
    var us := FullList(ts, startY, height);
    assert us[0..] == us;
    Followed(us, 0, Entered(ss), k);
    PickEntered(ss, k);
  }

  /** A lace view keeps to the display only in a band of one line of even number. */
  predicate Keeps(s: Span) { Laced(s) ==> s.bot - s.top == 1 && s.top % 2 == 0 }

  predicate AllKeep(ss: seq<Span>) { forall j :: 0 <= j < |ss| ==> Keeps(ss[j]) }

  lemma FullLine(s: Span, k: nat)
    requires s.top < s.bot && Fit(s.view) && Keeps(s) && k < Lines(s)
    ensures LineOf(FullUnit(s, EndField), k) == FullWanted(s.view, s.top + k)
  {
    if Shows(s.view) {
      var v := s.view.value;
      var b := v.bitmap.value;
      if v.lace {
        UnitLine(s, 0, EndField, k);
      } else {
        RowsDown(b, Left(v), FullRow(v, s.top), k);
        WrapAdd(PixelAddr(b, Left(v), FullRow(v, s.top)), k * Pitch(b));
      }
    }
  }

  lemma KeepsLines(s: Span)
    requires s.top < s.bot
    ensures Lines(s) <= s.bot - s.top && (Lines(s) == s.bot - s.top <==> Keeps(s))
  {
  }

  /** Where every lace view keeps to the display, the k-th line is what line a + k wants. */
  lemma {:induction false} PickKept(ss: seq<Span>, a: nat, b: nat, k: nat)
    requires AllFit(ss) && Tiles(ss, a, b) && AllKeep(ss)
    ensures a <= b
    ensures if a + k < b then SpanAt(ss, a + k).Some? && Fit(SpanAt(ss, a + k).value.view)
                              && Pick(ss, k) == Some(FullWanted(SpanAt(ss, a + k).value.view, a + k))
            else Pick(ss, k) == None
    decreases |ss|
  {
    hide FullUnit, LineOf, FullWanted, Lines, Laced;
    if ss != [] {
      var s := ss[0];
      KeepsLines(s);
      PickKept(ss[1..], s.bot, b, if k < Lines(s) then 0 else k - Lines(s));
      if k < Lines(s) { FullLine(s, k); }
    }
  }

  /** Otherwise the list is too short for the display. */
  lemma {:induction false} PickShort(ss: seq<Span>, a: nat, b: nat, k: nat)
    requires AllFit(ss) && Tiles(ss, a, b) && a + k >= b - (if AllKeep(ss) then 0 else 1)
    ensures a <= b && Pick(ss, k) == None
    decreases |ss|
  {
    hide FullUnit, LineOf, Lines, Laced, Keeps;
    if ss != [] {
      var s := ss[0];
      KeepsLines(s);
      TilesDown(ss[1..], s.bot, b);
      assert AllKeep(ss) <==> Keeps(s) && AllKeep(ss[1..]) by {
        assert forall j :: 1 <= j < |ss| ==> ss[j] == ss[1..][j - 1];
        assert forall j :: 0 <= j < |ss| - 1 ==> ss[1..][j] == ss[j + 1];
      }
      PickShort(ss[1..], s.bot, b, k - Lines(s));
    }
  }

  lemma {:induction false} TilesDown(ss: seq<Span>, a: int, b: int)
    requires Tiles(ss, a, b)
    ensures a <= b && (ss != [] ==> a < b)
    decreases |ss|
  {
    if ss != [] { TilesDown(ss[1..], ss[0].bot, b); }
  }

  /** On a display with one field a frame, the list shows on every line what the view there wants exactly when no lace
      view covers more than one line, or one of odd number. */
  lemma ProgressiveShown(ts: seq<Transition>, startY: int, height: nat)
    requires Placed(ts, startY, height) && height > 0 && AllFit(Spans(ts, startY, height))
    ensures var ss, us := Spans(ts, startY, height), FullList(ts, startY, height);
            && (AllKeep(ss) ==> forall k: nat :: ShownAsWanted(ss, us, height, k))
            && (!AllKeep(ss) ==> ShownLine(us, 0, height - 1) == None)
  {
    hide Spans, Tiles, FullList, ShownLine, Pick, FullWanted, SpanAt, AllKeep;
    var ss, us := Spans(ts, startY, height), FullList(ts, startY, height);
    DisplayTiled(ts, startY, height);
    if AllKeep(ss) {
      forall k: nat
        ensures ShownAsWanted(ss, us, height, k)
      {
        ListPicks(ts, startY, height, k);
        PickKept(ss, 0, height, k);
      }
    } else {
      ListPicks(ts, startY, height, height - 1);
      PickShort(ss, 0, height, height - 1);
    }
  }

  predicate ShownAsWanted(ss: seq<Span>, us: seq<Unit>, height: nat, k: nat)
  {
    if k < height then
      SpanAt(ss, k).Some? && Fit(SpanAt(ss, k).value.view) && ShownLine(us, 0, k) == Some(FullWanted(SpanAt(ss, k).value.view, k))
    else ShownLine(us, 0, k) == None
  }
}
