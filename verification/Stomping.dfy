/** Patching a display list in place when only the address of a bitmap has changed. */
module Stomping {
  import opened Options
  import opened DisplayLists

  // ---- a bitmap that moves ----

  function MovedView(v: Option<View>, id: int, delta: int): Option<View>
  {
    if Shows(v) && v.value.id == id then
      Some(v.value.(bitmap := Some(v.value.bitmap.value.(base := v.value.bitmap.value.base + delta))))
    else v
  }

  function Moved(ts: seq<Transition>, id: int, delta: int): (r: seq<Transition>)
    ensures |r| == |ts| && forall i :: 0 <= i < |r| ==> r[i] == ts[i].(view := MovedView(ts[i].view, id, delta))
    decreases |ts|
  {
    if ts == [] then [] else [ts[0].(view := MovedView(ts[0].view, id, delta))] + Moved(ts[1..], id, delta)
  }

  function MovedSpans(ss: seq<Span>, id: int, delta: int): (r: seq<Span>)
    ensures |r| == |ss| && forall i :: 0 <= i < |r| ==> r[i] == ss[i].(view := MovedView(ss[i].view, id, delta))
    decreases |ss|
  {
    if ss == [] then [] else [ss[0].(view := MovedView(ss[0].view, id, delta))] + MovedSpans(ss[1..], id, delta)
  }

  lemma {:induction false} BandsMoved(ts: seq<Transition>, i: nat, transtop: int, height: nat, id: int, delta: int)
    ensures Bands(Moved(ts, id, delta), i, transtop, height) == MovedSpans(Bands(ts, i, transtop, height), id, delta)
    ensures EndOf(Moved(ts, id, delta), transtop, height) == EndOf(ts, transtop, height)
    decreases |ts|
  {
    if ts != [] {
      assert Moved(ts, id, delta)[1..] == Moved(ts[1..], id, delta);
      BandsMoved(ts[1..], i + 1, Below(transtop, ts[0], height), height, id, delta);
    }
  }

  lemma SpansMoved(ts: seq<Transition>, startY: int, height: nat, id: int, delta: int)
    ensures Spans(Moved(ts, id, delta), startY, height) == MovedSpans(Spans(ts, startY, height), id, delta)
  {
    BandsMoved(ts, 0, startY, height, id, delta);
  }

  lemma {:induction false} InFieldMoved(ss: seq<Span>, f: nat, id: int, delta: int)
    requires f <= 1 && AllFit(ss)
    ensures AllFit(MovedSpans(ss, id, delta))
    ensures InField(MovedSpans(ss, id, delta), f) == MovedSpans(InField(ss, f), id, delta)
    decreases |ss|
  {
    if ss != [] {
      assert MovedSpans(ss, id, delta)[1..] == MovedSpans(ss[1..], id, delta);
      InFieldMoved(ss[1..], f, id, delta);
    }
  }

  lemma {:induction false} ChainAt(ss: seq<Span>, f: nat, at: nat, j: nat)
    requires f <= 1 && AllFit(ss) && j < |ss|
    ensures Chain(ss, f, at)[j] == UnitOf(ss[j], f, if j == |ss| - 1 then EndField else To(at + j + 1))
    decreases |ss|
  {
    hide UnitOf;
    if j > 0 { ChainAt(ss[1..], f, at + 1, j - 1); }
  }

  // ---- stomplists ----

  /** transtop stays at StartY, so this is the test every transition has to pass. */
  predicate Reached(t: Transition, startY: int, height: nat) { Visible(startY, t, height) }

  /** The entry belongs to the view, and stomplists comes to its transition. */
  predicate Patches(s: Span, ts: seq<Transition>, startY: int, height: nat, id: int)
  {
    0 <= s.owner < |ts| && s.view.Some? && s.view.value.id == id && Reached(ts[s.owner], startY, height)
  }

  /** LowerPtr and UpperPtr moved as 32-bit words. */
  function Shifted(u: Unit, delta: int): Unit { u.(addr := Wrap(u.addr + delta)) }

  /** The list of a field after stomplists. */
  function PatchedList(ts: seq<Transition>, startY: int, height: nat, f: nat, id: int, delta: int): (r: seq<Unit>)
    requires f <= 1 && AllFit(Spans(ts, startY, height))
  {
    var ss, us := InField(Spans(ts, startY, height), f), FieldList(ts, startY, height, f);
    seq(|us|, j requires 0 <= j < |us| => if Patches(ss[j], ts, startY, height, id) then Shifted(us[j], delta) else us[j])
  }

  /** Every band of the view shows the same view, and that has a bitmap. */
  predicate OneView(ts: seq<Transition>, id: int)
  {
    forall i :: 0 <= i < |ts| && ts[i].view.Some? && ts[i].view.value.id == id ==> Shows(ts[i].view)
  }

  lemma {:induction false} BandsOwned(ts: seq<Transition>, i: nat, transtop: int, height: nat, j: nat)
    requires j < |Bands(ts, i, transtop, height)|
    ensures var s := Bands(ts, i, transtop, height)[j]; i <= s.owner < i + |ts| && s.view == ts[s.owner - i].view
    decreases |ts|
  {
    var here := Visible(transtop, ts[0], height);
    if !here || j > 0 { BandsOwned(ts[1..], i + 1, Below(transtop, ts[0], height), height, if here then j - 1 else j); }
  }

  /** A span is a band of the transition it names, or a blank. */
  predicate Owned(s: Span, ts: seq<Transition>)
  {
    if s.owner < 0 then s.view == None else s.owner < |ts| && s.view == ts[s.owner].view
  }

  lemma SpansOwned(ts: seq<Transition>, startY: int, height: nat)
    ensures forall j :: 0 <= j < |Spans(ts, startY, height)| ==> Owned(Spans(ts, startY, height)[j], ts)
  {
    var bs := Bands(ts, 0, startY, height);
    forall j | 0 <= j < |bs|
      ensures Owned(bs[j], ts)
    {
      BandsOwned(ts, 0, startY, height, j);
    }
  }

  lemma {:induction false} InFieldOwned(ss: seq<Span>, f: nat, ts: seq<Transition>)
    requires f <= 1 && AllFit(ss) && forall j :: 0 <= j < |ss| ==> Owned(ss[j], ts)
    ensures forall j :: 0 <= j < |InField(ss, f)| ==> Owned(InField(ss, f)[j], ts)
    decreases |ss|
  {
    if ss != [] { InFieldOwned(ss[1..], f, ts); }
  }

  lemma UnitMoved(s: Span, f: nat, next: Link, id: int, delta: int)
    requires f <= 1 && s.top < s.bot && Fit(s.view)
    ensures Fit(MovedView(s.view, id, delta))
    ensures var u, u1 := UnitOf(s, f, next), UnitOf(s.(view := MovedView(s.view, id, delta)), f, next);
            if Shows(s.view) && s.view.value.id == id then u1 == Shifted(u, delta) else u1 == u
  {
    if Shows(s.view) && s.view.value.id == id {
      var v := s.view.value;
      var b := v.bitmap.value;
      WrapAdd(PixelAddr(b, Left(v), RowOf(v, FirstLine(s.top, f))), delta);
    }
  }

  /** Moving an address by a multiple of 2^32 is the only move that does not show. */
  lemma ShiftShows(u: Unit, delta: int)
    requires 0 <= u.addr < WORD
    ensures Shifted(u, delta) == u <==> Wrap(delta) == 0
  {
  }

  /** The entries of the view whose transitions stomplists passes over. */
  predicate Missed(s: Span, ts: seq<Transition>, startY: int, height: nat, id: int)
  {
    Shows(s.view) && s.view.value.id == id && !Patches(s, ts, startY, height, id)
  }

  /** Entry by entry: the patched list is the recompiled one except where a transition was passed over. */
  lemma EntryPatched(ts: seq<Transition>, startY: int, height: nat, f: nat, id: int, delta: int, j: nat)
    requires f <= 1 && AllFit(Spans(ts, startY, height)) && OneView(ts, id)
    requires AllFit(Spans(Moved(ts, id, delta), startY, height))
    requires j < |InField(Spans(ts, startY, height), f)| == |FieldList(Moved(ts, id, delta), startY, height, f)|
    ensures PatchedList(ts, startY, height, f, id, delta)[j] == FieldList(Moved(ts, id, delta), startY, height, f)[j] <==>
            !Missed(InField(Spans(ts, startY, height), f)[j], ts, startY, height, id) || Wrap(delta) == 0
  {
    hide Spans, InField, UnitOf, Chain, Moved;
    var ss := Spans(ts, startY, height);
    var s := InField(ss, f)[j];
    var next := if j == |InField(ss, f)| - 1 then EndField else To(j + 1);
    SpansMoved(ts, startY, height, id, delta);
    InFieldMoved(ss, f, id, delta);
    ChainAt(InField(ss, f), f, 0, j);
    ChainAt(InField(MovedSpans(ss, id, delta), f), f, 0, j);
    UnitMoved(s, f, next, id, delta);
    UnitAddr(s, f, next);
    ShiftShows(UnitOf(s, f, next), delta);
    SpansOwned(ts, startY, height);
    InFieldOwned(ss, f, ts);
    assert Owned(s, ts);
  }

  lemma UnitAddr(s: Span, f: nat, next: Link)
    requires f <= 1 && s.top < s.bot && Fit(s.view)
    ensures 0 <= UnitOf(s, f, next).addr < WORD
  {
  }

  lemma MovedLength(ts: seq<Transition>, startY: int, height: nat, f: nat, id: int, delta: int)
    requires f <= 1 && AllFit(Spans(ts, startY, height))
    ensures AllFit(Spans(Moved(ts, id, delta), startY, height))
    ensures |InField(Spans(ts, startY, height), f)| == |FieldList(Moved(ts, id, delta), startY, height, f)|
  {
    SpansMoved(ts, startY, height, id, delta);
    InFieldMoved(Spans(ts, startY, height), f, id, delta);
  }

  /** Patching is recompiling exactly when no entry of the view is passed over, or the address has not
      really moved. */
  lemma PatchExact(ts: seq<Transition>, startY: int, height: nat, f: nat, id: int, delta: int)
    requires f <= 1 && AllFit(Spans(ts, startY, height)) && OneView(ts, id)
    ensures AllFit(Spans(Moved(ts, id, delta), startY, height))
    ensures var ss := InField(Spans(ts, startY, height), f);
            PatchedList(ts, startY, height, f, id, delta) == FieldList(Moved(ts, id, delta), startY, height, f) <==>
            (Wrap(delta) == 0 || forall j :: 0 <= j < |ss| ==> !Missed(ss[j], ts, startY, height, id))
  {
    hide Spans, InField, FieldList, Moved, Missed;
    var ss := InField(Spans(ts, startY, height), f);
    MovedLength(ts, startY, height, f, id, delta);
    var x, y := PatchedList(ts, startY, height, f, id, delta), FieldList(Moved(ts, id, delta), startY, height, f);
    FieldLength(ts, startY, height, f);
    forall j | 0 <= j < |ss|
      ensures x[j] == y[j] <==> !Missed(ss[j], ts, startY, height, id) || Wrap(delta) == 0
    {
      EntryPatched(ts, startY, height, f, id, delta, j);
    }
    assert x == y <==> forall j :: 0 <= j < |ss| ==> x[j] == y[j];
  }

  lemma FieldLength(ts: seq<Transition>, startY: int, height: nat, f: nat)
    requires f <= 1 && AllFit(Spans(ts, startY, height))
    ensures |FieldList(ts, startY, height, f)| == |InField(Spans(ts, startY, height), f)|
  {
  }

  /** With the list starting on the display, patching in place is recompiling. */
  lemma PatchIsRecompile(ts: seq<Transition>, startY: int, height: nat, f: nat, id: int, delta: int)
    requires f <= 1 && AllFit(Spans(ts, startY, height)) && OneView(ts, id) && Listed(ts) && 0 <= startY < height
    ensures AllFit(Spans(Moved(ts, id, delta), startY, height))
    ensures PatchedList(ts, startY, height, f, id, delta) == FieldList(Moved(ts, id, delta), startY, height, f)
  {
    PatchExact(ts, startY, height, f, id, delta);
    SpansOwned(ts, startY, height);
    InFieldOwned(Spans(ts, startY, height), f, ts);
  }

  /** Above the display it is not: ten lines out of sight, then a view of eight that is shown and never patched. */
  lemma PatchCanMiss(v: View)
    requires v.bitmap.Some? && v.pixXSize > 0
    ensures var ts := [Transition(None, 10), Transition(Some(v), 8)];
            && AllFit(Spans(ts, -10, 8)) && OneView(ts, v.id) && AllFit(Spans(Moved(ts, v.id, 4), -10, 8))
            && PatchedList(ts, -10, 8, 0, v.id, 4) != FieldList(Moved(ts, v.id, 4), -10, 8, 0)
  {
    var ts := [Transition(None, 10), Transition(Some(v), 8)];
    assert ts[1..] == [Transition(Some(v), 8)] && ts[1..][1..] == [];
    var s := Span(Some(v), 0, 8, 1);
    assert Bands(ts[1..][1..], 2, 8, 8) == [];
    assert Bands(ts[1..], 1, 0, 8) == [s];
    assert Bands(ts, 0, -10, 8) == [s];
    assert EndOf(ts[1..][1..], 8, 8) == 8 && EndOf(ts[1..], 0, 8) == 8 && EndOf(ts, -10, 8) == 8;
    assert Spans(ts, -10, 8) == [s];
    assert [s][1..] == [] && InField([s], 0) == [s];
    PatchExact(ts, -10, 8, 0, v.id, 4);
    assert Missed(InField(Spans(ts, -10, 8), 0)[0], ts, -10, 8, v.id);
  }
}
