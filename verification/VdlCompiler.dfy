/** PTState: transitions compiled in place into a field's display list, and patched there. */
module VdlCompiler {
  import opened Options
  import opened DisplayLists
  import opened Stomping

  // ---- lists under construction ----

  /** Entries linked to the place after them, as they stand before the last is patched to the field terminator. */
  function Open(ss: seq<Span>, f: nat): (r: seq<Unit>)
    requires f <= 1 && AllFit(ss)
    ensures |r| == |ss|
  {
    seq(|ss|, j requires 0 <= j < |ss| => UnitOf(ss[j], f, To(j + 1)))
  }

  lemma OpenClosed(ss: seq<Span>, f: nat)
    requires f <= 1 && AllFit(ss) && ss != []
    ensures var us := Open(ss, f); us[|us| - 1 := us[|us| - 1].(next := EndField)] == Chain(ss, f, 0)
  {
    hide UnitOf;
    var us := Open(ss, f);
    forall j | 0 <= j < |ss|
      ensures us[|us| - 1 := us[|us| - 1].(next := EndField)][j] == Chain(ss, f, 0)[j]
    {
      ChainAt(ss, f, 0, j);
      NextOnly(ss[j], f, To(j + 1));
    }
  }

  lemma NextOnly(s: Span, f: nat, next: Link)
    requires f <= 1 && s.top < s.bot && Fit(s.view)
    ensures UnitOf(s, f, next).(next := EndField) == UnitOf(s, f, EndField)
  {
  }

  lemma FitMore(ss: seq<Span>, s: Span)
    requires AllFit(ss) && Fit(s.view) && s.top < s.bot
    ensures AllFit(ss + [s])
  {
  }

  lemma {:induction false} InFieldMore(ss: seq<Span>, s: Span, f: nat)
    requires f <= 1 && AllFit(ss) && Fit(s.view) && s.top < s.bot
    ensures AllFit(ss + [s]) && InField(ss + [s], f) == InField(ss, f) + if FieldLines(s.top, s.bot, f) > 0 then [s] else []
    decreases |ss|
  {
    hide FieldLines, Fit;
    FitMore(ss, s);
    if ss == [] {
      assert [] + [s] == [s] && [s][1..] == [];
    } else {
      assert (ss + [s])[1..] == ss[1..] + [s] && (ss + [s])[0] == ss[0];
      InFieldMore(ss[1..], s, f);
      var last := if FieldLines(s.top, s.bot, f) > 0 then [s] else [];
      var first := if FieldLines(ss[0].top, ss[0].bot, f) > 0 then [ss[0]] else [];
      assert first + InField(ss[1..], f) + last == first + (InField(ss[1..], f) + last);
    }
  }

  /** Every transition's mark is the place of its entry, or -1; those without a picture may keep an old mark. */
  ghost predicate Marked(ft: seq<int>, fs: seq<Span>, ts: seq<Transition>, n: nat)
    requires |ft| == |ts| && n <= |ts|
  {
    && (forall j :: 0 <= j < |fs| && fs[j].owner >= 0 ==> fs[j].owner < n && ft[fs[j].owner] == j)
    && (forall i :: 0 <= i < n && Shows(ts[i].view) ==>
          ft[i] == -1 || (0 <= ft[i] < |fs| && fs[ft[i]].owner == i))
  }

  /** A buffer and marks that hold what the spans ss and the first n transitions make of field f. */
  ghost predicate Holds(us: seq<Unit>, ft: seq<int>, ss: seq<Span>, f: nat, ts: seq<Transition>, n: nat)
    requires f <= 1
  {
    && AllFit(ss) && n <= |ts| == |ft| && |InField(ss, f)| <= |us|
    && us[..|InField(ss, f)|] == Open(InField(ss, f), f)
    && Marked(ft, InField(ss, f), ts, n)
  }

  /** The span's transition is the next one, or it is a filling blank. */
  predicate InTurn(s: Span, ts: seq<Transition>, n: nat)
  {
    s.top < s.bot && Fit(s.view) && (s.owner == -1 || (s.owner == n < |ts| && s.view == ts[n].view))
  }

  function After(s: Span, n: nat): nat { if s.owner == -1 then n else n + 1 }

  /** One more entry. */
  lemma EntryHolds(us: seq<Unit>, ft: seq<int>, ss: seq<Span>, f: nat, ts: seq<Transition>, n: nat, s: Span)
    requires f <= 1 && Holds(us, ft, ss, f, ts, n) && InTurn(s, ts, n) && FieldLines(s.top, s.bot, f) > 0
    requires |InField(ss, f)| < |us|
    ensures var k := |InField(ss, f)|;
            Holds(us[k := UnitOf(s, f, To(k + 1))], if s.owner == -1 then ft else ft[n := k], ss + [s], f, ts, After(s, n))
  {
    hide UnitOf, FieldLines, InField;
    InFieldMore(ss, s, f);
    var fs := InField(ss, f);
    var us1 := us[|fs| := UnitOf(s, f, To(|fs| + 1))];
    assert us1[..|fs| + 1] == us[..|fs|] + [UnitOf(s, f, To(|fs| + 1))];
    assert Open(fs + [s], f) == Open(fs, f) + [UnitOf(s, f, To(|fs| + 1))];
    MarkedMore(ft, fs, ts, n, s);
  }

  lemma MarkedMore(ft: seq<int>, fs: seq<Span>, ts: seq<Transition>, n: nat, s: Span)
    requires |ft| == |ts| && n <= |ts| && Marked(ft, fs, ts, n) && InTurn(s, ts, n)
    ensures Marked(if s.owner == -1 then ft else ft[n := |fs|], fs + [s], ts, After(s, n))
  {
  }

  /** A span without a line in the field. */
  lemma SkippedHolds(us: seq<Unit>, ft: seq<int>, ss: seq<Span>, f: nat, ts: seq<Transition>, n: nat, s: Span)
    requires f <= 1 && Holds(us, ft, ss, f, ts, n) && InTurn(s, ts, n) && FieldLines(s.top, s.bot, f) == 0
    ensures Holds(us, if s.owner >= 0 && Shows(s.view) then ft[n := -1] else ft, ss + [s], f, ts, After(s, n))
  {
    InFieldMore(ss, s, f);
    assert InField(ss, f) + [] == InField(ss, f);
  }

  lemma LinkOnly(s: Span, f: nat, u: Unit, was: Link, next: Link)
    requires f <= 1 && s.top < s.bot && Fit(s.view) && u == UnitOf(s, f, was)
    ensures u.(next := next) == UnitOf(s, f, next)
  {
  }

  /** The spans still to come at transition i. */
  function Rest(ts: seq<Transition>, i: nat, transtop: int, height: nat): seq<Span>
    requires i <= |ts|
  {
    Bands(ts[i..], i, transtop, height) + Trailing(EndOf(ts[i..], transtop, height), height)
  }

  lemma FirstRest(ts: seq<Transition>, startY: int, height: nat)
    ensures ts[0..] == ts && Spans(ts, startY, height) == Leading(startY, height) + Rest(ts, 0, startY, height)
  {
  }

  lemma LastRest(ts: seq<Transition>, transtop: int, height: nat)
    ensures ts[|ts|..] == [] && Rest(ts, |ts|, transtop, height) == Trailing(transtop, height)
  {
  }

  lemma RestStep(ts: seq<Transition>, i: nat, transtop: int, height: nat, ss: seq<Span>, all: seq<Span>)
    requires i < |ts| && ss + Rest(ts, i, transtop, height) == all && AllFit(all)
    ensures var t := ts[i];
            var here := if Visible(transtop, t, height) then
              [Span(t.view, Max(transtop, 0), Min(transtop + t.height, height), i)] else [];
            && (ss + here) + Rest(ts, i + 1, Below(transtop, t, height), height) == all
            && EndOf(ts[i + 1..], Below(transtop, t, height), height) == EndOf(ts[i..], transtop, height)
            && AllFit(here) && |ss + here| <= |all|
  {
    assert ts[i..][1..] == ts[i + 1..];
    var here := if Visible(transtop, ts[i], height) then
      [Span(ts[i].view, Max(transtop, 0), Min(transtop + ts[i].height, height), i)] else [];
    assert Rest(ts, i, transtop, height) == here + Rest(ts, i + 1, Below(transtop, ts[i], height), height);
    assert forall j :: 0 <= j < |here| ==> here[j] == all[|ss| + j];
  }

  class VdlBuilder {
    const ts: seq<Transition>
    const height: nat
    const buffer: array<Unit>
    const ft: array<int>   // t_FT[field].ft_VDL of every transition, -1 for NULL
    var field: int         // pts_Field; -1 asks for sizes only
    var vdl: nat           // pts_VDL, as a place in the buffer
    var nextVdl: nat       // pts_NextVDL
    var prevVdl: int       // pts_PrevVDL, -1 for NULL

    /** The spans ss and the first n transitions are done; when sizing they have only been counted. */
    ghost predicate Building(ss: seq<Span>, n: nat)
      reads this, buffer, ft
    {
      && -1 <= field <= 1 && vdl == nextVdl && prevVdl == vdl - 1 && n <= |ts| == ft.Length && AllFit(ss)
      && if field < 0 then vdl == |ss|
         else Holds(buffer[..], ft[..], ss, field, ts, n) && vdl == |InField(ss, field)|
    }

    /** The field's list has been built, and the transitions marked. */
    ghost predicate Compiled(f: nat, startY: int)
      reads this, buffer, ft
      requires f <= 1
    {
      && AllFit(Spans(ts, startY, height)) && vdl <= buffer.Length && ft.Length == |ts|
      && buffer[..vdl] == FieldList(ts, startY, height, f)
      && Marked(ft[..], InField(Spans(ts, startY, height), f), ts, |ts|)
    }

    lemma CompiledReady(f: nat, startY: int)
      requires f <= 1 && Compiled(f, startY)
      ensures Ready(buffer[..vdl], ft[..], InField(Spans(ts, startY, height), f), ts)
    {
      hide Spans, InField, FieldList, Marked;
      FieldLength(ts, startY, height, f);
      SpansOwned(ts, startY, height);
      InFieldOwned(Spans(ts, startY, height), f, ts);
    }

    /** One pass over a field, or the sizing pass: nothing emitted yet. */
    constructor (transitions: seq<Transition>, dispHigh: nat, entries: nat, passField: int)
      requires -1 <= passField <= 1
      ensures ts == transitions && height == dispHigh && buffer.Length == entries && field == passField
      ensures fresh(buffer) && fresh(ft) && ft.Length == |ts| && vdl == 0
      ensures Building([], 0)
    {
      ts, height, field := transitions, dispHigh, passField;
      buffer := new Unit[entries](_ => Unit(0, 0, 0, false, EndField));
      ft := new int[|transitions|](_ => -1);
      vdl, nextVdl, prevVdl := 0, 0, -1;
    }

    /** The compile routines: the entry at vdl, unless the span has no line in the field. */
    method Compile(s: Span) returns (err: int)
      requires s.top < s.bot && Fit(s.view) && -1 <= field <= 1 && s.owner < ft.Length
      requires field >= 0 && FieldLines(s.top, s.bot, field) > 0 ==> vdl < buffer.Length
      modifies this`nextVdl, buffer, ft
      ensures err == (if field >= 0 && FieldLines(s.top, s.bot, field) == 0 then 1 else 0)
      ensures nextVdl == if err == 0 then vdl + 1 else old(nextVdl)
      ensures buffer[..] == if field >= 0 && err == 0 then old(buffer[..])[vdl := UnitOf(s, field, old(buffer[vdl].next))]
                            else old(buffer[..])
      ensures ft[..] == if err == 1 && Shows(s.view) && s.owner >= 0 then old(ft[..])[s.owner := -1] else old(ft[..])
    {
      if field >= 0 {
        var high := s.bot - s.top;
        if high % 2 == 1 {
          high := high + if s.top % 2 == field then 1 else 0;
        }
        high := high / 2;
        if high == 0 {
          if Shows(s.view) && s.owner >= 0 {
            ft[s.owner] := -1;
          }
          return 1;
        }
        buffer[vdl] := Entry(s, high, buffer[vdl].next);
      }
      nextVdl := vdl + 1;
      err := 0;
    }

    /** The hardware words of an entry of high lines. */
    function Entry(s: Span, high: nat, next: Link): Unit
      requires Fit(s.view) && 0 <= field <= 1
      reads this`field
    {
      if !Shows(s.view) then Unit(high, VRAM_BASE, 0, false, next)
      else
        var v, b := s.view.value, s.view.value.bitmap.value;
        var top := if s.top % 2 == field then s.top else s.top + 1;
        var row := if v.lace then top - v.absTop + v.winTop else (top - v.absTop) / 2 + v.winTop;
        Unit(high, Wrap(PixelAddr(b, Left(v), row)), if v.lace then b.width * b.size * 2 else b.width * b.size, true, next)
    }

    method BuildVdlEntry(s: Span, ghost ss: seq<Span>, ghost n: nat)
      requires Building(ss, n) && InTurn(s, ts, n)
      requires field >= 0 && FieldLines(s.top, s.bot, field) > 0 ==> vdl < buffer.Length
      modifies this`vdl, this`nextVdl, this`prevVdl, buffer, ft
      ensures Building(ss + [s], After(s, n))
      ensures field < 0 ==> buffer[..] == old(buffer[..]) && ft[..] == old(ft[..])
    {
      hide Holds, InField, UnitOf, FieldLines;
      ghost var us, marks := buffer[..], ft[..];
      var err := Compile(s);
      if err == 0 {
        if field >= 0 {
          HeldLength(us, marks, ss, n);
          EntryHolds(us, marks, ss, field, ts, n, s);
          InFieldMore(ss, s, field);
          LinkOnly(s, field, buffer[vdl], us[vdl].next, To(nextVdl));
          if s.owner >= 0 {
            ft[s.owner] := vdl;
          }
          buffer[vdl] := buffer[vdl].(next := To(nextVdl));
          assert buffer[..] == us[vdl := UnitOf(s, field, To(vdl + 1))];
          assert ft[..] == if s.owner == -1 then marks else marks[n := vdl];
        }
        prevVdl := vdl;
        vdl := nextVdl;
      } else {
        InFieldMore(ss, s, field);
        SkippedHolds(us, marks, ss, field, ts, n, s);
      }
    }

    lemma HeldLength(us: seq<Unit>, marks: seq<int>, ss: seq<Span>, n: nat)
      requires 0 <= field <= 1 && Holds(us, marks, ss, field, ts, n)
      ensures |InField(ss, field)| <= |us| && n <= |ts| == |marks| && AllFit(ss)
    {
    }

    /** A transition that is not on the display. */
    method Invisible(ghost ss: seq<Span>, n: nat)
      requires Building(ss, n) && n < |ts|
      modifies ft
      ensures Building(ss, n + 1) && (field < 0 ==> ft[..] == old(ft[..]))
    {
      hide InField, UnitOf;
      if field >= 0 {
        ft[n] := -1;
      }
    }

    /** The transitions, top to bottom; transbot keeps its value once the bottom of the display is passed. */
    method ProcessBands(startY: int, ghost before: seq<Span>, ghost all: seq<Span>)
      returns (transtop: int, ghost ss: seq<Span>)
      requires Building(before, 0) && startY < height && AllFit(all) && before + Rest(ts, 0, startY, height) == all
      requires field >= 0 ==> buffer.Length >= |all|
      modifies this`vdl, this`nextVdl, this`prevVdl, buffer, ft
      ensures Building(ss, |ts|) && transtop == EndOf(ts, startY, height) && ss + Trailing(transtop, height) == all
      ensures field < 0 ==> buffer[..] == old(buffer[..]) && ft[..] == old(ft[..])
    {
      hide InField, UnitOf, FieldLines, Holds, Rest;
      var transbot: int := *;
      var i := 0;
      transtop, ss := startY, before;
      FirstRest(ts, startY, height);
      while i < |ts|
        invariant 0 <= i <= |ts| && Building(ss, i)
        invariant transtop >= height ==> transbot == transtop
        invariant EndOf(ts[i..], transtop, height) == EndOf(ts, startY, height)
        invariant ss + Rest(ts, i, transtop, height) == all
        invariant field < 0 ==> buffer[..] == old(buffer[..]) && ft[..] == old(ft[..])
      {
        RestStep(ts, i, transtop, height, ss, all);
        var visible := false;
        if transtop < height {
          transbot := transtop + ts[i].height;
          visible := transbot > 0;
        }
        if visible {
          var s := Span(ts[i].view, if transtop < 0 then 0 else transtop, if transbot > height then height else transbot, i);
          BuildVdlEntry(s, ss, i);
          ss := ss + [s];
        } else {
          Invisible(ss, i);
          assert ss + [] == ss;
        }
        transtop := transbot;
        i := i + 1;
      }
      LastRest(ts, transtop, height);
    }

    /** Every span of the transitions in turn, and the last entry patched to the field terminator. */
    method ProcessTransitions(startY: int)
      requires Building([], 0) && Placed(ts, startY, height) && height > 0
      requires forall i :: 0 <= i < |ts| ==> Fit(ts[i].view)
      requires field >= 0 ==> field < height && buffer.Length >= |Spans(ts, startY, height)|
      modifies this`vdl, this`nextVdl, this`prevVdl, buffer, ft
      ensures AllFit(Spans(ts, startY, height))
      ensures field < 0 ==> vdl == |Spans(ts, startY, height)| && buffer[..] == old(buffer[..]) && ft[..] == old(ft[..])
      ensures field >= 0 ==> 0 < vdl && Compiled(field, startY)
    {
      hide InField, UnitOf, FieldLines, Holds, Spans, FieldList, Rest;
      ghost var all := Spans(ts, startY, height);
      SpansFit(ts, startY, height);
      FirstRest(ts, startY, height);
      ghost var ss: seq<Span> := [];
      if startY > 0 {
        var s := Span(None, 0, if startY > height then height else startY, -1);
        BuildVdlEntry(s, [], 0);
        ss := [s];
        assert [] + [s] == [s];
      }
      var transtop;
      transtop, ss := ProcessBands(startY, ss, all);
      if transtop < height {
        var s := Span(None, transtop, height, -1);
        BuildVdlEntry(s, ss, |ts|);
        ss := ss + [s];
      }
      assert ss == all;
      if field >= 0 {
        Close(ss, startY);
      }
    }

    /** PrevVDL is the last entry; a field without a line would have none. */
    method Close(ghost ss: seq<Span>, startY: int)
      requires Building(ss, |ts|) && 0 <= field < height && Placed(ts, startY, height) && ss == Spans(ts, startY, height)
      modifies buffer
      ensures vdl == |FieldList(ts, startY, height, field)| && 0 < vdl <= buffer.Length
      ensures buffer[..vdl] == FieldList(ts, startY, height, field)
      ensures Marked(ft[..], InField(ss, field), ts, |ts|)
    {
      hide InField, UnitOf, Chain;
      FieldNotEmpty(ts, startY, height, field);
      ghost var us := buffer[..vdl];
      assert us == Open(InField(ss, field), field);
      OpenClosed(InField(ss, field), field);
      buffer[prevVdl] := buffer[prevVdl].(next := EndField);
      assert buffer[..vdl] == us[vdl - 1 := us[vdl - 1].(next := EndField)];
    }
  }

  // ---- stomplists ----

  /** The list once the first i transitions have been gone through. */
  function PatchedUpTo(us: seq<Unit>, fs: seq<Span>, ts: seq<Transition>, startY: int, height: nat, id: int, delta: int, i: nat):
    (r: seq<Unit>)
    requires |us| == |fs|
    ensures |r| == |us|
  {
    seq(|us|, j requires 0 <= j < |us| =>
      if Patches(fs[j], ts, startY, height, id) && fs[j].owner < i then Shifted(us[j], delta) else us[j])
  }

  /** A field's list, its marks and the spans they come from. */
  ghost predicate Ready(us: seq<Unit>, ft: seq<int>, fs: seq<Span>, ts: seq<Transition>)
  {
    |us| == |fs| && |ft| == |ts| && Marked(ft, fs, ts, |ts|) && forall j :: 0 <= j < |fs| ==> Owned(fs[j], ts)
  }

  lemma PatchStep(us: seq<Unit>, ft: seq<int>, fs: seq<Span>, ts: seq<Transition>, startY: int, height: nat, id: int, delta: int,
                  i: nat)
    requires Ready(us, ft, fs, ts) && OneView(ts, id) && i < |ts|
    ensures var x, y := PatchedUpTo(us, fs, ts, startY, height, id, delta, i), PatchedUpTo(us, fs, ts, startY, height, id, delta, i + 1);
            if Reached(ts[i], startY, height) && ts[i].view.Some? && ts[i].view.value.id == id && ft[i] >= 0 then
              ft[i] < |us| && y == x[ft[i] := Shifted(x[ft[i]], delta)]
            else y == x
  {
    var x, y := PatchedUpTo(us, fs, ts, startY, height, id, delta, i), PatchedUpTo(us, fs, ts, startY, height, id, delta, i + 1);
    forall j | 0 <= j < |us| && fs[j].owner != i
      ensures x[j] == y[j]
    {
    }
  }

  lemma PatchEnd(us: seq<Unit>, fs: seq<Span>, ts: seq<Transition>, startY: int, height: nat, id: int, delta: int)
    requires |us| == |fs|
    ensures PatchedUpTo(us, fs, ts, startY, height, id, delta, 0) == us
    ensures var r := PatchedUpTo(us, fs, ts, startY, height, id, delta, |ts|);
            forall j :: 0 <= j < |us| ==> r[j] == if Patches(fs[j], ts, startY, height, id) then Shifted(us[j], delta) else us[j]
  {
    var x := PatchedUpTo(us, fs, ts, startY, height, id, delta, 0);
    forall j | 0 <= j < |us|
      ensures x[j] == us[j]
    {
    }
  }

  /** mvu_16_32_dual: the entry a mark points at, one of the first n. */
  method ModifyUnit(buffer: array<Unit>, mark: int, delta: int, ghost n: nat)
    requires mark < n <= buffer.Length
    modifies buffer
    ensures buffer[..n] == if mark < 0 then old(buffer[..n]) else old(buffer[..n])[mark := Shifted(old(buffer[mark]), delta)]
  {
    if mark >= 0 {
      buffer[mark] := Shifted(buffer[mark], delta);
    }
  }

  /** Both fields' lists, n0 and n1 entries long, patched for the view's bands that pass the visibility test at StartY. */
  method StompLists(ts: seq<Transition>, startY: int, height: nat, id: int, delta: int,
                    list0: array<Unit>, marks0: seq<int>, ghost n0: nat, ghost fs0: seq<Span>,
                    list1: array<Unit>, marks1: seq<int>, ghost n1: nat, ghost fs1: seq<Span>)
    requires list0 != list1 && OneView(ts, id) && n0 <= list0.Length && n1 <= list1.Length
    requires Ready(list0[..n0], marks0, fs0, ts) && Ready(list1[..n1], marks1, fs1, ts)
    modifies list0, list1
    ensures list0[..n0] == PatchedUpTo(old(list0[..n0]), fs0, ts, startY, height, id, delta, |ts|)
    ensures list1[..n1] == PatchedUpTo(old(list1[..n1]), fs1, ts, startY, height, id, delta, |ts|)
  {
    ghost var us0, us1 := list0[..n0], list1[..n1];
    PatchEnd(us0, fs0, ts, startY, height, id, delta);
    PatchEnd(us1, fs1, ts, startY, height, id, delta);
    hide PatchedUpTo, Ready, Marked;
    for i := 0 to |ts|
      invariant list0[..n0] == PatchedUpTo(us0, fs0, ts, startY, height, id, delta, i)
      invariant list1[..n1] == PatchedUpTo(us1, fs1, ts, startY, height, id, delta, i)
    {
      ReadyMarks(us0, marks0, fs0, ts);
      ReadyMarks(us1, marks1, fs1, ts);
      PatchStep(us0, marks0, fs0, ts, startY, height, id, delta, i);
      PatchStep(us1, marks1, fs1, ts, startY, height, id, delta, i);
      if startY < height && startY + ts[i].height > 0 {
        if ts[i].view.Some? && ts[i].view.value.id == id {
          ModifyUnit(list0, marks0[i], delta, n0);
          ModifyUnit(list1, marks1[i], delta, n1);
        }
      }
    }
  }

  lemma ReadyMarks(us: seq<Unit>, ft: seq<int>, fs: seq<Span>, ts: seq<Transition>)
    requires Ready(us, ft, fs, ts)
    ensures |us| == |fs| && |ft| == |ts|
  {
  }

  /** On the lists a compile has built, the patched lists are those of Stomping. */
  lemma StompedList(ts: seq<Transition>, startY: int, height: nat, f: nat, id: int, delta: int)
    requires f <= 1 && AllFit(Spans(ts, startY, height))
    ensures var fs, us := InField(Spans(ts, startY, height), f), FieldList(ts, startY, height, f);
            PatchedUpTo(us, fs, ts, startY, height, id, delta, |ts|) == PatchedList(ts, startY, height, f, id, delta)
  {
    var fs, us := InField(Spans(ts, startY, height), f), FieldList(ts, startY, height, f);
    PatchEnd(us, fs, ts, startY, height, id, delta);
  }

  /** What a compile has built and stomplists then patches is what a new compile would build: with StartY on the
      display, always. */
  method StompCompiled(even: VdlBuilder, odd: VdlBuilder, startY: int, id: int, delta: int)
    requires even.buffer != odd.buffer && even.ts == odd.ts && even.height == odd.height && OneView(even.ts, id)
    requires even.Compiled(0, startY) && odd.Compiled(1, startY)
    modifies even.buffer, odd.buffer
    ensures even.vdl == old(even.vdl) <= even.buffer.Length && odd.vdl == old(odd.vdl) <= odd.buffer.Length
    ensures AllFit(Spans(even.ts, startY, even.height))
    ensures even.buffer[..even.vdl] == PatchedList(even.ts, startY, even.height, 0, id, delta)
    ensures odd.buffer[..odd.vdl] == PatchedList(odd.ts, startY, odd.height, 1, id, delta)
    ensures Listed(even.ts) && 0 <= startY < even.height ==>
      && var moved := Moved(even.ts, id, delta);
      && AllFit(Spans(moved, startY, even.height))
      && even.buffer[..even.vdl] == FieldList(moved, startY, even.height, 0)
      && odd.buffer[..odd.vdl] == FieldList(moved, startY, even.height, 1)
  {
    hide Spans, InField, FieldList, PatchedList, PatchedUpTo, Moved, Ready, Marked;
    even.CompiledReady(0, startY);
    odd.CompiledReady(1, startY);
    StompLists(even.ts, startY, even.height, id, delta,
               even.buffer, even.ft[..], even.vdl, InField(Spans(even.ts, startY, even.height), 0),
               odd.buffer, odd.ft[..], odd.vdl, InField(Spans(odd.ts, startY, odd.height), 1));
    StompedList(even.ts, startY, even.height, 0, id, delta);
    StompedList(even.ts, startY, even.height, 1, id, delta);
    Recompiled(even.ts, startY, even.height, id, delta);
  }

  lemma Recompiled(ts: seq<Transition>, startY: int, height: nat, id: int, delta: int)
    requires AllFit(Spans(ts, startY, height)) && OneView(ts, id)
    ensures Listed(ts) && 0 <= startY < height ==>
      && AllFit(Spans(Moved(ts, id, delta), startY, height))
      && PatchedList(ts, startY, height, 0, id, delta) == FieldList(Moved(ts, id, delta), startY, height, 0)
      && PatchedList(ts, startY, height, 1, id, delta) == FieldList(Moved(ts, id, delta), startY, height, 1)
  {
    if Listed(ts) && 0 <= startY < height {
      PatchIsRecompile(ts, startY, height, 0, id, delta);
      PatchIsRecompile(ts, startY, height, 1, id, delta);
    }
  }
}
