/** How display list buffers come and go: compiled, replaced, parked until a vertical blank, released. */
module ListLifetime {
  import opened Options

  type Buffer = int

  /** How far a compile gets: nothing allocated, a failure with the first buffer or with both, or done;
      a progressive display has one buffer for both fields. */
  datatype Compilation =
    | NoBuffer
    | FailedFirst(first: Buffer)
    | FailedBoth(first: Buffer, second: Buffer)
    | Progressive(both: Buffer)
    | Interlaced(field0: Buffer, field1: Buffer)

  /** A replaced buffer, and how many vertical blanks there had been when it was replaced. */
  datatype Parked = Parked(buffer: Buffer, since: nat)

  /** A buffer handed back to the allocator: since when it had been replaced, if it was ever shown, and
      the vertical blanks by now. */
  datatype Release = Release(buffer: Buffer, since: Option<nat>, blanks: nat)

  /** The module globals: pm2_VDL0 and pm2_VDL1, pm2_PendingList, pm2_FreeList, every SuperFreeMem and
      every vertical blank so far. */
  datatype State = State(vdl0: Option<Buffer>, vdl1: Option<Buffer>, pending: seq<Parked>, free: seq<Parked>,
                         released: seq<Release>, blanks: nat)

  // ---- what the compiler and the vertical blank do ----

  function ReleaseAll(ws: seq<Parked>, blanks: nat): (r: seq<Release>)
    ensures |r| == |ws|
  {
    if ws == [] then [] else ReleaseAll(ws[..|ws| - 1], blanks) + [Release(ws[|ws| - 1].buffer, Some(ws[|ws| - 1].since), blanks)]
  }

  /** Flush freelist. */
  function Flushed(s: State): State { s.(free := [], released := s.released + ReleaseAll(s.free, s.blanks)) }

  function Discarded(s: State, b: Buffer): State { s.(released := s.released + [Release(b, None, s.blanks)]) }

  /** The lists on display, a shared one once. */
  function Showing(s: State): seq<Parked>
  {
    (if s.vdl0.Some? then [Parked(s.vdl0.value, s.blanks)] else []) +
    (if s.vdl1.Some? && s.vdl1 != s.vdl0 then [Parked(s.vdl1.value, s.blanks)] else [])
  }

  function Replaced(s: State, a: Buffer, b: Buffer): State
  {
    s.(pending := s.pending + Showing(s), vdl0 := Some(a), vdl1 := Some(b))
  }

  function Compiled(s: State, c: Compilation): State
  {
    var s1 := Flushed(s);
    match c
    case NoBuffer => s1
    case FailedFirst(a) => Discarded(s1, a)
    case FailedBoth(a, b) => Discarded(Discarded(s1, a), b)
    case Progressive(a) => Replaced(s1, a, a)
    case Interlaced(a, b) => Replaced(s1, a, b)
  }

  function Backwards(ws: seq<Parked>): (r: seq<Parked>)
    ensures |r| == |ws|
  {
    if ws == [] then [] else Backwards(ws[1..]) + [ws[0]]
  }

  /** Node by node from the head of the pending list to the head of the free list. */
  function Blanked(s: State): State
  {
    s.(pending := [], free := Backwards(s.pending) + s.free, blanks := s.blanks + 1)
  }

  // ---- where a buffer is ----

  function CountParked(ws: seq<Parked>, b: Buffer): nat
  {
    if ws == [] then 0 else CountParked(ws[..|ws| - 1], b) + (if ws[|ws| - 1].buffer == b then 1 else 0)
  }

  function CountReleased(rs: seq<Release>, b: Buffer): nat
  {
    if rs == [] then 0 else CountReleased(rs[..|rs| - 1], b) + (if rs[|rs| - 1].buffer == b then 1 else 0)
  }

  /** How often a buffer is on display, parked, safe to free or released. */
  function Held(s: State, b: Buffer): nat
  {
    CountParked(Showing(s), b) + CountParked(s.pending, b) + CountParked(s.free, b) + CountReleased(s.released, b)
  }

  function Allocates(c: Compilation, b: Buffer): nat
  {
    match c
    case NoBuffer => 0
    case FailedFirst(a) => if a == b then 1 else 0
    case FailedBoth(a, d) => (if a == b then 1 else 0) + (if d == b then 1 else 0)
    case Progressive(a) => if a == b then 1 else 0
    case Interlaced(a, d) => (if a == b then 1 else 0) + (if d == b then 1 else 0)
  }

  lemma {:induction false} CountTwo(x: seq<Parked>, y: seq<Parked>, b: Buffer)
    ensures CountParked(x + y, b) == CountParked(x, b) + CountParked(y, b)
    decreases |y|
  {
    if y == [] {
      assert x + y == x;
    } else {
      CountTwo(x, y[..|y| - 1], b);
      assert (x + y)[..|x + y| - 1] == x + y[..|y| - 1];
    }
  }

  lemma {:induction false} CountReleasedAll(rs: seq<Release>, ws: seq<Parked>, blanks: nat, b: Buffer)
    ensures CountReleased(rs + ReleaseAll(ws, blanks), b) == CountReleased(rs, b) + CountParked(ws, b)
    decreases |ws|
  {
    if ws == [] {
      assert rs + [] == rs;
    } else {
      var x := rs + ReleaseAll(ws, blanks);
      CountReleasedAll(rs, ws[..|ws| - 1], blanks, b);
      assert x[..|x| - 1] == rs + ReleaseAll(ws[..|ws| - 1], blanks);
    }
  }

  lemma {:induction false} CountBackwards(ws: seq<Parked>, b: Buffer)
    ensures CountParked(Backwards(ws), b) == CountParked(ws, b)
    decreases |ws|
  {
    if ws != [] {
      CountBackwards(ws[1..], b);
      CountTwo(Backwards(ws[1..]), [ws[0]], b);
      CountTwo([ws[0]], ws[1..], b);
      assert [ws[0]] + ws[1..] == ws;
    }
  }

  lemma CountOne(w: Parked, b: Buffer)
    ensures CountParked([w], b) == if w.buffer == b then 1 else 0
  {
    assert [w][..0] == [];
  }

  lemma CountShowing(s: State, b: Buffer)
    ensures CountParked(Showing(s), b) ==
            (if s.vdl0 == Some(b) then 1 else 0) + (if s.vdl1 == Some(b) && s.vdl1 != s.vdl0 then 1 else 0)
  {
    var x := if s.vdl0.Some? then [Parked(s.vdl0.value, s.blanks)] else [];
    var y := if s.vdl1.Some? && s.vdl1 != s.vdl0 then [Parked(s.vdl1.value, s.blanks)] else [];
    CountTwo(x, y, b);
    if s.vdl0.Some? { CountOne(x[0], b); }
    if s.vdl1.Some? && s.vdl1 != s.vdl0 { CountOne(y[0], b); }
  }

  lemma DiscardedHeld(s: State, a: Buffer, b: Buffer)
    ensures Held(Discarded(s, a), b) == Held(s, b) + (if a == b then 1 else 0)
  {
    var x := Discarded(s, a).released;
    assert x[..|x| - 1] == s.released;
  }

  lemma ReplacedHeld(s: State, a: Buffer, d: Buffer, b: Buffer)
    ensures Held(Replaced(s, a, d), b) == Held(s, b) + (if a == b then 1 else 0) + (if d == b && d != a then 1 else 0)
  {
    CountTwo(s.pending, Showing(s), b);
    CountShowing(Replaced(s, a, d), b);
  }

  /** A compile adds the buffers it allocates, and loses and doubles none. */
  lemma CompiledHeld(s: State, c: Compilation, b: Buffer)
    requires c.Interlaced? ==> c.field0 != c.field1
    ensures Held(Compiled(s, c), b) == Held(s, b) + Allocates(c, b)
  {
    hide CountParked, CountReleased;
    var s1 := Flushed(s);
    CountReleasedAll(s.released, s.free, s.blanks, b);
    NothingParked(b);
    match c
    case NoBuffer =>
    case FailedFirst(a) => DiscardedHeld(s1, a, b);
    case FailedBoth(a, d) => DiscardedHeld(s1, a, b); DiscardedHeld(Discarded(s1, a), d, b);
    case Progressive(a) => ReplacedHeld(s1, a, a, b);
    case Interlaced(a, d) => ReplacedHeld(s1, a, d, b);
  }

  lemma NothingParked(b: Buffer)
    ensures CountParked([], b) == 0
  {
  }

  lemma BlankedHeld(s: State, b: Buffer)
    ensures Held(Blanked(s), b) == Held(s, b)
  {
    CountTwo(Backwards(s.pending), s.free, b);
    CountBackwards(s.pending, b);
    CountShowing(s, b);
    CountShowing(Blanked(s), b);
  }

  // ---- when a buffer may go ----

  /** What is safe to free was replaced before the latest vertical blank; so was whatever has been released,
      unless it was never shown. */
  predicate Timely(s: State)
  {
    && (forall i :: 0 <= i < |s.pending| ==> s.pending[i].since <= s.blanks)
    && (forall i :: 0 <= i < |s.free| ==> s.free[i].since < s.blanks)
    && (forall i :: 0 <= i < |s.released| ==>
          s.released[i].blanks <= s.blanks && (s.released[i].since.Some? ==> s.released[i].since.value < s.released[i].blanks))
  }

  lemma {:induction false} ReleasedAt(ws: seq<Parked>, blanks: nat, i: nat)
    requires i < |ws|
    ensures ReleaseAll(ws, blanks)[i] == Release(ws[i].buffer, Some(ws[i].since), blanks)
  {
    if i < |ws| - 1 { ReleasedAt(ws[..|ws| - 1], blanks, i); }
  }

  lemma CompiledTimely(s: State, c: Compilation)
    requires Timely(s)
    ensures Timely(Compiled(s, c))
  {
    var rs := Flushed(s).released;
    forall i | 0 <= i < |rs|
      ensures rs[i].blanks <= s.blanks && (rs[i].since.Some? ==> rs[i].since.value < rs[i].blanks)
    {
      if i >= |s.released| { ReleasedAt(s.free, s.blanks, i - |s.released|); }
    }
  }

  lemma {:induction false} BackwardsTimely(ws: seq<Parked>, blanks: nat)
    requires forall i :: 0 <= i < |ws| ==> ws[i].since <= blanks
    ensures forall i :: 0 <= i < |ws| ==> Backwards(ws)[i].since <= blanks
  {
    if ws != [] { BackwardsTimely(ws[1..], blanks); }
  }

  lemma BlankedTimely(s: State)
    requires Timely(s)
    ensures Timely(Blanked(s))
  {
    BackwardsTimely(s.pending, s.blanks);
  }

  // ---- runs ----

  datatype Event = CompileRun(c: Compilation) | VerticalBlank

  function Step(s: State, e: Event): State
  {
    match e
    case CompileRun(c) => Compiled(s, c)
    case VerticalBlank => Blanked(s)
  }

  function Boot(): State { State(None, None, [], [], [], 0) }

  function Run(es: seq<Event>): State
  {
    if es == [] then Boot() else Step(Run(es[..|es| - 1]), es[|es| - 1])
  }

  function Allocations(es: seq<Event>, b: Buffer): nat
  {
    if es == [] then 0
    else
      Allocations(es[..|es| - 1], b) +
      match es[|es| - 1]
      case CompileRun(c) => Allocates(c, b)
      case VerticalBlank => 0
  }

  /** The allocator never hands out one buffer for both fields. */
  predicate Distinct(es: seq<Event>)
  {
    forall i :: 0 <= i < |es| ==> (es[i].CompileRun? && es[i].c.Interlaced? ==> es[i].c.field0 != es[i].c.field1)
  }

  lemma {:induction false} RunHeld(es: seq<Event>, b: Buffer)
    requires Distinct(es)
    ensures Held(Run(es), b) == Allocations(es, b) && Timely(Run(es))
  {
    hide Held, Timely;
    if es == [] {
      NothingParked(b);
      BootEmpty(b);
    } else {
      var s := Run(es[..|es| - 1]);
      RunHeld(es[..|es| - 1], b);
      match es[|es| - 1]
      case CompileRun(c) => CompiledHeld(s, c, b); CompiledTimely(s, c);
      case VerticalBlank => BlankedHeld(s, b); BlankedTimely(s);
    }
  }

  lemma BootEmpty(b: Buffer)
    ensures Held(Boot(), b) == 0 && Timely(Boot())
  {
  }

  /** Over any run of compiles, successful or not, and vertical blanks, a buffer that has been allocated is in
      exactly one place: on display, parked, safe to free, or released once. */
  lemma OnePlace(es: seq<Event>, b: Buffer)
    requires Distinct(es) && Allocations(es, b) == 1
    ensures var s := Run(es);
            CountParked(Showing(s), b) + CountParked(s.pending, b) + CountParked(s.free, b) + CountReleased(s.released, b) == 1
  {
    RunHeld(es, b);
  }

  /** No list that has been shown is released before a vertical blank has followed its replacement. */
  lemma ReleasedAfterBlank(es: seq<Event>, i: nat)
    requires Distinct(es) && i < |Run(es).released| && Run(es).released[i].since.Some?
    ensures Run(es).released[i].since.value < Run(es).released[i].blanks <= Run(es).blanks
  {
    RunHeld(es, 0);
  }

  /** The buffers a compile has left on display, if it got that far. */
  function Shown(c: Compilation): Option<(Buffer, Buffer)>
  {
    match c
    case Progressive(a) => Some((a, a))
    case Interlaced(a, b) => Some((a, b))
    case _ => None
  }

  /** No event from i on is a compile that got through. */
  predicate NoneAfter(es: seq<Event>, i: nat)
  {
    forall j :: i <= j < |es| ==> es[j].CompileRun? ==> Shown(es[j].c).None?
  }

  /** Over any run, the lists of field 0 and field 1 are those of the last compile that got through. */
  lemma {:induction false} LastCompileShown(es: seq<Event>, i: nat)
    requires i < |es| && es[i].CompileRun? && Shown(es[i].c).Some? && NoneAfter(es, i + 1)
    ensures var (a, b) := Shown(es[i].c).value; Run(es).vdl0 == Some(a) && Run(es).vdl1 == Some(b)
  {
    hide ReleaseAll, Showing, Backwards;
    if i < |es| - 1 {
      assert es[|es| - 1].CompileRun? ==> Shown(es[|es| - 1].c).None?;
      LastCompileShown(es[..|es| - 1], i);
    }
  }

  /** Until one has, there are none. */
  lemma {:induction false} NoneShown(es: seq<Event>)
    requires NoneAfter(es, 0)
    ensures Run(es).vdl0 == None && Run(es).vdl1 == None
  {
    if es != [] {
      assert es[|es| - 1].CompileRun? ==> Shown(es[|es| - 1].c).None?;
      NoneShown(es[..|es| - 1]);
    }
  }

  // ---- in place ----

  class Lists {
    var vdl0: Option<Buffer>
    var vdl1: Option<Buffer>
    var pending: seq<Parked>
    var free: seq<Parked>
    var released: seq<Release>
    var blanks: nat

    ghost function Model(): State
      reads this
    {
      State(vdl0, vdl1, pending, free, released, blanks)
    }

    constructor ()
      ensures Model() == Boot()
    {
      vdl0, vdl1, pending, free, released, blanks := None, None, [], [], [], 0;
    }

    /** RemHead and SuperFreeMem until the free list is empty. */
    method FlushFree()
      modifies this`free, this`released
      ensures Model() == Flushed(old(Model()))
    {
      ghost var all, before := free, released;
      ghost var k := 0;
      while free != []
        invariant 0 <= k <= |all| && free == all[k..]
        invariant released == before + ReleaseAll(all[..k], blanks)
        decreases |free|
      {
        released := released + [Release(free[0].buffer, Some(free[0].since), blanks)];
        free := free[1..];
        assert all[..k + 1][..k] == all[..k];
        k := k + 1;
      }
      assert all[..k] == all;
    }

    method CompileVdl(c: Compilation)
      modifies this
      ensures Model() == Compiled(old(Model()), c)
    {
      FlushFree();
      match c
      case NoBuffer =>
      case FailedFirst(a) => released := released + [Release(a, None, blanks)];
      case FailedBoth(a, b) =>
        released := released + [Release(a, None, blanks)];
        released := released + [Release(b, None, blanks)];
      case Progressive(a) => Replace(a, a);
      case Interlaced(a, b) => Replace(a, b);
    }

    /** The old lists are parked, the new ones take over. */
    method Replace(a: Buffer, b: Buffer)
      modifies this`vdl0, this`vdl1, this`pending
      ensures Model() == Replaced(old(Model()), a, b)
    {
      ghost var parked := pending;
      assert parked + [] == parked;
      if vdl0.Some? {
        pending := pending + [Parked(vdl0.value, blanks)];
      }
      if vdl1.Some? && vdl1 != vdl0 {
        pending := pending + [Parked(vdl1.value, blanks)];
      }
      assert pending == parked + Showing(old(Model()));
      vdl0, vdl1 := Some(a), Some(b);
    }

    /** The part of beamFIRQ that runs at the zero marker. */
    method VBlank()
      modifies this`pending, this`free, this`blanks
      ensures Model() == Blanked(old(Model()))
    {
      ghost var all, before := pending, free;
      ghost var k := 0;
      blanks := blanks + 1;
      assert [] + before == before;
      while pending != []
        invariant 0 <= k <= |all| && pending == all[k..]
        invariant Backwards(pending) + free == Backwards(all) + before && blanks == old(blanks) + 1
        decreases |pending|
      {
        assert Backwards(pending) + free == Backwards(pending[1..]) + ([pending[0]] + free);
        free := [pending[0]] + free;
        pending := pending[1..];
        k := k + 1;
      }
      assert [] + free == free;
    }
  }
}
