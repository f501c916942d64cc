/** Signals that wait for the video beam: a list sorted by line, with a marker at the end of the field. */
module BeamQueue {

  const LI_LINE_MASK: nat := 0x3FFF
  const FIELD_INCREMENT: nat := 0x4000
  const LINE_WORD: nat := 0x1_0000  // li_Line is 16 bits wide

  /** A lineintr; due counts the field it was installed for. */
  datatype Signal = Signal(id: int, line: nat, marker: bool, due: nat)

  /** Halves the line on an interlaced display, and adds the lines of the blank. */
  datatype Display = Display(laced: bool, blankLines: nat)

  function DispToHw(d: Display, line: nat): nat { (if d.laced then line / 2 else line) + d.blankLines }

  /** Where the beam is when it is looked at, the first and the second time for each signal. */
  type Beam = nat -> (nat, nat)

  /** No beam gets as far as the marker. */
  ghost predicate WithinField(d: Display, beam: Beam)
  {
    forall k :: beam(k).0 < DispToHw(d, LI_LINE_MASK) && beam(k).1 < DispToHw(d, LI_LINE_MASK)
  }

  /** A signal sent, and the field it was sent in. */
  datatype Sent = Sent(signal: Signal, field: nat)

  datatype Queue = Queue(list: seq<Signal>, sent: seq<Sent>, field: nat)

  // ---- what the driver does ----

  /** UniversalInsertNode: behind everything that is not later. */
  function Insert(list: seq<Signal>, s: Signal): (r: seq<Signal>)
    ensures |r| == |list| + 1
  {
    if list == [] || list[0].line > s.line then [s] + list else [list[0]] + Insert(list[1..], s)
  }

  /** setvline0: how many signals are due, one look or two at a time. */
  function DueCount(d: Display, list: seq<Signal>, beam: Beam, k: nat): (n: nat)
    ensures n <= |list|
    decreases |list|
  {
    if list == [] then 0
    else
      var trig := DispToHw(d, list[0].line);
      if beam(k).0 >= trig || beam(k).1 >= trig then 1 + DueCount(d, list[1..], beam, k + 1) else 0
  }

  function Dispatched(list: seq<Signal>, n: nat, field: nat): (r: seq<Sent>)
    requires n <= |list|
    ensures |r| == n && forall i :: 0 <= i < n ==> r[i] == Sent(list[i], field)
  {
    seq(n, i requires 0 <= i < n => Sent(list[i], field))
  }

  function SetVline(d: Display, q: Queue, beam: Beam): Queue
  {
    var n := DueCount(d, q.list, beam, 0);
    q.(list := q.list[n..], sent := q.sent + Dispatched(q.list, n, q.field))
  }

  /** installlineintr, the node's own line already set; a new head is scheduled at once. */
  function Install(d: Display, q: Queue, s: Signal, beam: Beam): Queue
  {
    var q1 := q.(list := Insert(q.list, s));
    if q1.list[0] == s then SetVline(d, q1, beam) else q1
  }

  function Without(list: seq<Signal>, i: nat): seq<Signal>
    requires i < |list|
  {
    list[..i] + list[i + 1..]
  }

  /** removelineintr, for the signal at place i. */
  function Remove(d: Display, q: Queue, i: nat, beam: Beam): Queue
    requires i < |q.list|
  {
    var q1 := q.(list := Without(q.list, i));
    if i == 0 then SetVline(d, q1, beam) else q1
  }

  /** One field less, in 16 bits. */
  function Less(line: nat): nat { (line + LINE_WORD - FIELD_INCREMENT) % LINE_WORD }

  /** Decrement all field counts. */
  function Decremented(list: seq<Signal>): (r: seq<Signal>)
    ensures |r| == |list| && forall i :: 0 <= i < |r| ==> r[i] == list[i].(line := Less(list[i].line))
    decreases |list|
  {
    if list == [] then [] else [list[0].(line := Less(list[0].line))] + Decremented(list[1..])
  }

  function BeamInterrupt(d: Display, q: Queue, beam: Beam, again: Beam): Queue
    requires q.list != []
  {
    if q.list[0].marker then
      Install(d, SetVline(d, Queue(Decremented(q.list[1..]), q.sent, q.field + 1), beam), q.list[0], again)
    else SetVline(d, q, beam)
  }

  // ---- the order ----

  predicate Sorted(list: seq<Signal>) { forall i, j :: 0 <= i < j < |list| ==> list[i].line <= list[j].line }

  /** A signal is for this field or the next, on a line before the marker's. */
  predicate InTime(s: Signal, field: nat)
  {
    (s.line < LI_LINE_MASK && s.due == field) ||
    (FIELD_INCREMENT <= s.line < FIELD_INCREMENT + LI_LINE_MASK && s.due == field + 1)
  }

  predicate Timed(list: seq<Signal>, field: nat)
  {
    forall i :: 0 <= i < |list| ==> if list[i].marker then list[i].line == LI_LINE_MASK else InTime(list[i], field)
  }

  predicate NoMarker(list: seq<Signal>) { forall i :: 0 <= i < |list| ==> !list[i].marker }

  /** The marker is at place k, and nowhere else. */
  predicate MarkerAt(list: seq<Signal>, k: nat)
  {
    k < |list| && list[k].marker && forall j :: 0 <= j < |list| && j != k ==> !list[j].marker
  }

  ghost predicate OneMarker(list: seq<Signal>) { exists k: nat :: MarkerAt(list, k) }

  /** Every signal was sent in the very field it was installed for. */
  predicate OnTime(sent: seq<Sent>) { forall i :: 0 <= i < |sent| ==> !sent[i].signal.marker && sent[i].signal.due == sent[i].field }

  /** What holds between handlers. */
  ghost predicate Sound(q: Queue)
  {
    Sorted(q.list) && OneMarker(q.list) && Timed(q.list, q.field) && OnTime(q.sent)
  }

  /** r is list with s put in at place i. */
  predicate Inserted(list: seq<Signal>, r: seq<Signal>, s: Signal, i: nat)
  {
    && |r| == |list| + 1 && i <= |list| && r[i] == s
    && (forall j :: 0 <= j < i ==> r[j] == list[j])
    && (forall j :: i < j < |r| ==> r[j] == list[j - 1])
  }

  lemma {:induction false} InsertAt(list: seq<Signal>, s: Signal) returns (i: nat)
    requires Sorted(list)
    ensures Inserted(list, Insert(list, s), s, i)
    ensures forall j :: 0 <= j < |list| ==> (j < i <==> list[j].line <= s.line)
    decreases |list|
  {
    if list == [] || list[0].line > s.line {
      i := 0;
    } else {
      var k := InsertAt(list[1..], s);
      i := k + 1;
      forall j | 0 <= j < |list|
        ensures j < i <==> list[j].line <= s.line
      {
        if j > 0 { assert list[j] == list[1..][j - 1]; }
      }
    }
  }

  /** An insertion keeps the order and adds the one signal. */
  lemma InsertKeeps(list: seq<Signal>, s: Signal, field: nat) returns (i: nat)
    requires Sorted(list) && Timed(list, field) && (if s.marker then s.line == LI_LINE_MASK else InTime(s, field))
    ensures var r := Insert(list, s); Inserted(list, r, s, i) && Sorted(r) && Timed(r, field)
  {
    hide Insert, InTime;
    i := InsertAt(list, s);
  }

  lemma MarkerKept(list: seq<Signal>, r: seq<Signal>, s: Signal, i: nat)
    requires Inserted(list, r, s, i) && OneMarker(list) && !s.marker
    ensures OneMarker(r)
  {
    var k: nat :| MarkerAt(list, k);
    assert MarkerAt(r, if k < i then k else k + 1);
  }

  lemma MarkerStays(list: seq<Signal>, r: seq<Signal>, s: Signal, i: nat)
    requires Inserted(list, r, s, i) && OneMarker(r) && !s.marker
    ensures OneMarker(list)
  {
    var k: nat :| MarkerAt(r, k);
    forall j | 0 <= j < |list|
      ensures list[j] == r[if j < i then j else j + 1]
    {
    }
    assert MarkerAt(list, if k < i then k else k - 1);
  }

  lemma MarkerAdded(list: seq<Signal>, r: seq<Signal>, s: Signal, i: nat)
    requires Inserted(list, r, s, i) && NoMarker(list) && s.marker
    ensures OneMarker(r)
  {
    assert MarkerAt(r, i);
  }

  // ---- what is due ----

  /** What is due is before the marker's line. */
  lemma {:induction false} DueNow(d: Display, list: seq<Signal>, beam: Beam, k: nat, j: nat)
    requires WithinField(d, beam) && j < DueCount(d, list, beam, k)
    ensures list[j].line < LI_LINE_MASK
    decreases |list|
  {
    if list[0].line >= LI_LINE_MASK {
      LaterLine(d, LI_LINE_MASK, list[0].line);
    } else if j > 0 {
      DueNow(d, list[1..], beam, k + 1, j - 1);
    }
  }

  lemma LaterLine(d: Display, a: nat, b: nat)
    requires a <= b
    ensures DispToHw(d, a) <= DispToHw(d, b)
  {
  }

  /** Scheduling splits the list: what is sent is what was first, in order, none of it the marker and all of it
      for this field; the rest stays. */
  lemma SetVlineKeeps(d: Display, q: Queue, beam: Beam)
    requires WithinField(d, beam) && Sorted(q.list) && Timed(q.list, q.field) && OnTime(q.sent)
    ensures var n, r := DueCount(d, q.list, beam, 0), SetVline(d, q, beam);
            && Sorted(r.list) && Timed(r.list, q.field) && OnTime(r.sent) && r.field == q.field
            && r.list == q.list[n..] && NoMarker(q.list[..n]) && r.sent == q.sent + Dispatched(q.list, n, q.field)
  {
    var n := DueCount(d, q.list, beam, 0);
    forall j | 0 <= j < n
      ensures !q.list[j].marker && q.list[j].due == q.field
    {
      DueNow(d, q.list, beam, 0, j);
    }
  }

  /** The last display line the beam has reached: two lines of an interlaced display go with one of the hardware's. */
  function LastLine(d: Display, beamAt: nat): int
  {
    if d.laced then 2 * (beamAt - d.blankLines) + 1 else beamAt - d.blankLines
  }

  /** The beam had reached the signal's line at one of the two looks, k-th in turn. */
  predicate Reached(d: Display, s: Signal, beam: Beam, k: nat)
  {
    s.line <= LastLine(d, beam(k).0) || s.line <= LastLine(d, beam(k).1)
  }

  lemma HardwareLine(d: Display, line: nat, beamAt: nat)
    ensures beamAt >= DispToHw(d, line) <==> line <= LastLine(d, beamAt)
  {
  }

  lemma {:induction false} DueReached(d: Display, list: seq<Signal>, beam: Beam, k: nat)
    ensures var n := DueCount(d, list, beam, k);
            && (forall j :: 0 <= j < n ==> Reached(d, list[j], beam, k + j))
            && (n < |list| ==> !Reached(d, list[n], beam, k + n))
    decreases |list|
  {
    hide LastLine, DispToHw;
    if list != [] {
      HardwareLine(d, list[0].line, beam(k).0);
      HardwareLine(d, list[0].line, beam(k).1);
      var n := DueCount(d, list, beam, k);
      if n > 0 {
        DueReached(d, list[1..], beam, k + 1);
        forall j | 0 <= j < n
          ensures Reached(d, list[j], beam, k + j)
        {
          if j > 0 { assert list[j] == list[1..][j - 1]; }
        }
      }
    }
  }

  /** A signal leaves the list only when the beam had reached its line at one of the two looks, and the one
      left at the head had not been reached at either. */
  lemma SentWhenReached(d: Display, q: Queue, beam: Beam)
    ensures var r := SetVline(d, q, beam); var n := |q.list| - |r.list|;
            && n >= 0 && r.list == q.list[n..] && |r.sent| == |q.sent| + n && r.sent[..|q.sent|] == q.sent
            && (forall j :: 0 <= j < n ==> r.sent[|q.sent| + j].signal == q.list[j] && Reached(d, q.list[j], beam, j))
            && (r.list != [] ==> !Reached(d, r.list[0], beam, n))
  {
    hide DueCount, Reached;
    DueReached(d, q.list, beam, 0);
  }

  lemma MarkerLeft(list: seq<Signal>, n: nat)
    requires n <= |list| && OneMarker(list) && NoMarker(list[..n])
    ensures OneMarker(list[n..])
  {
    var k: nat :| MarkerAt(list, k);
    forall j | 0 <= j < n
      ensures !list[j].marker
    {
      assert list[..n][j] == list[j];
    }
    assert MarkerAt(list[n..], k - n);
  }

  lemma SetVlineSound(d: Display, q: Queue, beam: Beam)
    requires WithinField(d, beam) && Sound(q)
    ensures Sound(SetVline(d, q, beam))
  {
    SetVlineKeeps(d, q, beam);
    MarkerLeft(q.list, DueCount(d, q.list, beam, 0));
  }

  // ---- the handlers ----

  lemma InstallSound(d: Display, q: Queue, s: Signal, beam: Beam)
    requires WithinField(d, beam) && Sound(q) && !s.marker && InTime(s, q.field)
    ensures Sound(Install(d, q, s, beam))
  {
    hide InTime, OneMarker, Insert, SetVline;
    var i := InsertKeeps(q.list, s, q.field);
    MarkerKept(q.list, Insert(q.list, s), s, i);
    SetVlineSound(d, q.(list := Insert(q.list, s)), beam);
  }

  /** What is left when a signal is taken out. */
  lemma RemovedKeeps(list: seq<Signal>, r: seq<Signal>, s: Signal, i: nat, field: nat)
    requires Inserted(list, r, s, i) && Sorted(r) && Timed(r, field)
    ensures Sorted(list) && Timed(list, field)
  {
    hide InTime;
    forall j | 0 <= j < |list|
      ensures list[j] == r[if j < i then j else j + 1]
    {
    }
  }

  lemma WithoutInserted(r: seq<Signal>, i: nat)
    requires i < |r|
    ensures Inserted(Without(r, i), r, r[i], i)
  {
  }

  lemma RemoveSound(d: Display, q: Queue, i: nat, beam: Beam)
    requires WithinField(d, beam) && Sound(q) && i < |q.list| && !q.list[i].marker
    ensures Sound(Remove(d, q, i, beam))
  {
    hide Timed, Sorted, SetVline, Without, OneMarker, Inserted;
    var list := Without(q.list, i);
    WithoutInserted(q.list, i);
    RemovedKeeps(list, q.list, q.list[i], i, q.field);
    MarkerStays(list, q.list, q.list[i], i);
    if i == 0 { SetVlineSound(d, q.(list := list), beam); }
  }

  lemma LessExact(line: nat)
    requires FIELD_INCREMENT <= line < LINE_WORD
    ensures Less(line) == line - FIELD_INCREMENT
  {
  }

  /** With the marker first, everything else is for the next field: decrementing the lines does not wrap, and
      makes it this field's. */
  lemma MarkerFirst(q: Queue)
    requires Sound(q) && q.list != [] && q.list[0].marker
    ensures forall i :: 0 < i < |q.list| ==> FIELD_INCREMENT <= q.list[i].line < FIELD_INCREMENT + LI_LINE_MASK
    ensures var r := Decremented(q.list[1..]); Sorted(r) && Timed(r, q.field + 1) && NoMarker(r)
  {
    var k: nat :| MarkerAt(q.list, k);
    var rest := q.list[1..];
    forall i | 0 < i < |q.list|
      ensures FIELD_INCREMENT <= q.list[i].line < FIELD_INCREMENT + LI_LINE_MASK && !q.list[i].marker
      ensures rest[i - 1] == q.list[i] && Less(q.list[i].line) == q.list[i].line - FIELD_INCREMENT
    {
      assert q.list[0].line <= q.list[i].line;
      LessExact(q.list[i].line);
    }
    hide Less;
    forall i | 0 <= i < |rest|
      ensures Decremented(rest)[i].line == rest[i].line - FIELD_INCREMENT && rest[i] == q.list[i + 1]
    {
    }
  }

  lemma BeamSound(d: Display, q: Queue, beam: Beam, again: Beam)
    requires WithinField(d, beam) && WithinField(d, again) && Sound(q) && q.list != []
    ensures Sound(BeamInterrupt(d, q, beam, again))
  {
    hide InTime, Insert, SetVline, Decremented;
    if q.list[0].marker {
      MarkerFirst(q);
      var m, q1 := q.list[0], Queue(Decremented(q.list[1..]), q.sent, q.field + 1);
      SetVlineKeeps(d, q1, beam);
      var q2 := SetVline(d, q1, beam);
      assert NoMarker(q2.list);
      var i := InsertKeeps(q2.list, m, q2.field);
      MarkerAdded(q2.list, Insert(q2.list, m), m, i);
      SetVlineSound(d, q2.(list := Insert(q2.list, m)), again);
    } else {
      SetVlineSound(d, q, beam);
    }
  }

  // ---- no signal lost, none sent twice ----

  function Count(list: seq<Signal>, id: int): nat
  {
    if list == [] then 0 else Count(list[..|list| - 1], id) + (if list[|list| - 1].id == id then 1 else 0)
  }

  function Signals(sent: seq<Sent>): (r: seq<Signal>)
    ensures |r| == |sent| && forall i :: 0 <= i < |r| ==> r[i] == sent[i].signal
  {
    seq(|sent|, i requires 0 <= i < |sent| => sent[i].signal)
  }

  /** How often a signal waits or has been sent. */
  function Held(q: Queue, id: int): nat { Count(q.list, id) + Count(Signals(q.sent), id) }

  lemma {:induction false} CountTwo(a: seq<Signal>, b: seq<Signal>, id: int)
    ensures Count(a + b, id) == Count(a, id) + Count(b, id)
    decreases |b|
  {
    if b == [] {
      assert a + b == a;
    } else {
      CountTwo(a, b[..|b| - 1], id);
      assert (a + b)[..|a + b| - 1] == a + b[..|b| - 1];
    }
  }

  lemma CountOne(s: Signal, id: int)
    ensures Count([s], id) == if s.id == id then 1 else 0
  {
    assert [s][..0] == [];
  }

  lemma {:induction false} CountInsert(list: seq<Signal>, s: Signal, id: int)
    ensures Count(Insert(list, s), id) == Count(list, id) + (if s.id == id then 1 else 0)
    decreases |list|
  {
    CountOne(s, id);
    if list == [] || list[0].line > s.line {
      CountTwo([s], list, id);
    } else {
      CountInsert(list[1..], s, id);
      CountTwo([list[0]], Insert(list[1..], s), id);
      CountTwo([list[0]], list[1..], id);
      assert [list[0]] + list[1..] == list;
    }
  }

  lemma CountWithout(list: seq<Signal>, i: nat, id: int)
    requires i < |list|
    ensures Count(Without(list, i), id) == Count(list, id) - (if list[i].id == id then 1 else 0)
  {
    CountTwo(list[..i], list[i + 1..], id);
    CountTwo(list[..i], [list[i]], id);
    CountTwo(list[..i] + [list[i]], list[i + 1..], id);
    CountOne(list[i], id);
    assert list[..i] + [list[i]] + list[i + 1..] == list;
  }

  lemma {:induction false} CountAlike(a: seq<Signal>, b: seq<Signal>, id: int)
    requires |a| == |b| && forall i :: 0 <= i < |a| ==> a[i].id == b[i].id
    ensures Count(a, id) == Count(b, id)
    decreases |a|
  {
    if a != [] { CountAlike(a[..|a| - 1], b[..|b| - 1], id); }
  }

  lemma SetVlineHeld(d: Display, q: Queue, beam: Beam, id: int)
    ensures Held(SetVline(d, q, beam), id) == Held(q, id)
  {
    var n := DueCount(d, q.list, beam, 0);
    var s := Dispatched(q.list, n, q.field);
    assert Signals(q.sent + s) == Signals(q.sent) + Signals(s);
    assert Signals(s) == q.list[..n];
    CountTwo(Signals(q.sent), q.list[..n], id);
    CountTwo(q.list[..n], q.list[n..], id);
    assert q.list[..n] + q.list[n..] == q.list;
  }

  lemma InstallHeld(d: Display, q: Queue, s: Signal, beam: Beam, id: int)
    ensures Held(Install(d, q, s, beam), id) == Held(q, id) + (if s.id == id then 1 else 0)
  {
    CountInsert(q.list, s, id);
    SetVlineHeld(d, q.(list := Insert(q.list, s)), beam, id);
  }

  lemma RemoveHeld(d: Display, q: Queue, i: nat, beam: Beam, id: int)
    requires i < |q.list|
    ensures Held(Remove(d, q, i, beam), id) == Held(q, id) - (if q.list[i].id == id then 1 else 0)
  {
    CountWithout(q.list, i, id);
    SetVlineHeld(d, q.(list := Without(q.list, i)), beam, id);
  }

  lemma BeamHeld(d: Display, q: Queue, beam: Beam, again: Beam, id: int)
    requires q.list != []
    ensures Held(BeamInterrupt(d, q, beam, again), id) == Held(q, id)
  {
    hide Count, SetVline, Install;
    SetVlineHeld(d, q, beam, id);
    if q.list[0].marker {
      var q1 := Queue(Decremented(q.list[1..]), q.sent, q.field + 1);
      SetVlineHeld(d, q1, beam, id);
      InstallHeld(d, SetVline(d, q1, beam), q.list[0], again, id);
      CountAlike(q.list[1..], q1.list, id);
      CountHead(q.list, id);
    }
  }

  lemma CountHead(list: seq<Signal>, id: int)
    requires list != []
    ensures Count(list, id) == Count(list[1..], id) + (if list[0].id == id then 1 else 0)
  {
    CountTwo([list[0]], list[1..], id);
    CountOne(list[0], id);
    assert [list[0]] + list[1..] == list;
  }

  // ---- runs ----

  datatype Event =
    | Installed(signal: Signal, beam: Beam)
    | Removed(at: nat, beam: Beam)
    | Interrupt(beam: Beam, again: Beam)

  ghost predicate Allowed(d: Display, q: Queue, e: Event)
  {
    match e
    case Installed(s, beam) => WithinField(d, beam) && !s.marker && InTime(s, q.field)
    case Removed(i, beam) => WithinField(d, beam) && i < |q.list| && !q.list[i].marker
    case Interrupt(beam, again) => WithinField(d, beam) && WithinField(d, again)
  }

  function Step(d: Display, q: Queue, e: Event): Queue
  {
    match e
    case Installed(s, beam) => Install(d, q, s, beam)
    case Removed(i, beam) => if i < |q.list| then Remove(d, q, i, beam) else q
    case Interrupt(beam, again) => if q.list != [] then BeamInterrupt(d, q, beam, again) else q
  }

  /** The marker alone. */
  function Start(): Queue { Queue([Signal(-1, LI_LINE_MASK, true, 0)], [], 0) }

  function Run(d: Display, es: seq<Event>): Queue
  {
    if es == [] then Start() else Step(d, Run(d, es[..|es| - 1]), es[|es| - 1])
  }

  ghost predicate AllAllowed(d: Display, es: seq<Event>)
  {
    es == [] || (AllAllowed(d, es[..|es| - 1]) && Allowed(d, Run(d, es[..|es| - 1]), es[|es| - 1]))
  }

  /** Times installed less times taken out again. */
  function Installs(d: Display, es: seq<Event>, id: int): int
  {
    if es == [] then 0
    else
      Installs(d, es[..|es| - 1], id) +
      match es[|es| - 1]
      case Installed(s, _) => if s.id == id then 1 else 0
      case Removed(i, _) =>
        var list := Run(d, es[..|es| - 1]).list;
        if i < |list| && list[i].id == id then -1 else 0
      case Interrupt(_, _) => 0
  }

  lemma SoundMarker(q: Queue)
    requires Sound(q)
    ensures q.list != []
  {
  }

  lemma {:induction false} RunSound(d: Display, es: seq<Event>)
    requires AllAllowed(d, es)
    ensures Sound(Run(d, es))
  {
    hide Sound, Install, Remove, BeamInterrupt;
    if es == [] {
      StartSound();
    } else {
      var q := Run(d, es[..|es| - 1]);
      RunSound(d, es[..|es| - 1]);
      SoundMarker(q);
      match es[|es| - 1]
      case Installed(s, beam) => InstallSound(d, q, s, beam);
      case Removed(i, beam) => RemoveSound(d, q, i, beam);
      case Interrupt(beam, again) => BeamSound(d, q, beam, again);
    }
  }

  lemma StartSound()
    ensures Sound(Start())
  {
    assert MarkerAt(Start().list, 0);
  }

  lemma {:induction false} RunHeld(d: Display, es: seq<Event>, id: int)
    requires AllAllowed(d, es) && id >= 0
    ensures Held(Run(d, es), id) == Installs(d, es, id)
    decreases |es|
  {
    hide Held, Install, Remove, BeamInterrupt, Allowed;
    if es == [] {
      StartHeld(id);
    } else {
      var q := Run(d, es[..|es| - 1]);
      RunHeld(d, es[..|es| - 1], id);
      match es[|es| - 1]
      case Installed(s, beam) => InstallHeld(d, q, s, beam, id);
      case Removed(i, beam) => if i < |q.list| { RemoveHeld(d, q, i, beam, id); }
      case Interrupt(beam, again) => if q.list != [] { BeamHeld(d, q, beam, again, id); }
    }
  }

  lemma StartHeld(id: int)
    requires id >= 0
    ensures Held(Start(), id) == 0
  {
    CountOne(Start().list[0], id);
    assert Signals([]) == [];
  }

  /** Over any run, a signal installed and not taken out again waits in the list or has been sent, once. */
  lemma SentOnce(d: Display, es: seq<Event>, id: int)
    requires AllAllowed(d, es) && id >= 0 && Installs(d, es, id) == 1
    ensures var q := Run(d, es); Count(q.list, id) + Count(Signals(q.sent), id) == 1
  {
    RunHeld(d, es, id);
  }

  /** A signal is sent in the field it was installed for, and in no other: one for the next field only after
      the marker has been processed. */
  lemma SentInItsField(d: Display, es: seq<Event>, i: nat)
    requires AllAllowed(d, es) && i < |Run(d, es).sent|
    ensures var s := Run(d, es).sent[i]; !s.signal.marker && s.field == s.signal.due
  {
    RunSound(d, es);
  }

  /** Between handlers the list is in order, with one marker. */
  lemma ListInOrder(d: Display, es: seq<Event>)
    requires AllAllowed(d, es)
    ensures Sorted(Run(d, es).list) && OneMarker(Run(d, es).list)
  {
    RunSound(d, es);
  }

  // ---- in place ----

  class PerProj {
    const display: Display
    var sigList: seq<Signal>
    var sent: seq<Sent>
    var field: nat

    ghost function Model(): Queue
      reads this
    {
      Queue(sigList, sent, field)
    }

    constructor (d: Display)
      ensures Model() == Start() && display == d
    {
      display := d;
      sigList, sent, field := [Signal(-1, LI_LINE_MASK, true, 0)], [], 0;
    }

    /** Sends signals off the head of the list until one is not due at either look at the beam. */
    method SetVline0(beam: Beam)
      modifies this`sigList, this`sent
      ensures Model() == SetVline(display, old(Model()), beam)
    {
      ghost var all, before := sigList, sent;
      var k := 0;
      while sigList != []
        invariant 0 <= k <= |all| && sigList == all[k..] && sent == before + Dispatched(all, k, field)
        invariant DueCount(display, all, beam, 0) == k + DueCount(display, sigList, beam, k)
        decreases |sigList|
      {
        var trig := DispToHw(display, sigList[0].line);
        if beam(k).0 < trig && beam(k).1 < trig { break; }
        assert Dispatched(all, k + 1, field) == Dispatched(all, k, field) + [Sent(all[k], field)];
        sent := sent + [Sent(sigList[0], field)];
        sigList := sigList[1..];
        k := k + 1;
      }
      assert sent == before + Dispatched(all, k, field);
    }

    method InstallLineIntr(s: Signal, beam: Beam)
      modifies this`sigList, this`sent
      ensures Model() == Install(display, old(Model()), s, beam)
    {
      UniversalInsertNode(s);
      if sigList[0] == s {
        SetVline0(beam);
      }
    }

    method UniversalInsertNode(s: Signal)
      modifies this`sigList
      ensures sigList == Insert(old(sigList), s)
    {
      var i := 0;
      assert sigList[0..] == sigList && [] + Insert(sigList, s) == Insert(sigList, s);
      while i < |sigList| && sigList[i].line <= s.line
        invariant 0 <= i <= |sigList| && sigList == old(sigList)
        invariant sigList[..i] + Insert(sigList[i..], s) == Insert(sigList, s)
        decreases |sigList| - i
      {
        assert sigList[i..][1..] == sigList[i + 1..] && sigList[..i + 1] == sigList[..i] + [sigList[i]];
        assert sigList[..i] + ([sigList[i]] + Insert(sigList[i + 1..], s)) == sigList[..i + 1] + Insert(sigList[i + 1..], s);
        i := i + 1;
      }
      sigList := sigList[..i] + ([s] + sigList[i..]);
    }

    method RemoveLineIntr(i: nat, beam: Beam)
      requires i < |sigList|
      modifies this`sigList, this`sent
      ensures Model() == Remove(display, old(Model()), i, beam)
    {
      sigList := sigList[..i] + sigList[i + 1..];
      if i == 0 {
        SetVline0(beam);
      }
    }

    method BeamFIRQ(beam: Beam, again: Beam)
      requires sigList != []
      modifies this
      ensures Model() == BeamInterrupt(display, old(Model()), beam, again)
    {
      var head := sigList[0];
      if head.marker {
        sigList := sigList[1..];
        field := field + 1;
        Decrement();
      }
      SetVline0(beam);
      if head.marker {
        InstallLineIntr(head, again);
      }
    }

    /** Decrement all field counts. */
    method Decrement()
      modifies this`sigList
      ensures sigList == Decremented(old(sigList))
    {
      ghost var all := sigList;
      for i := 0 to |sigList|
        invariant |sigList| == |all|
        invariant forall j :: 0 <= j < i ==> sigList[j] == all[j].(line := Less(all[j].line))
        invariant forall j :: i <= j < |all| ==> sigList[j] == all[j]
      {
        sigList := sigList[i := sigList[i].(line := Less(sigList[i].line))];
      }
    }
  }
}
