/** Requests that wait for a time: a list sorted by target, with metronomes that go back into it. */
module TimerQueue {
  import opened Options

  /** An IOReq with its target and interval; start is when it was asked for, pings how often it has been given. */
  datatype Waiter = Waiter(id: int, target: nat, interval: nat, metronome: bool, start: nat, pings: nat)

  datatype Outcome = Done(at: nat) | Unreachable | Aborted | BadIoArg

  datatype Completion = Completion(id: int, outcome: Outcome)

  /** The nth ping (from 1) of a metronome, when it was due and when it was given. */
  datatype Ping = Ping(id: int, nth: nat, start: nat, interval: nat, due: nat, given: nat)

  /** The hardware timer, loaded with so many ticks at a time. */
  datatype Load = Load(at: nat, ticks: nat)

  datatype Queue = Queue(list: seq<Waiter>, completed: seq<Completion>, pings: seq<Ping>, loaded: Option<Load>)

  /** Whether a client can still be signalled. */
  type Clients = int -> bool

  // ---- one pass over the queue ----

  /** UniversalInsertNode with CmpTicks: behind everything that is not later. */
  function Insert(list: seq<Waiter>, w: Waiter): (r: seq<Waiter>)
    ensures |r| == |list| + 1
  {
    if list == [] || list[0].target > w.target then [w] + list else [list[0]] + Insert(list[1..], w)
  }

  /** A metronome's next turn. */
  function Next(w: Waiter): Waiter { w.(target := w.target + w.interval, pings := w.pings + 1) }

  /** One round of the loop, on a head that is due. */
  function Round(q: Queue, now: nat, clients: Clients): Queue
    requires q.list != []
  {
    var w, rest := q.list[0], q.list[1..];
    if w.metronome && clients(w.id) then
      q.(list := Insert(rest, Next(w)), pings := q.pings + [Ping(w.id, w.pings + 1, w.start, w.interval, w.target, now)])
    else q.(list := rest, completed := q.completed + [Completion(w.id, if w.metronome then Unreachable else Done(now))])
  }

  /** A metronome that is due, reaches its client and gains nothing. */
  predicate Stuck(w: Waiter, now: nat, clients: Clients)
  {
    w.metronome && w.interval == 0 && w.target <= now && clients(w.id)
  }

  predicate Ends(list: seq<Waiter>, now: nat, clients: Clients)
  {
    forall w :: w in list ==> !Stuck(w, now, clients)
  }

  /** Time the targets are behind, in ticks, one more for every target that is due. */
  function Behind(list: seq<Waiter>, now: nat): nat
  {
    if list == [] then 0 else Behind(list[..|list| - 1], now) + Late(list[|list| - 1], now)
  }

  function Late(w: Waiter, now: nat): nat { if w.target <= now then now - w.target + 1 else 0 }

  lemma {:induction false} BehindTwo(a: seq<Waiter>, b: seq<Waiter>, now: nat)
    ensures Behind(a + b, now) == Behind(a, now) + Behind(b, now)
    decreases |b|
  {
    if b == [] {
      assert a + b == a;
    } else {
      BehindTwo(a, b[..|b| - 1], now);
      assert (a + b)[..|a + b| - 1] == a + b[..|b| - 1];
    }
  }

  lemma BehindOne(w: Waiter, now: nat)
    ensures Behind([w], now) == Late(w, now)
  {
    assert [w][..0] == [];
  }

  lemma BehindHead(list: seq<Waiter>, now: nat)
    requires list != []
    ensures Behind(list, now) == Late(list[0], now) + Behind(list[1..], now)
  {
    BehindTwo([list[0]], list[1..], now);
    BehindOne(list[0], now);
    assert [list[0]] + list[1..] == list;
  }

  lemma {:induction false} BehindInsert(list: seq<Waiter>, w: Waiter, now: nat)
    ensures Behind(Insert(list, w), now) == Behind(list, now) + Late(w, now)
    decreases |list|
  {
    if list == [] || list[0].target > w.target {
      BehindHead([w] + list, now);
      assert ([w] + list)[1..] == list;
    } else {
      BehindInsert(list[1..], w, now);
      BehindHead(list, now);
      BehindHead(Insert(list, w), now);
      assert Insert(list, w)[1..] == Insert(list[1..], w);
    }
  }

  lemma {:induction false} InsertMembers(list: seq<Waiter>, w: Waiter, x: Waiter)
    ensures x in Insert(list, w) <==> x == w || x in list
    decreases |list|
  {
    if list != [] && list[0].target <= w.target {
      InsertMembers(list[1..], w, x);
      assert list == [list[0]] + list[1..];
    }
  }

  lemma InsertEnds(list: seq<Waiter>, w: Waiter, now: nat, clients: Clients)
    ensures Ends(Insert(list, w), now, clients) <==> Ends(list, now, clients) && !Stuck(w, now, clients)
  {
    hide Stuck, Insert;
    forall x: Waiter
      ensures x in Insert(list, w) <==> x == w || x in list
    {
      InsertMembers(list, w, x);
    }
  }

  predicate Halted(q: Queue, now: nat) { q.list == [] || q.list[0].target > now }

  /** With the clock standing still, every round brings the queue nearer to the clock. */
  lemma RoundProgress(q: Queue, now: nat, clients: Clients)
    requires !Halted(q, now) && Ends(q.list, now, clients)
    ensures Behind(Round(q, now, clients).list, now) < Behind(q.list, now) && Ends(Round(q, now, clients).list, now, clients)
  {
    var w := q.list[0];
    assert !Stuck(w, now, clients);
    BehindHead(q.list, now);
    BehindInsert(q.list[1..], Next(w), now);
    InsertEnds(q.list[1..], Next(w), now, clients);
  }

  /** ProcessUSecWaiters, the clock standing at now. */
  function Process(q: Queue, now: nat, clients: Clients): Queue
    requires Ends(q.list, now, clients)
    decreases Behind(q.list, now)
  {
    if q.list == [] then q
    else if q.list[0].target <= now then
      RoundProgress(q, now, clients);
      Process(Round(q, now, clients), now, clients)
    else q.(loaded := Some(Load(now, q.list[0].target - now)))
  }

  // ---- when a pass ends ----

  /** Up to n rounds of the loop, whatever the queue. */
  function Rounds(q: Queue, now: nat, clients: Clients, n: nat): Queue
    decreases n
  {
    if n == 0 || Halted(q, now) then q else Rounds(Round(q, now, clients), now, clients, n - 1)
  }

  predicate HaltsAfter(q: Queue, now: nat, clients: Clients, n: nat) { Halted(Rounds(q, now, clients, n), now) }

  lemma {:induction false} EnoughRounds(q: Queue, now: nat, clients: Clients, n: nat)
    requires Ends(q.list, now, clients) && n >= Behind(q.list, now)
    ensures Halted(Rounds(q, now, clients, n), now)
    decreases n
  {
    if !Halted(q, now) {
      RoundProgress(q, now, clients);
      EnoughRounds(Round(q, now, clients), now, clients, n - 1);
    }
  }

  /** A stuck metronome is still there after a round, as stuck as before. */
  lemma StuckStays(q: Queue, now: nat, clients: Clients)
    requires Sorted(q.list) && !Ends(q.list, now, clients)
    ensures !Halted(q, now) && Sorted(Round(q, now, clients).list) && !Ends(Round(q, now, clients).list, now, clients)
  {
    var w, rest := q.list[0], q.list[1..];
    var x :| x in q.list && Stuck(x, now, clients);
    assert w.target <= x.target;
    InsertEnds(rest, Next(w), now, clients);
    InsertSorted(rest, Next(w));
    assert q.list == [w] + rest;
    if x == w { assert Stuck(Next(w), now, clients); } else { assert x in rest; }
  }

  lemma {:induction false} NeverHalts(q: Queue, now: nat, clients: Clients, n: nat)
    requires Sorted(q.list) && !Ends(q.list, now, clients)
    ensures !Halted(Rounds(q, now, clients, n), now)
    decreases n
  {
    StuckStays(q, now, clients);
    if n > 0 { NeverHalts(Round(q, now, clients), now, clients, n - 1); }
  }

  /** With the clock standing still a pass over the queue ends exactly when every metronome that is due and reaches
      its client has an interval above 0. */
  lemma EndsExactly(q: Queue, now: nat, clients: Clients)
    requires Sorted(q.list)
    ensures (exists n: nat :: HaltsAfter(q, now, clients, n)) <==> Ends(q.list, now, clients)
  {
    if Ends(q.list, now, clients) {
      var n := Behind(q.list, now);
      EnoughRounds(q, now, clients, n);
      assert HaltsAfter(q, now, clients, n);
    } else {
      forall n: nat
        ensures !HaltsAfter(q, now, clients, n)
      {
        NeverHalts(q, now, clients, n);
      }
    }
  }

  // ---- requests ----

  datatype Time = Time(seconds: nat, micros: nat)

  function Ticks(t: Time): nat { t.seconds * 1000000 + t.micros }

  /** masked tells whether a metronome's signals are all allowed ones. */
  datatype Kind = Delay | Metronome(masked: bool) | Until

  /** sized tells whether the caller's buffer holds a TimeVal. */
  datatype Request = Request(id: int, kind: Kind, time: Time, sized: bool)

  predicate Accepts(r: Request)
  {
    r.sized && r.time.micros <= 1000000 && (r.kind.Metronome? ==> r.kind.masked)
  }

  function Admitted(r: Request, now: nat): Waiter
  {
    if r.kind.Until? then Waiter(r.id, Ticks(r.time), 0, false, now, 0)
    else Waiter(r.id, now + Ticks(r.time), Ticks(r.time), r.kind.Metronome?, now, 0)
  }

  /** The pass that follows comes to an end. */
  predicate CanAsk(q: Queue, r: Request, now: nat, clients: Clients)
  {
    Accepts(r) ==> Ends(q.list, now, clients) && !Stuck(Admitted(r, now), now, clients)
  }

  /** CmdDelayUSec, CmdMetronomeUSec and CmdDelayUntilUSec. */
  function Ask(q: Queue, r: Request, now: nat, clients: Clients): Queue
    requires CanAsk(q, r, now, clients)
  {
    if Accepts(r) then
      InsertEnds(q.list, Admitted(r, now), now, clients);
      Process(q.(list := Insert(q.list, Admitted(r, now))), now, clients)
    else q.(completed := q.completed + [Completion(r.id, BadIoArg)])
  }

  /** AbortTimerIO, for the waiter at place i; the timer is left alone. */
  function Abort(q: Queue, i: nat): Queue
    requires i < |q.list|
  {
    q.(list := q.list[..i] + q.list[i + 1..], completed := q.completed + [Completion(q.list[i].id, Aborted)])
  }

  // ---- order and rhythm ----

  predicate Sorted(list: seq<Waiter>) { forall i, j :: 0 <= i < j < |list| ==> list[i].target <= list[j].target }

  /** When the nth ping is due. */
  function Due(start: nat, interval: nat, n: nat): nat { start + n * interval }

  lemma DueNext(start: nat, interval: nat, n: nat)
    ensures Due(start, interval, n) + interval == Due(start, interval, n + 1)
  {
  }

  function PingsOf(ps: seq<Ping>, id: int): nat
  {
    if ps == [] then 0 else PingsOf(ps[..|ps| - 1], id) + (if ps[|ps| - 1].id == id then 1 else 0)
  }

  /** A metronome's target is its next turn, and all its pings so far are on record. */
  predicate InRhythm(w: Waiter, ps: seq<Ping>)
  {
    && PingsOf(ps, w.id) == w.pings
    && (w.metronome ==> w.target == Due(w.start, w.interval, w.pings + 1))
    && (!w.metronome ==> w.pings == 0)
  }

  predicate Unique(list: seq<Waiter>) { forall i, j :: 0 <= i < j < |list| ==> list[i].id != list[j].id }

  /** A ping in its turn: numbered on from the earlier ones, due so many intervals after the start, not given before. */
  predicate OnTime(p: Ping, earlier: seq<Ping>)
  {
    p.nth == PingsOf(earlier, p.id) + 1 && p.due == Due(p.start, p.interval, p.nth) <= p.given
  }

  predicate AllOnTime(ps: seq<Ping>) { forall i :: 0 <= i < |ps| ==> OnTime(ps[i], ps[..i]) }

  predicate AllInRhythm(list: seq<Waiter>, ps: seq<Ping>) { forall i :: 0 <= i < |list| ==> InRhythm(list[i], ps) }

  /** Who has been given a ping waits or is done. */
  predicate PingsHeld(q: Queue) { forall i :: 0 <= i < |q.pings| ==> Held(q, q.pings[i].id) > 0 }

  predicate Sound(q: Queue)
  {
    Sorted(q.list) && Unique(q.list) && AllInRhythm(q.list, q.pings) && AllOnTime(q.pings) && PingsHeld(q)
  }

  lemma InsertLater(list: seq<Waiter>, w: Waiter, i: nat)
    requires i < |list| && list[i].target <= w.target
    ensures list[..i] + Insert(list[i..], w) == list[..i + 1] + Insert(list[i + 1..], w)
  {
    assert list[i..][1..] == list[i + 1..] && list[..i + 1] == list[..i] + [list[i]];
  }

  lemma InsertHere(list: seq<Waiter>, w: Waiter)
    requires list != [] ==> list[0].target > w.target
    ensures Insert(list, w) == [w] + list
  {
  }

  predicate Inserted(list: seq<Waiter>, r: seq<Waiter>, w: Waiter, i: nat)
  {
    && |r| == |list| + 1 && i <= |list| && r[i] == w
    && (forall j :: 0 <= j < i ==> r[j] == list[j])
    && (forall j :: i < j < |r| ==> r[j] == list[j - 1])
  }

  lemma {:induction false} InsertAt(list: seq<Waiter>, w: Waiter) returns (i: nat)
    requires Sorted(list)
    ensures Inserted(list, Insert(list, w), w, i)
    ensures forall j :: 0 <= j < |list| ==> (j < i <==> list[j].target <= w.target)
    decreases |list|
  {
    if list == [] || list[0].target > w.target {
      i := 0;
    } else {
      var k := InsertAt(list[1..], w);
      i := k + 1;
      forall j | 0 <= j < |list|
        ensures j < i <==> list[j].target <= w.target
      {
        if j > 0 { assert list[j] == list[1..][j - 1]; }
      }
    }
  }

  lemma InsertSorted(list: seq<Waiter>, w: Waiter)
    requires Sorted(list)
    ensures Sorted(Insert(list, w))
  {
    hide Insert;
    var i := InsertAt(list, w);
  }

  lemma InsertSound(list: seq<Waiter>, w: Waiter, ps: seq<Ping>)
    requires Sorted(list) && Unique(list) && AllInRhythm(list, ps)
    requires InRhythm(w, ps) && forall i :: 0 <= i < |list| ==> list[i].id != w.id
    ensures var r := Insert(list, w); Sorted(r) && Unique(r) && AllInRhythm(r, ps)
  {
    hide InRhythm, Insert;
    var i := InsertAt(list, w);
  }

  lemma PingOthers(ps: seq<Ping>, p: Ping, id: int)
    ensures PingsOf(ps + [p], id) == PingsOf(ps, id) + (if p.id == id then 1 else 0)
  {
    assert (ps + [p])[..|ps|] == ps;
  }

  lemma OnTimeMore(ps: seq<Ping>, p: Ping)
    requires AllOnTime(ps) && OnTime(p, ps)
    ensures AllOnTime(ps + [p])
  {
    hide OnTime;
    forall i | 0 <= i < |ps| + 1
      ensures OnTime((ps + [p])[i], (ps + [p])[..i])
    {
      assert (ps + [p])[..i] == ps[..i];
    }
  }

  lemma TailSound(q: Queue)
    requires Sound(q) && q.list != []
    ensures var rest := q.list[1..];
            && Sorted(rest) && Unique(rest) && AllInRhythm(rest, q.pings)
            && forall i :: 0 <= i < |rest| ==> rest[i].id != q.list[0].id
  {
    hide InRhythm, AllOnTime, PingsHeld;
    var rest := q.list[1..];
    forall i | 0 <= i < |rest|
      ensures rest[i] == q.list[i + 1]
    {
    }
  }

  lemma RoundSound(q: Queue, now: nat, clients: Clients)
    requires Sound(q) && !Halted(q, now)
    ensures Sound(Round(q, now, clients))
  {
    hide Held, Due, Insert, OnTime;
    TailSound(q);
    RoundPings(q, now, clients);
    var w, rest := q.list[0], q.list[1..];
    if w.metronome && clients(w.id) {
      var p := Ping(w.id, w.pings + 1, w.start, w.interval, w.target, now);
      assert OnTime(p, q.pings) by { NextOnTime(w, q.pings, now); }
      OnTimeMore(q.pings, p);
      PingOthers(q.pings, p, w.id);
      forall i | 0 <= i < |rest|
        ensures InRhythm(rest[i], q.pings + [p])
      {
        PingOthers(q.pings, p, rest[i].id);
      }
      DueNext(w.start, w.interval, w.pings + 1);
      InsertSound(rest, Next(w), q.pings + [p]);
    }
  }

  lemma NextOnTime(w: Waiter, ps: seq<Ping>, now: nat)
    requires InRhythm(w, ps) && w.metronome && w.target <= now
    ensures OnTime(Ping(w.id, w.pings + 1, w.start, w.interval, w.target, now), ps)
  {
  }

  lemma RoundPings(q: Queue, now: nat, clients: Clients)
    requires PingsHeld(q) && q.list != []
    ensures PingsHeld(Round(q, now, clients))
  {
    hide Held, Insert;
    var r := Round(q, now, clients);
    HeldHead(q);
    forall i | 0 <= i < |r.pings|
      ensures Held(r, r.pings[i].id) > 0
    {
      RoundHeld(q, now, clients, r.pings[i].id);
    }
  }

  /** On return nothing is due: the list is empty, or the timer is loaded with what is left to the first target. */
  predicate Settled(q: Queue, now: nat)
  {
    && (forall i :: 0 <= i < |q.list| ==> q.list[i].target > now)
    && (q.list != [] ==> q.loaded == Some(Load(now, q.list[0].target - now)))
  }

  lemma {:induction false} ProcessSound(q: Queue, now: nat, clients: Clients)
    requires Sound(q) && Ends(q.list, now, clients)
    ensures Sound(Process(q, now, clients)) && Settled(Process(q, now, clients), now)
    decreases Behind(q.list, now)
  {
    hide Round, Behind, Unique, AllInRhythm, AllOnTime;
    if q.list != [] && q.list[0].target <= now {
      RoundProgress(q, now, clients);
      RoundSound(q, now, clients);
      ProcessSound(Round(q, now, clients), now, clients);
    } else {
      LoadedHeld(q, now);
    }
  }

  lemma LoadedHeld(q: Queue, now: nat)
    ensures forall load :: PingsHeld(q.(loaded := load)) == PingsHeld(q)
  {
    forall load
      ensures PingsHeld(q.(loaded := load)) == PingsHeld(q)
    {
      assert forall id :: Held(q.(loaded := load), id) == Held(q, id);
    }
  }

  // ---- no request lost ----

  function Count(list: seq<Waiter>, id: int): nat
  {
    if list == [] then 0 else Count(list[..|list| - 1], id) + (if list[|list| - 1].id == id then 1 else 0)
  }

  function CountDone(cs: seq<Completion>, id: int): nat
  {
    if cs == [] then 0 else CountDone(cs[..|cs| - 1], id) + (if cs[|cs| - 1].id == id then 1 else 0)
  }

  function Held(q: Queue, id: int): nat { Count(q.list, id) + CountDone(q.completed, id) }

  lemma {:induction false} CountTwo(a: seq<Waiter>, b: seq<Waiter>, id: int)
    ensures Count(a + b, id) == Count(a, id) + Count(b, id)
    decreases |b|
  {
    if b == [] {
      assert a + b == a;
    } else {
      CountTwo(a, b[..|b| - 1], id);
      assert (a + b)[..|a + b| - 1] == a + b[..|b| - 1];
    }
  }

  lemma CountHead(list: seq<Waiter>, id: int)
    requires list != []
    ensures Count(list, id) == Count(list[1..], id) + (if list[0].id == id then 1 else 0)
  {
    CountTwo([list[0]], list[1..], id);
    assert [list[0]][..0] == [] && [list[0]] + list[1..] == list;
    assert Count([list[0]], id) == Count([], id) + (if list[0].id == id then 1 else 0);
  }

  lemma {:induction false} CountInsert(list: seq<Waiter>, w: Waiter, id: int)
    ensures Count(Insert(list, w), id) == Count(list, id) + (if w.id == id then 1 else 0)
    decreases |list|
  {
    if list == [] || list[0].target > w.target {
      CountHead([w] + list, id);
      assert ([w] + list)[1..] == list;
    } else {
      CountInsert(list[1..], w, id);
      CountHead(list, id);
      CountHead(Insert(list, w), id);
      assert Insert(list, w)[1..] == Insert(list[1..], w);
    }
  }

  lemma DoneMore(cs: seq<Completion>, c: Completion, id: int)
    ensures CountDone(cs + [c], id) == CountDone(cs, id) + (if c.id == id then 1 else 0)
  {
    assert (cs + [c])[..|cs|] == cs;
  }

  lemma HeldHead(q: Queue)
    requires q.list != []
    ensures Held(q, q.list[0].id) > 0
  {
    CountHead(q.list, q.list[0].id);
  }

  lemma RoundHeld(q: Queue, now: nat, clients: Clients, id: int)
    requires q.list != []
    ensures Held(Round(q, now, clients), id) == Held(q, id)
  {
    hide Count, CountDone;
    var w := q.list[0];
    CountHead(q.list, id);
    CountInsert(q.list[1..], Next(w), id);
    DoneMore(q.completed, Completion(w.id, if w.metronome then Unreachable else Done(now)), id);
  }

  /** Processing leaves every request waiting or completed, as often as it was before. */
  lemma {:induction false} ProcessHeld(q: Queue, now: nat, clients: Clients, id: int)
    requires Ends(q.list, now, clients)
    ensures Held(Process(q, now, clients), id) == Held(q, id)
    decreases Behind(q.list, now)
  {
    if q.list != [] && q.list[0].target <= now {
      RoundProgress(q, now, clients);
      RoundHeld(q, now, clients, id);
      ProcessHeld(Round(q, now, clients), now, clients, id);
    }
  }

  lemma AskHeld(q: Queue, r: Request, now: nat, clients: Clients, id: int)
    requires CanAsk(q, r, now, clients)
    ensures Held(Ask(q, r, now, clients), id) == Held(q, id) + (if r.id == id then 1 else 0)
  {
    hide Process, Count, CountDone, Ticks, Insert;
    if Accepts(r) {
      InsertEnds(q.list, Admitted(r, now), now, clients);
      CountInsert(q.list, Admitted(r, now), id);
      ProcessHeld(q.(list := Insert(q.list, Admitted(r, now))), now, clients, id);
    } else {
      DoneMore(q.completed, Completion(r.id, BadIoArg), id);
    }
  }

  lemma AbortHeld(q: Queue, i: nat, id: int)
    requires i < |q.list|
    ensures Held(Abort(q, i), id) == Held(q, id)
  {
    CountTwo(q.list[..i], q.list[i..], id);
    CountHead(q.list[i..], id);
    CountTwo(q.list[..i], q.list[i + 1..], id);
    DoneMore(q.completed, Completion(q.list[i].id, Aborted), id);
    assert q.list[..i] + q.list[i..] == q.list && q.list[i..][1..] == q.list[i + 1..];
  }

  lemma Unasked(q: Queue, id: int)
    requires Sound(q) && Held(q, id) == 0
    ensures PingsOf(q.pings, id) == 0 && forall i :: 0 <= i < |q.list| ==> q.list[i].id != id
  {
    NoPings(q.pings, id);
    NotCounted(q.list, id);
  }

  lemma {:induction false} NoPings(ps: seq<Ping>, id: int)
    requires forall i :: 0 <= i < |ps| ==> ps[i].id != id
    ensures PingsOf(ps, id) == 0
  {
    if ps != [] { NoPings(ps[..|ps| - 1], id); }
  }

  lemma {:induction false} NotCounted(list: seq<Waiter>, id: int)
    requires Count(list, id) == 0
    ensures forall i :: 0 <= i < |list| ==> list[i].id != id
  {
    if list != [] {
      NotCounted(list[..|list| - 1], id);
      assert forall i :: 0 <= i < |list| - 1 ==> list[i] == list[..|list| - 1][i];
    }
  }

  /** A new request keeps the queue sound. */
  lemma AskSound(q: Queue, r: Request, now: nat, clients: Clients)
    requires Sound(q) && CanAsk(q, r, now, clients) && Held(q, r.id) == 0
    ensures Sound(Ask(q, r, now, clients)) && (Accepts(r) ==> Settled(Ask(q, r, now, clients), now))
  {
    hide Process, Held, Insert, Ticks, AllOnTime;
    Unasked(q, r.id);
    if Accepts(r) {
      var w := Admitted(r, now);
      var q1 := q.(list := Insert(q.list, w));
      InsertEnds(q.list, w, now, clients);
      InsertSound(q.list, w, q.pings);
      assert PingsHeld(q1) by { InsertHeld(q, w); }
      ProcessSound(q1, now, clients);
    } else {
      RefusedHeld(q, Completion(r.id, BadIoArg));
    }
  }

  lemma InsertHeld(q: Queue, w: Waiter)
    requires PingsHeld(q)
    ensures PingsHeld(q.(list := Insert(q.list, w)))
  {
    forall i | 0 <= i < |q.pings|
      ensures Held(q.(list := Insert(q.list, w)), q.pings[i].id) > 0
    {
      CountInsert(q.list, w, q.pings[i].id);
    }
  }

  lemma RefusedHeld(q: Queue, c: Completion)
    requires PingsHeld(q)
    ensures PingsHeld(q.(completed := q.completed + [c]))
  {
    forall i | 0 <= i < |q.pings|
      ensures Held(q.(completed := q.completed + [c]), q.pings[i].id) > 0
    {
      DoneMore(q.completed, c, q.pings[i].id);
    }
  }

  lemma AbortSound(q: Queue, i: nat)
    requires Sound(q) && i < |q.list|
    ensures Sound(Abort(q, i))
  {
    hide InRhythm, AllOnTime, Held;
    var r := q.list[..i] + q.list[i + 1..];
    forall j | 0 <= j < |r|
      ensures r[j] == q.list[if j < i then j else j + 1]
    {
    }
    forall j | 0 <= j < |q.pings|
      ensures Held(Abort(q, i), q.pings[j].id) > 0
    {
      AbortHeld(q, i, q.pings[j].id);
    }
  }

  // ---- runs ----

  datatype Event = Expired(now: nat, clients: Clients) | Asked(r: Request, now: nat, clients: Clients) | AbortAsked(at: nat)

  /** A pass ends, a request is a new one, and only a waiter is aborted. */
  ghost predicate CanStep(q: Queue, e: Event)
  {
    match e
    case Expired(now, clients) => Ends(q.list, now, clients)
    case Asked(r, now, clients) => CanAsk(q, r, now, clients) && Held(q, r.id) == 0
    case AbortAsked(i) => i < |q.list|
  }

  function Step(q: Queue, e: Event): Queue
    requires CanStep(q, e)
  {
    match e
    case Expired(now, clients) => Process(q, now, clients)
    case Asked(r, now, clients) => Ask(q, r, now, clients)
    case AbortAsked(i) => Abort(q, i)
  }

  /** Nothing waits, and nothing has happened. */
  const EMPTY := Queue([], [], [], None)

  ghost predicate Runs(es: seq<Event>)
    decreases |es|, 0
  {
    es == [] || (Runs(es[..|es| - 1]) && CanStep(RunOf(es[..|es| - 1]), es[|es| - 1]))
  }

  ghost function RunOf(es: seq<Event>): Queue
    requires Runs(es)
    decreases |es|, 1
  {
    if es == [] then EMPTY else Step(RunOf(es[..|es| - 1]), es[|es| - 1])
  }

  /** The timer goes off by the time the first waiter is due. */
  predicate Woken(q: Queue) { q.list != [] ==> q.loaded.Some? && q.loaded.value.at + q.loaded.value.ticks <= q.list[0].target }

  lemma StepSound(q: Queue, e: Event)
    requires Sound(q) && Woken(q) && CanStep(q, e)
    ensures Sound(Step(q, e)) && Woken(Step(q, e))
    ensures e.Expired? || (e.Asked? && Accepts(e.r)) ==> Settled(Step(q, e), e.now)
  {
    hide Process, Unique, AllInRhythm, AllOnTime, PingsHeld, Held, Ends, Ask;
    match e
    case Expired(now, clients) => ProcessSound(q, now, clients);
    case Asked(r, now, clients) =>
      AskSound(q, r, now, clients);
      if !Accepts(r) { Unaccepted(q, r, now, clients); }
    case AbortAsked(i) => AbortSound(q, i);
  }

  lemma Unaccepted(q: Queue, r: Request, now: nat, clients: Clients)
    requires !Accepts(r)
    ensures Ask(q, r, now, clients).list == q.list && Ask(q, r, now, clients).loaded == q.loaded
  {
  }

  /** Whatever is asked for and aborted, and whenever the timer goes off: the list is sorted, every metronome is in
      rhythm, every ping was given in its turn and not early, and the timer is set to go off in time. */
  lemma {:induction false} RunSound(es: seq<Event>)
    requires Runs(es)
    ensures Sound(RunOf(es)) && Woken(RunOf(es))
    decreases |es|
  {
    hide Sound, Woken, Step, CanStep;
    if es == [] {
      EmptySound();
    } else {
      RunSound(es[..|es| - 1]);
      StepSound(RunOf(es[..|es| - 1]), es[|es| - 1]);
    }
  }

  lemma EmptySound()
    ensures Sound(EMPTY) && Woken(EMPTY)
  {
  }

  function Asks(es: seq<Event>, id: int): nat
  {
    if es == [] then 0
    else Asks(es[..|es| - 1], id) + (if es[|es| - 1].Asked? && es[|es| - 1].r.id == id then 1 else 0)
  }

  lemma StepHeld(q: Queue, e: Event, id: int)
    requires CanStep(q, e)
    ensures Held(Step(q, e), id) == Held(q, id) + (if e.Asked? && e.r.id == id then 1 else 0)
  {
    hide Process, Held, Ends, Ask;
    match e
    case Expired(now, clients) => ProcessHeld(q, now, clients, id);
    case Asked(r, now, clients) => AskHeld(q, r, now, clients, id);
    case AbortAsked(i) => AbortHeld(q, i, id);
  }

  /** Every request is at any time either waiting or completed, and that once. */
  lemma {:induction false} OnceOnly(es: seq<Event>, id: int)
    requires Runs(es)
    ensures Held(RunOf(es), id) == Asks(es, id) <= 1
    decreases |es|
  {
    hide Step;
    if es != [] {
      OnceOnly(es[..|es| - 1], id);
      StepHeld(RunOf(es[..|es| - 1]), es[|es| - 1], id);
    }
  }

  // ---- what was asked for ----

  /** The time a request names, or how long from now. */
  function WantedAt(e: Event): nat
    requires e.Asked?
  {
    (if e.r.kind.Until? then 0 else e.now) + e.r.time.seconds * 1000000 + e.r.time.micros
  }

  /** A metronome of that interval was accepted at that time. */
  ghost predicate MetronomeAsked(es: seq<Event>, id: int, start: nat, interval: nat)
  {
    exists j :: 0 <= j < |es| && Starts(es[j], id, start, interval)
  }

  predicate Starts(e: Event, id: int, start: nat, interval: nat)
  {
    && e.Asked? && Accepts(e.r) && e.r.kind.Metronome? && e.r.id == id && e.now == start
    && e.r.time.seconds * 1000000 + e.r.time.micros == interval
  }

  /** A delay or wait was accepted that is over at that time. */
  ghost predicate DelayAsked(es: seq<Event>, id: int, target: nat)
  {
    exists j :: 0 <= j < |es| && Delays(es[j], id, target)
  }

  predicate Delays(e: Event, id: int, target: nat)
  {
    e.Asked? && Accepts(e.r) && !e.r.kind.Metronome? && e.r.id == id && WantedAt(e) == target
  }

  ghost predicate DoneAsked(es: seq<Event>, id: int, at: nat)
  {
    exists j :: 0 <= j < |es| && DelaysBy(es[j], id, at)
  }

  predicate DelaysBy(e: Event, id: int, at: nat) { e.Asked? && Delays(e, id, WantedAt(e)) && WantedAt(e) <= at }

  ghost predicate WaitersAsked(list: seq<Waiter>, es: seq<Event>)
  {
    forall w :: w in list ==>
      if w.metronome then MetronomeAsked(es, w.id, w.start, w.interval) else DelayAsked(es, w.id, w.target)
  }

  ghost predicate PingsAsked(ps: seq<Ping>, es: seq<Event>)
  {
    forall p :: p in ps ==> MetronomeAsked(es, p.id, p.start, p.interval)
  }

  ghost predicate DonesAsked(cs: seq<Completion>, es: seq<Event>)
  {
    forall c :: c in cs && c.outcome.Done? ==> DoneAsked(es, c.id, c.outcome.at)
  }

  ghost predicate AllAsked(q: Queue, es: seq<Event>)
  {
    WaitersAsked(q.list, es) && PingsAsked(q.pings, es) && DonesAsked(q.completed, es)
  }

  lemma DoneInTime(es: seq<Event>, id: int, target: nat, at: nat)
    requires DelayAsked(es, id, target) && target <= at
    ensures DoneAsked(es, id, at)
  {
    var j :| 0 <= j < |es| && Delays(es[j], id, target);
    assert DelaysBy(es[j], id, at);
  }

  lemma RoundAsked(q: Queue, now: nat, clients: Clients, es: seq<Event>)
    requires !Halted(q, now) && AllAsked(q, es)
    ensures AllAsked(Round(q, now, clients), es)
  {
    hide MetronomeAsked, DelayAsked, DoneAsked, Insert;
    var w, rest := q.list[0], q.list[1..];
    forall x: Waiter
      ensures x in Insert(rest, Next(w)) <==> x == Next(w) || x in rest
    {
      InsertMembers(rest, Next(w), x);
    }
    if !w.metronome { DoneInTime(es, w.id, w.target, now); }
  }

  lemma {:induction false} ProcessAsked(q: Queue, now: nat, clients: Clients, es: seq<Event>)
    requires Ends(q.list, now, clients) && AllAsked(q, es)
    ensures AllAsked(Process(q, now, clients), es)
    decreases Behind(q.list, now)
  {
    hide WaitersAsked, PingsAsked, DonesAsked, Round, Behind;
    if q.list != [] && q.list[0].target <= now {
      RoundProgress(q, now, clients);
      RoundAsked(q, now, clients, es);
      ProcessAsked(Round(q, now, clients), now, clients, es);
    }
  }

  lemma MoreAsked(q: Queue, es: seq<Event>, e: Event)
    requires AllAsked(q, es)
    ensures AllAsked(q, es + [e])
  {
    forall id, start, interval | MetronomeAsked(es, id, start, interval)
      ensures MetronomeAsked(es + [e], id, start, interval)
    {
      var j :| 0 <= j < |es| && Starts(es[j], id, start, interval);
      assert (es + [e])[j] == es[j];
    }
    forall id, target | DelayAsked(es, id, target)
      ensures DelayAsked(es + [e], id, target)
    {
      var j :| 0 <= j < |es| && Delays(es[j], id, target);
      assert (es + [e])[j] == es[j];
    }
    forall id, at | DoneAsked(es, id, at)
      ensures DoneAsked(es + [e], id, at)
    {
      var j :| 0 <= j < |es| && DelaysBy(es[j], id, at);
      assert (es + [e])[j] == es[j];
    }
  }

  lemma StepAsked(q: Queue, es: seq<Event>, e: Event)
    requires CanStep(q, e) && AllAsked(q, es)
    ensures AllAsked(Step(q, e), es + [e])
  {
    hide MetronomeAsked, DelayAsked, DoneAsked, Process, Insert, Held;
    MoreAsked(q, es, e);
    match e
    case Expired(now, clients) => ProcessAsked(q, now, clients, es + [e]);
    case Asked(r, now, clients) =>
      if Accepts(r) {
        var w := Admitted(r, now);
        InsertEnds(q.list, w, now, clients);
        Started(es, e);
        forall x: Waiter
          ensures x in Insert(q.list, w) <==> x == w || x in q.list
        {
          InsertMembers(q.list, w, x);
        }
        ProcessAsked(q.(list := Insert(q.list, w)), now, clients, es + [e]);
      }
    case AbortAsked(i) =>
  }

  lemma Started(es: seq<Event>, e: Event)
    requires e.Asked? && Accepts(e.r)
    ensures var w := Admitted(e.r, e.now);
            if w.metronome then MetronomeAsked(es + [e], w.id, w.start, w.interval) else DelayAsked(es + [e], w.id, w.target)
  {
    var w := Admitted(e.r, e.now);
    assert (es + [e])[|es|] == e;
    assert if w.metronome then Starts(e, w.id, w.start, w.interval) else Delays(e, w.id, w.target);
  }

  lemma {:induction false} RunAsked(es: seq<Event>)
    requires Runs(es)
    ensures AllAsked(RunOf(es), es)
    decreases |es|
  {
    hide Step, CanStep, MetronomeAsked, DelayAsked, DoneAsked;
    if es != [] {
      RunAsked(es[..|es| - 1]);
      StepAsked(RunOf(es[..|es| - 1]), es[..|es| - 1], es[|es| - 1]);
      assert es[..|es| - 1] + [es[|es| - 1]] == es;
    }
  }

  /** No drift: the nth ping of a metronome was due n intervals after it was asked for, and given then or later; the
      pings before it were the first n - 1. */
  lemma PingsInTime(es: seq<Event>, i: nat)
    requires Runs(es) && i < |RunOf(es).pings|
    ensures var ps := RunOf(es).pings; var p := ps[i];
            && MetronomeAsked(es, p.id, p.start, p.interval)
            && p.due == p.start + p.nth * p.interval <= p.given && p.nth == PingsOf(ps[..i], p.id) + 1
  {
    hide Runs, RunOf, MetronomeAsked, PingsOf, Held;
    RunSound(es);
    RunAsked(es);
    assert OnTime(RunOf(es).pings[i], RunOf(es).pings[..i]);
  }

  /** Over any run, a delay that is done was completed at or after the time it was asked for and its length, and a
      wait at or after the time it named. */
  lemma DoneNotEarly(es: seq<Event>, i: nat)
    requires Runs(es) && i < |RunOf(es).completed| && RunOf(es).completed[i].outcome.Done?
    ensures var c := RunOf(es).completed[i];
            exists j :: 0 <= j < |es| && es[j].Asked? && es[j].r.id == c.id && Accepts(es[j].r) && !es[j].r.kind.Metronome?
                        && (if es[j].r.kind.Until? then 0 else es[j].now) + es[j].r.time.seconds * 1000000 + es[j].r.time.micros
                           <= c.outcome.at
  {
    hide Runs, RunOf, Accepts;
    RunAsked(es);
    var c := RunOf(es).completed[i];
    var j :| 0 <= j < |es| && DelaysBy(es[j], c.id, c.outcome.at);
    assert es[j].Asked?;
  }

  // One request, one event.

  lemma {:induction false} AskCounts(es: seq<Event>, j: nat)
    requires j < |es| && es[j].Asked?
    ensures Asks(es, es[j].r.id) >= 1
  {
    if j < |es| - 1 { AskCounts(es[..|es| - 1], j); }
  }

  lemma {:induction false} TwoAsks(es: seq<Event>, i: nat, j: nat)
    requires i < j < |es| && es[i].Asked? && es[j].Asked? && es[i].r.id == es[j].r.id
    ensures Asks(es, es[i].r.id) >= 2
    decreases |es|
  {
    if j < |es| - 1 { TwoAsks(es[..|es| - 1], i, j); } else { AskCounts(es[..|es| - 1], i); }
  }

  lemma SameAsk(es: seq<Event>, i: nat, j: nat)
    requires Runs(es) && i < |es| && j < |es| && es[i].Asked? && es[j].Asked? && es[i].r.id == es[j].r.id
    ensures i == j
  {
    hide Runs, RunOf, Held;
    OnceOnly(es, es[i].r.id);
    if i < j { TwoAsks(es, i, j); } else if j < i { TwoAsks(es, j, i); }
  }

  /** The last event of a run was a pass over the queue at that time. */
  predicate PassedAt(es: seq<Event>, now: nat)
  {
    es != [] && var e := es[|es| - 1]; (e.Expired? || (e.Asked? && Accepts(e.r))) && e.now == now
  }

  lemma LastSettled(es: seq<Event>, now: nat)
    requires Runs(es) && PassedAt(es, now)
    ensures Settled(RunOf(es), now)
  {
    hide Step, CanStep, Sound, Woken;
    var before := es[..|es| - 1];
    RunSound(before);
    StepSound(RunOf(before), es[|es| - 1]);
  }

  /** After a pass no delay or wait whose time has come still waits: it has been completed. */
  lemma NoneOverdue(es: seq<Event>, now: nat, j: nat)
    requires Runs(es) && PassedAt(es, now)
    requires j < |es| && es[j].Asked? && Accepts(es[j].r) && !es[j].r.kind.Metronome?
    requires (if es[j].r.kind.Until? then 0 else es[j].now) + es[j].r.time.seconds * 1000000 + es[j].r.time.micros <= now
    ensures Count(RunOf(es).list, es[j].r.id) == 0 && CountDone(RunOf(es).completed, es[j].r.id) == 1
  {
    var id, list := es[j].r.id, RunOf(es).list;
    LastSettled(es, now);
    RunAsked(es);
    OnceOnly(es, id);
    AskCounts(es, j);
    hide Runs, RunOf, Accepts, Count, CountDone;
    forall w | w in list
      ensures w.id != id
    {
      if w.id == id { OneDue(es, j, w, now); }
    }
    NoneCounted(list, id);
  }

  lemma OneDue(es: seq<Event>, j: nat, w: Waiter, now: nat)
    requires Runs(es) && j < |es| && es[j].Asked? && !es[j].r.kind.Metronome? && WantedAt(es[j]) <= now && w.id == es[j].r.id
    requires if w.metronome then MetronomeAsked(es, w.id, w.start, w.interval) else DelayAsked(es, w.id, w.target)
    ensures w.target <= now
  {
    hide Runs, Accepts;
    if w.metronome {
      var k :| 0 <= k < |es| && Starts(es[k], w.id, w.start, w.interval);
      SameAsk(es, j, k);
    } else {
      var k :| 0 <= k < |es| && Delays(es[k], w.id, w.target);
      SameAsk(es, j, k);
    }
  }

  lemma {:induction false} NoneCounted(list: seq<Waiter>, id: int)
    requires forall w :: w in list ==> w.id != id
    ensures Count(list, id) == 0
  {
    if list != [] { NoneCounted(list[..|list| - 1], id); }
  }

  /** And none is missing: once a pass has been made, a metronome has been given every ping that was due. */
  lemma NoPingMissing(q: Queue, i: nat, now: nat, n: nat)
    requires Sound(q) && Settled(q, now) && i < |q.list| && q.list[i].metronome
    requires q.list[i].start + n * q.list[i].interval <= now
    ensures n <= PingsOf(q.pings, q.list[i].id)
  {
    var w := q.list[i];
    assert InRhythm(w, q.pings);
    if n > w.pings { Longer(w.interval, w.pings + 1, n); }
  }

  lemma Longer(interval: nat, m: nat, n: nat)
    requires m <= n
    ensures m * interval <= n * interval
  {
  }

  /** As long as metronomes are asked for with intervals above 0 every pass ends, at all times. */
  lemma PositiveEnds(es: seq<Event>, now: nat, clients: Clients)
    requires Runs(es)
    requires forall e :: e in es && e.Asked? && Accepts(e.r) && e.r.kind.Metronome? ==> Ticks(e.r.time) > 0
    ensures Ends(RunOf(es).list, now, clients)
  {
    hide Runs, RunOf, Accepts;
    RunAsked(es);
    forall w | w in RunOf(es).list
      ensures !Stuck(w, now, clients)
    {
      if w.metronome {
        var j :| 0 <= j < |es| && Starts(es[j], w.id, w.start, w.interval);
        assert es[j] in es;
      }
    }
  }

  // ---- in place ----

  class UsecTimer {
    var waiters: seq<Waiter>
    var completed: seq<Completion>
    var pings: seq<Ping>
    var loaded: Option<Load>

    ghost function Model(): Queue
      reads this
    {
      Queue(waiters, completed, pings, loaded)
    }

    constructor ()
      ensures Model() == EMPTY
    {
      waiters, completed, pings, loaded := [], [], [], None;
    }

    method UniversalInsertNode(w: Waiter)
      modifies this`waiters
      ensures waiters == Insert(old(waiters), w)
    {
      hide Insert;
      var i := 0;
      assert waiters[0..] == waiters && [] + Insert(waiters, w) == Insert(waiters, w);
      while i < |waiters| && waiters[i].target <= w.target
        invariant 0 <= i <= |waiters| && waiters == old(waiters)
        invariant waiters[..i] + Insert(waiters[i..], w) == Insert(waiters, w)
        decreases |waiters| - i
      {
        InsertLater(waiters, w, i);
        i := i + 1;
      }
      InsertHere(waiters[i..], w);
      waiters := waiters[..i] + ([w] + waiters[i..]);
    }

    method ProcessUSecWaiters(now: nat, clients: Clients)
      requires Ends(waiters, now, clients)
      modifies this
      ensures Model() == Process(old(Model()), now, clients)
    {
      hide Behind, Insert, Stuck, Ends;
      while waiters != []
        invariant Ends(waiters, now, clients) && Process(Model(), now, clients) == Process(old(Model()), now, clients)
        decreases Behind(waiters, now)
      {
        var w := waiters[0];
        if w.target > now {
          loaded := Some(Load(now, w.target - now));
          return;
        }
        ghost var q := Model();
        RoundProgress(q, now, clients);
        waiters := waiters[1..];
        if w.metronome {
          w := w.(target := w.target + w.interval);
          if clients(w.id) {
            pings := pings + [Ping(w.id, w.pings + 1, w.start, w.interval, w.target - w.interval, now)];
            UniversalInsertNode(w.(pings := w.pings + 1));
            assert Model() == Round(q, now, clients);
            continue;
          }
        }
        completed := completed + [Completion(w.id, if w.metronome then Unreachable else Done(now))];
        assert Model() == Round(q, now, clients);
      }
    }

    method CmdDelayUSec(r: Request, now: nat, clients: Clients)
      requires !r.kind.Until? && (r.kind.Metronome? ==> r.kind.masked) && CanAsk(Model(), r, now, clients)
      modifies this
      ensures Model() == Ask(old(Model()), r, now, clients)
    {
      Schedule(r, now + Ticks(r.time), Ticks(r.time), now, clients);
    }

    method CmdMetronomeUSec(r: Request, now: nat, clients: Clients)
      requires r.kind.Metronome? && CanAsk(Model(), r, now, clients)
      modifies this
      ensures Model() == Ask(old(Model()), r, now, clients)
    {
      if !r.kind.masked {
        completed := completed + [Completion(r.id, BadIoArg)];
      } else {
        CmdDelayUSec(r, now, clients);
      }
    }

    method CmdDelayUntilUSec(r: Request, now: nat, clients: Clients)
      requires r.kind.Until? && CanAsk(Model(), r, now, clients)
      modifies this
      ensures Model() == Ask(old(Model()), r, now, clients)
    {
      Schedule(r, Ticks(r.time), 0, now, clients);
    }

    /** What the delays have in common. */
    method Schedule(r: Request, target: nat, interval: nat, now: nat, clients: Clients)
      requires CanAsk(Model(), r, now, clients) && (r.kind.Metronome? ==> r.kind.masked)
      requires Admitted(r, now) == Waiter(r.id, target, interval, r.kind.Metronome?, now, 0)
      modifies this
      ensures Model() == Ask(old(Model()), r, now, clients)
    {
      hide Process, Behind, Insert, Ticks, Ends, Stuck, Admitted;
      if r.sized && r.time.micros <= 1000000 {
        InsertEnds(waiters, Admitted(r, now), now, clients);
        UniversalInsertNode(Waiter(r.id, target, interval, r.kind.Metronome?, now, 0));
        ProcessUSecWaiters(now, clients);
      } else {
        completed := completed + [Completion(r.id, BadIoArg)];
      }
    }

    method AbortTimerIO(i: nat)
      requires i < |waiters|
      modifies this
      ensures Model() == Abort(old(Model()), i)
    {
      completed := completed + [Completion(waiters[i].id, Aborted)];
      waiters := waiters[..i] + waiters[i + 1..];
    }
  }
}
