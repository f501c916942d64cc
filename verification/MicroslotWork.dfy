/** What is carried out for requests, against what they ask for. */
module MicroslotWork {
  import opened Options
  import opened Microslot
  import opened MicroslotSafety
  import opened MicroslotRuns

  // ---- what a request asks for ----

  /** Something to be done on the card, and the byte it is done with. */
  datatype Act = Act(kind: Kind, byte: int)

  function Each(kind: Kind, bytes: IoBuf): (r: seq<Act>)
    ensures |r| == |bytes| && forall i :: 0 <= i < |bytes| ==> r[i] == Act(kind, bytes[i])
  {
    seq(|bytes|, i requires 0 <= i < |bytes| => Act(kind, bytes[i]))
  }

  /** USSCMD_READ, USSCMD_WRITE, USSCMD_VERIFY and USSCMD_STARTDOWNLOAD. */
  function AsksOne(e: Entry): seq<Act>
  {
    if e.cmd == 1 then Each(Read, e.buf)
    else if e.cmd == 2 then Each(Write, e.buf)
    else if e.cmd == 3 then Each(Verify, e.buf)
    else [Act(StartDld, 0)]
  }

  function AsksAll(es: seq<Entry>): seq<Act>
  {
    if es == [] then [] else AsksOne(es[0]) + AsksAll(es[1..])
  }

  /** Byte by byte, what a request wants done, in order. */
  function Acts(order: Order): seq<Act>
  {
    match order
    case Sequence(_, entries) => AsksAll(entries)
    case StreamRead(b) => Each(Read, b)
    case StreamWrite(b) => Each(Write, b)
    case ResetCards => [Act(Reset, 0)]
    case CardStatus => [Act(Identify, 0), Act(GetId, 0), Act(Status, 0)]
    case SetClock(_) => []
    case Unknown => []
  }

  /** Why a request is turned down, if it is. */
  function Refusal(order: Order): Option<Outcome>
  {
    match order
    case Sequence(bytes, entries) =>
      if bytes % SEQ_SIZE != 0 then Some(BadIoArg)
      else if bytes > 5 * SEQ_SIZE then Some(BadSize)
      else if exists i :: 0 <= i < |entries| && entries[i].cmd !in {1, 2, 3, 4} then Some(BadIoArg)
      else None
    case SetClock(speed) => if speed > USLOT_CLKSPEED_8MHZ then Some(BadIoArg) else None
    case Unknown => Some(BadCommand)
    case _ => None
  }

  /** A written or verified byte is the request's own; a byte read is what the card has given. */
  predicate Matches(w: Ran, a: Act) { w.kind == a.kind && (w.kind.Write? || w.kind.Verify? ==> w.byte == a.byte) }

  /** What has been carried out is what comes first of what is asked for, in order. */
  predicate Follows(w: seq<Ran>, acts: seq<Act>)
  {
    |w| <= |acts| && forall i :: 0 <= i < |w| ==> Matches(w[i], acts[i])
  }

  /** A verify that came upon another byte. */
  predicate Differs(w: Ran, a: Act) { w.kind.Verify? && a.kind.Verify? && w.byte != a.byte }

  /** How a service may end, by what has been carried out in it. */
  predicate Fitting(w: seq<Ran>, outcome: Outcome, order: Order)
  {
    var acts := Acts(order);
    match Refusal(order)
    case Some(o) => outcome == o && w == []
    case None =>
      match outcome
      case Ok => Follows(w, acts) && |w| == |acts|
      case BadCard => 0 < |w| <= |acts| && Follows(w[..|w| - 1], acts) && Differs(w[|w| - 1], acts[|w| - 1])
      case Offline => Follows(w, acts)
      case _ => false
  }

  // ---- the invariant ----

  function Rest(buf: IoBuf, index: nat): IoBuf { if index <= |buf| then buf[index..] else [] }

  /** What is left to be carried out of the batch that q begins with, from byte index of the buffer in hand. */
  function Left(q: seq<Command>, buf: IoBuf, index: nat): seq<Act>
    decreases |q|
  {
    if q == [] then []
    else
      var c, rest := q[0], q[1..];
      match c.kind
      case Synch | CdeReset | PrepSelect | Select => Left(rest, buf, index)
      case Reset | Identify | GetId | StartDld | Status => [Act(c.kind, 0)] + Left(rest, buf, index)
      case PrepRead | PrepWrite | PrepVerify => Left(rest, c.buf, 0)
      case Read | Write | Verify => Each(c.kind, Rest(buf, index)) + Left(rest, buf, |buf|)
      case CompleteIo | PingDone | End => []
  }

  /** Carried out so far and left to be carried out are together what is asked for. */
  predicate Proceeds(w: seq<Ran>, left: seq<Act>, acts: seq<Act>)
  {
    Follows(w, acts) && left == acts[|w|..]
  }

  /** The current request is being served: everything since it was taken up has been for it. */
  predicate Working(m: Machine, q: seq<Command>)
  {
    match m.current
    case None => true
    case Some(r) =>
      && m.since <= |m.ran| && Refusal(r.order).None? && !r.order.SetClock? && AllFor(m.ran[m.since..], r)
      && Proceeds(m.ran[m.since..], Left(q, m.buf, m.index), Acts(r.order))
  }

  predicate AllFor(w: seq<Ran>, r: Request) { forall i :: 0 <= i < |w| ==> w[i].request == r }

  /** Something of that kind is asked for; a byte written is one to be written. */
  predicate Called(w: Ran)
  {
    var acts := Acts(w.request.order);
    exists j :: 0 <= j < |acts| && acts[j].kind == w.kind && (w.kind.Write? ==> acts[j].byte == w.byte)
  }

  /** A completion reports what has become of its request. */
  predicate Right(c: Completion, ran: seq<Ran>, asked: set<Request>)
  {
    match c.served
    case None => c.outcome.Aborted? || c.outcome.BadPriv?
    case Some(v) =>
      && v.request in asked && v.request.id == c.id && v.from <= v.to <= |ran|
      && AllFor(ran[v.from..v.to], v.request) && Fitting(ran[v.from..v.to], c.outcome, v.request.order)
  }

  predicate AllRight(done: seq<Completion>, ran: seq<Ran>, asked: set<Request>)
  {
    forall k :: 0 <= k < |done| ==> Right(done[k], ran, asked)
  }

  predicate AllCalled(ran: seq<Ran>, asked: set<Request>)
  {
    forall k :: 0 <= k < |ran| ==> ran[k].request in asked && Called(ran[k])
  }

  /** The clock speed set last by a request that was completed. */
  function LastClock(done: seq<Completion>, first: nat): nat
  {
    if done == [] then first
    else
      var c := done[|done| - 1];
      if c.outcome.Ok? && c.served.Some? && c.served.value.request.order.SetClock? then c.served.value.request.order.speed
      else LastClock(done[..|done| - 1], first)
  }

  predicate AllAsked(rs: seq<Request>, asked: set<Request>) { forall i :: 0 <= i < |rs| ==> rs[i] in asked }

  predicate Waiting(m: Machine, asked: set<Request>)
  {
    && AllAsked(m.pending, asked)
    && (m.current.Some? ==> m.current.value in asked)
  }

  /** The requests asked for so far, and the speed at the start. */
  datatype Past = Past(asked: set<Request>, speed: nat)

  predicate Logged(m: Machine, p: Past)
  {
    && Waiting(m, p.asked) && AllRight(m.done, m.ran, p.asked) && AllCalled(m.ran, p.asked)
    && m.speed == LastClock(m.done, p.speed)
  }

  predicate ServingWith(m: Machine, q: seq<Command>, p: Past) { Working(m, q) && Logged(m, p) }

  predicate Serving(m: Machine, p: Past) { ServingWith(m, Todo(m), p) }

  // ---- what one microcommand may do ----

  predicate SameRequests(m: Machine, m1: Machine) { m1.pending == m.pending && m1.since == m.since && m1.speed == m.speed }

  function LeftOf(m: Machine, q: seq<Command>): seq<Act> { Left(q, m.buf, m.index) }

  predicate Nothing(m: Machine, q: seq<Command>, m1: Machine, q1: seq<Command>)
  {
    && SameRequests(m, m1) && m1.current == m.current && m1.done == m.done && m1.ran == m.ran
    && (m.current.Some? ==> LeftOf(m1, q1) == LeftOf(m, q))
  }

  predicate Carries(m: Machine, q: seq<Command>, m1: Machine, q1: seq<Command>)
  {
    && SameRequests(m, m1) && m1.current == m.current && m1.done == m.done && m.current.Some?
    && |m1.ran| == |m.ran| + 1 && m1.ran[..|m.ran|] == m.ran && m1.ran[|m.ran|].request == m.current.value
    && LeftOf(m, q) != [] && Matches(m1.ran[|m.ran|], LeftOf(m, q)[0]) && LeftOf(m1, q1) == LeftOf(m, q)[1..]
  }

  predicate Ends(m: Machine, m1: Machine, outcome: Outcome)
  {
    && SameRequests(m, m1) && m.current.Some? && m1.current.None?
    && m1.done == m.done + [Completion(m.current.value.id, outcome, Some(Service(m.current.value, m.since, |m1.ran|)))]
  }

  predicate Finishes(m: Machine, q: seq<Command>, m1: Machine)
  {
    m1.ran == m.ran && ((Ends(m, m1, Ok) && LeftOf(m, q) == []) || Ends(m, m1, Offline))
  }

  predicate Fails(m: Machine, q: seq<Command>, m1: Machine)
  {
    && Ends(m, m1, BadCard) && |m1.ran| == |m.ran| + 1 && m1.ran[..|m.ran|] == m.ran
    && m1.ran[|m.ran|].request == m.current.value && LeftOf(m, q) != [] && Differs(m1.ran[|m.ran|], LeftOf(m, q)[0])
  }

  predicate Acting(m: Machine, q: seq<Command>, m1: Machine, q1: seq<Command>)
  {
    Nothing(m, q, m1, q1) || Carries(m, q, m1, q1) || Finishes(m, q, m1) || Fails(m, q, m1)
  }

  function QueueAfter(r: (Machine, Then), c: Command): seq<Command>
  {
    if r.1.Repeat? || r.1.RepeatLater? then [c] + r.0.queue else r.0.queue
  }

  lemma RestNext(kind: Kind, buf: IoBuf, index: nat)
    requires index < |buf|
    ensures Each(kind, Rest(buf, index)) != [] && Each(kind, Rest(buf, index))[0] == Act(kind, buf[index])
    ensures Each(kind, Rest(buf, index + 1)) == Each(kind, Rest(buf, index))[1..]
  {
  }

  /** The first of a sequence and what follows, a sequence behind. */
  lemma FirstOf(a: seq<Act>, b: seq<Act>)
    requires a != []
    ensures a + b != [] && (a + b)[0] == a[0] && (a + b)[1..] == a[1..] + b
  {
  }

  /** Moving a byte takes the first of what is left. */
  lemma MoveLeft(c: Command, rest: seq<Command>, buf: IoBuf, index: nat)
    requires Moves(c.kind) && index <= |buf|
    ensures var left, all := Left([c] + rest, buf, index), [c] + rest;
            if index == |buf| then left == Left(rest, buf, index)
            else
              && left != [] && left[0] == Act(c.kind, buf[index]) && Left(all, buf, index + 1) == left[1..]
              && (index + 1 == |buf| ==> Left(rest, buf, index + 1) == left[1..])
  {
    var tail := Left(rest, buf, |buf|);
    assert ([c] + rest)[1..] == rest;
    assert Each(c.kind, Rest(buf, |buf|)) == [] && [] + tail == tail;
    if index < |buf| {
      RestNext(c.kind, buf, index);
      FirstOf(Each(c.kind, Rest(buf, index)), tail);
    }
  }

  lemma ReadActs(m: Machine, c: Command, h: Sample)
    requires SoundWith(m, [c] + m.queue) && c.kind.Read?
    ensures var r := Perform(m, c, h); Acting(m, [c] + m.queue, r.0, QueueAfter(r, c))
  {
    hide PingShape, SlotsFit, OwnSlots, Left;
    InBatchHead(m, c);
    assert ([c] + m.queue)[0] == c;
    MoveLeft(c, m.queue, m.buf, m.index);
  }

  lemma WriteActs(m: Machine, c: Command, h: Sample)
    requires SoundWith(m, [c] + m.queue) && c.kind.Write?
    ensures var r := Perform(m, c, h); Acting(m, [c] + m.queue, r.0, QueueAfter(r, c))
  {
    hide PingShape, SlotsFit, OwnSlots, Left;
    InBatchHead(m, c);
    assert ([c] + m.queue)[0] == c;
    MoveLeft(c, m.queue, m.buf, m.index);
  }

  lemma VerifyActs(m: Machine, c: Command, h: Sample)
    requires SoundWith(m, [c] + m.queue) && c.kind.Verify?
    ensures var r := Perform(m, c, h); Acting(m, [c] + m.queue, r.0, QueueAfter(r, c))
  {
    hide PingShape, SlotsFit, OwnSlots, AfterEnd, Left;
    InBatchHead(m, c);
    assert ([c] + m.queue)[0] == c;
    MoveLeft(c, m.queue, m.buf, m.index);
  }

  lemma PlainActs(m: Machine, c: Command, h: Sample)
    requires SoundWith(m, [c] + m.queue) && !Moves(c.kind)
    ensures var r := Perform(m, c, h); Acting(m, [c] + m.queue, r.0, QueueAfter(r, c))
  {
    hide PingShape, SlotsFit, OwnSlots;
    var q := [c] + m.queue;
    assert q[0] == c && q[1..] == m.queue;
    if m.current.Some? || ForRequest(c.kind) { InBatchHead(m, c); }
  }

  lemma PerformActs(m: Machine, c: Command, h: Sample)
    requires SoundWith(m, [c] + m.queue)
    ensures var r := Perform(m, c, h); Acting(m, [c] + m.queue, r.0, QueueAfter(r, c))
  {
    hide Perform, Acting, SoundWith;
    match c.kind
    case Read => ReadActs(m, c, h);
    case Write => WriteActs(m, c, h);
    case Verify => VerifyActs(m, c, h);
    case _ => PlainActs(m, c, h);
  }

  lemma AwaitActs(m: Machine, c: Command, h: Sample)
    requires SoundWith(m, [c] + m.queue)
    ensures var r := Await(m, c, h); Acting(m, [c] + m.queue, r.0, QueueAfter(r, c))
  {
    hide Perform, InBatch, PingShape, OwnSlots, SlotsFit, Left;
    PerformActs(m, c, h);
    PerformActs(m.(outFull := 0), c, h);
  }

  lemma ExecActs(m: Machine, c: Command, h: Sample)
    requires SoundWith(m, [c] + m.queue)
    ensures var r := Exec(m, c, h); Acting(m, [c] + m.queue, r.0, QueueAfter(r, c))
  {
    hide Await, InBatch, PingShape, OwnSlots, SlotsFit, Left;
    AwaitActs(m, c, h);
    AwaitActs(m.(dipir := m.dipir || h.present), c, h);
    AwaitActs(Inserted(m), c, h);
    if m.current.Some? && NeedsCard(c.kind) { BatchNeedsSlot(m, c); }
    if m.current.None? && NeedsCard(c.kind) { IdleSkips(m, c); }
  }

  lemma IdleSkips(m: Machine, c: Command)
    requires m.current.None?
    ensures Acting(m, [c] + m.queue, m, m.queue)
  {
  }

  // ---- the invariant, microcommand by microcommand ----

  lemma RightStays(c: Completion, ran: seq<Ran>, more: seq<Ran>, asked: set<Request>, wider: set<Request>)
    requires Right(c, ran, asked) && ran <= more && asked <= wider
    ensures Right(c, more, wider)
  {
    hide Fitting, AllFor;
    if c.served.Some? {
      var v := c.served.value;
      assert more[v.from..v.to] == ran[v.from..v.to];
    }
  }

  lemma AllRightStays(done: seq<Completion>, ran: seq<Ran>, more: seq<Ran>, asked: set<Request>, wider: set<Request>)
    requires AllRight(done, ran, asked) && ran <= more && asked <= wider
    ensures AllRight(done, more, wider)
  {
    hide Right;
    forall k | 0 <= k < |done|
      ensures Right(done[k], more, wider)
    {
      RightStays(done[k], ran, more, asked, wider);
    }
  }

  /** One thing more done, of what was left the first. */
  lemma ProceedsOn(w: seq<Ran>, x: Ran, left: seq<Act>, acts: seq<Act>)
    requires Proceeds(w, left, acts) && left != []
    ensures |w| < |acts| && left[0] == acts[|w|]
    ensures Matches(x, left[0]) ==> Proceeds(w + [x], left[1..], acts)
  {
  }

  lemma ProceedsSoFar(w: seq<Ran>, left: seq<Act>, acts: seq<Act>)
    requires Proceeds(w, left, acts)
    ensures Follows(w, acts) && (left == [] ==> |w| == |acts|)
  {
  }

  lemma SinceGrows(m: Machine, m1: Machine)
    requires m.since <= |m.ran| && |m1.ran| == |m.ran| + 1 && m1.ran[..|m.ran|] == m.ran
    ensures m1.ran[m.since..] == m.ran[m.since..] + [m1.ran[|m.ran|]] && m.ran <= m1.ran
  {
  }

  lemma CalledOnce(ran: seq<Ran>, x: Ran, acts: seq<Act>, j: nat, asked: set<Request>)
    requires AllCalled(ran, asked) && x.request in asked && acts == Acts(x.request.order) && j < |acts|
    requires acts[j].kind == x.kind && (x.kind.Write? ==> acts[j].byte == x.byte)
    ensures AllCalled(ran + [x], asked)
  {
    assert Called(x);
  }

  lemma CarriesKeeps(m: Machine, q: seq<Command>, m1: Machine, q1: seq<Command>, p: Past)
    requires ServingWith(m, q, p) && Carries(m, q, m1, q1)
    ensures ServingWith(m1, q1, p)
  {
    hide Proceeds, Left, AllCalled, AllRight, Acts, Refusal, LastClock, Called;
    var r, x := m.current.value, m1.ran[|m.ran|];
    var w, left, acts := m.ran[m.since..], LeftOf(m, q), Acts(m.current.value.order);
    SinceGrows(m, m1);
    ProceedsOn(w, x, left, acts);
    assert m1.ran == m.ran + [x];
    CalledOnce(m.ran, x, acts, |w|, p.asked);
    AllRightStays(m.done, m.ran, m1.ran, p.asked, p.asked);
  }

  /** A completion that is right joins the others. */
  lemma RightJoins(m: Machine, m1: Machine, outcome: Outcome, p: Past)
    requires Logged(m, p) && m.current.Some? && m.since <= |m.ran| && m.ran <= m1.ran && AllCalled(m1.ran, p.asked)
    requires m1.done == m.done + [Completion(m.current.value.id, outcome, Some(Service(m.current.value, m.since, |m1.ran|)))]
    requires AllFor(m1.ran[m.since..], m.current.value) && Fitting(m1.ran[m.since..], outcome, m.current.value.order)
    requires m1.pending == m.pending && m1.current.None?
    requires var order := m.current.value.order; m1.speed == if order.SetClock? && outcome.Ok? then order.speed else m.speed
    ensures Logged(m1, p)
  {
    hide Fitting, AllCalled, AllFor;
    AllRightStays(m.done, m.ran, m1.ran, p.asked, p.asked);
    var c := m1.done[|m.done|];
    assert m1.ran[m.since..|m1.ran|] == m1.ran[m.since..];
    assert Right(c, m1.ran, p.asked);
    assert m1.done[..|m.done|] == m.done;
  }

  lemma FinishesKeeps(m: Machine, q: seq<Command>, m1: Machine, q1: seq<Command>, p: Past)
    requires ServingWith(m, q, p) && Finishes(m, q, m1)
    ensures ServingWith(m1, q1, p)
  {
    hide Left, AllCalled, AllRight, Acts, LastClock, Waiting, Logged, Follows, Proceeds;
    AllCalledOf(m, p);
    ProceedsSoFar(m.ran[m.since..], LeftOf(m, q), Acts(m.current.value.order));
    RightJoins(m, m1, if Ends(m, m1, Ok) && LeftOf(m, q) == [] then Ok else Offline, p);
  }

  lemma AllCalledOf(m: Machine, p: Past)
    requires Logged(m, p)
    ensures AllCalled(m.ran, p.asked) && Waiting(m, p.asked)
  {
  }

  lemma FailsKeeps(m: Machine, q: seq<Command>, m1: Machine, q1: seq<Command>, p: Past)
    requires ServingWith(m, q, p) && Fails(m, q, m1)
    ensures ServingWith(m1, q1, p)
  {
    hide Left, AllCalled, AllRight, Acts, Refusal, LastClock, Logged, Matches, Proceeds, Follows;
    var x := m1.ran[|m.ran|];
    var w, left, acts := m.ran[m.since..], LeftOf(m, q), Acts(m.current.value.order);
    AllCalledOf(m, p);
    SinceGrows(m, m1);
    ProceedsOn(w, x, left, acts);
    assert m1.ran == m.ran + [x];
    CalledOnce(m.ran, x, acts, |w|, p.asked);
    assert (w + [x])[..|w|] == w;
    ProceedsSoFar(w, left, acts);
    RightJoins(m, m1, BadCard, p);
  }

  lemma NothingKeeps(m: Machine, q: seq<Command>, m1: Machine, q1: seq<Command>, p: Past)
    requires ServingWith(m, q, p) && Nothing(m, q, m1, q1)
    ensures ServingWith(m1, q1, p)
  {
    hide Left, AllCalled, AllRight, Proceeds, LastClock;
  }

  lemma ActingKeeps(m: Machine, q: seq<Command>, m1: Machine, q1: seq<Command>, p: Past)
    requires ServingWith(m, q, p) && Acting(m, q, m1, q1)
    ensures ServingWith(m1, q1, p)
  {
    hide ServingWith, Nothing, Carries, Finishes, Fails;
    if Nothing(m, q, m1, q1) {
      NothingKeeps(m, q, m1, q1, p);
    } else if Carries(m, q, m1, q1) {
      CarriesKeeps(m, q, m1, q1, p);
    } else if Finishes(m, q, m1) {
      FinishesKeeps(m, q, m1, q1, p);
    } else {
      FailsKeeps(m, q, m1, q1, p);
    }
  }

  /** Serving does not depend on how the microcommands are held. */
  lemma ServingAlike(m: Machine, m1: Machine, q: seq<Command>, p: Past)
    requires m1 == m.(queue := m1.queue, repeating := m1.repeating)
    ensures ServingWith(m1, q, p) == ServingWith(m, q, p)
  {
  }

  lemma AdvanceServes(m: Machine, h: Sample, p: Past)
    requires Sound(m) && Todo(m) != [] && Serving(m, p)
    ensures Serving(Advance(m, h).0, p)
  {
    hide Exec, SoundWith, ServingWith, Acting;
    var c, t := Todo(m)[0], Taken(m);
    assert [c] + t.queue == Todo(m);
    SoundAlike(m, t, Todo(m));
    ServingAlike(m, t, Todo(m), p);
    ExecActs(t, c, h);
    var r := Exec(t, c, h);
    ActingKeeps(t, Todo(m), r.0, QueueAfter(r, c), p);
    ServingAlike(r.0, Advance(m, h).0, Todo(Advance(m, h).0), p);
    assert [] + r.0.queue == r.0.queue;
  }

  // ---- a request becomes microcommands ----

  /** Whatever the buffer in hand, q carries that out. */
  ghost predicate Does(q: seq<Command>, acts: seq<Act>)
  {
    forall buf, index :: Left(q, buf, index) == acts
  }

  lemma FinishDoes()
    ensures Does(FinishBatch(), [])
  {
  }

  lemma OneDoes(c: Command, q: seq<Command>, acts: seq<Act>)
    requires Does(q, acts) && (c.kind.Reset? || c.kind.Identify? || c.kind.GetId? || c.kind.StartDld? || c.kind.Status?)
    ensures Does([c] + q, [Act(c.kind, 0)] + acts)
  {
    assert ([c] + q)[1..] == q;
  }

  lemma DeselectDoes(q: seq<Command>, acts: seq<Act>)
    requires Does(q, acts)
    ensures Does([Plain(CdeReset)] + q, acts)
  {
    assert ([Plain(CdeReset)] + q)[1..] == q;
  }

  lemma PrepDoes(prep: Command, move: Command, q: seq<Command>, acts: seq<Act>)
    requires Does(q, acts) && Preps(prep.kind) && Moves(move.kind)
    ensures Does([prep, move] + q, Each(move.kind, prep.buf) + acts)
  {
    var all := [prep, move] + q;
    assert all[1..][1..] == q && all[1..][0] == move;
    assert Rest(prep.buf, 0) == prep.buf;
    forall buf, index
      ensures Left(all, buf, index) == Each(move.kind, prep.buf) + acts
    {
      assert Left(all[1..], prep.buf, 0) == Each(move.kind, Rest(prep.buf, 0)) + Left(q, prep.buf, |prep.buf|);
    }
  }

  lemma EntryDoes(e: Entry, q: seq<Command>, acts: seq<Act>)
    requires KnownEntry(e) && Does(q, acts)
    ensures Does(EntryBatch(e) + q, AsksOne(e) + acts)
  {
    hide Does;
    var b := EntryBatch(e);
    if e.cmd == 4 {
      OneDoes(Plain(StartDld), q, acts);
    } else if e.buf == [] {
      assert b + q == q && AsksOne(e) + acts == acts;
    } else {
      PrepDoes(b[0], b[1], q, acts);
      assert b == [b[0], b[1]];
    }
  }

  lemma {:induction false} AsksLast(es: seq<Entry>)
    requires es != []
    ensures AsksAll(es) == AsksAll(es[..|es| - 1]) + AsksOne(es[|es| - 1])
    decreases |es|
  {
    hide AsksOne;
    var last, front := es[|es| - 1], es[..|es| - 1];
    if |es| == 1 {
      assert es[1..] == [] && front == [] && AsksOne(last) + [] == AsksOne(last) == [] + AsksOne(last);
    } else {
      AsksLast(es[1..]);
      assert es[1..][..|es| - 2] == front[1..] && es[1..][|es| - 2] == last && front[0] == es[0];
      JoinThree(AsksOne(es[0]), AsksAll(front[1..]), AsksOne(last));
    }
  }

  lemma JoinThree(a: seq<Act>, b: seq<Act>, c: seq<Act>)
    ensures a + b + c == a + (b + c)
  {
  }

  lemma {:induction false} EntriesDo(es: seq<Entry>, q: seq<Command>, acts: seq<Act>)
    requires (forall i :: 0 <= i < |es| ==> KnownEntry(es[i])) && Does(q, acts)
    ensures Does(EntriesBatch(es) + q, AsksAll(es) + acts)
  {
    hide Does, AsksOne, EntryBatch;
    if es == [] {
      assert EntriesBatch(es) + q == q && AsksAll(es) + acts == acts;
    } else {
      var last, front := es[|es| - 1], es[..|es| - 1];
      EntryDoes(last, q, acts);
      EntriesDo(front, EntryBatch(last) + q, AsksOne(last) + acts);
      AsksLast(es);
      assert EntriesBatch(es) + q == EntriesBatch(front) + (EntryBatch(last) + q);
      assert AsksAll(es) + acts == AsksAll(front) + (AsksOne(last) + acts);
    }
  }

  /** The batch of an order carries out what the order asks for. */
  lemma OrderDoes(order: Order)
    requires Queued(order)
    ensures Does(OrderBatch(order), Acts(order)) && Refusal(order).None? && !order.SetClock?
  {
    hide Does, EntriesBatch, AsksAll;
    var f := FinishBatch();
    FinishDoes();
    match order
    case Sequence(_, entries) =>
      EntriesDo(entries, f, []);
      assert AsksAll(entries) + [] == AsksAll(entries);
    case StreamRead(b) =>
      PrepDoes(Command(PrepRead, 0, b), Plain(Read), f, []);
      assert Each(Read, b) + [] == Each(Read, b);
    case StreamWrite(b) =>
      PrepDoes(Command(PrepWrite, 0, b), Plain(Write), f, []);
      assert Each(Write, b) + [] == Each(Write, b);
    case ResetCards => ResetDoes();
    case CardStatus => StatusDoes();
  }

  lemma ResetDoes()
    ensures Does(OrderBatch(ResetCards), Acts(ResetCards))
  {
    hide Does;
    var f := FinishBatch();
    FinishDoes();
    DeselectDoes(f, []);
    OneDoes(Plain(Reset), [Plain(CdeReset)] + f, []);
    assert OrderBatch(ResetCards) == [Plain(Reset)] + ([Plain(CdeReset)] + f);
    assert [Act(Reset, 0)] + [] == [Act(Reset, 0)];
  }

  lemma StatusDoes()
    ensures Does(OrderBatch(CardStatus), Acts(CardStatus))
  {
    hide Does;
    var f, x := FinishBatch(), [Act(Status, 0)] + [];
    FinishDoes();
    OneDoes(Plain(Status), f, []);
    OneDoes(Plain(GetId), [Plain(Status)] + f, x);
    OneDoes(Plain(Identify), [Plain(GetId)] + ([Plain(Status)] + f), [Act(GetId, 0)] + x);
    assert OrderBatch(CardStatus) == [Plain(Identify)] + ([Plain(GetId)] + ([Plain(Status)] + f));
    assert [Act(Identify, 0)] + ([Act(GetId, 0)] + x) == Acts(CardStatus);
  }

  lemma SelectDoes(slot: nat, q: seq<Command>, acts: seq<Act>)
    requires Does(q, acts)
    ensures Does(SelectBatch(slot) + q, acts)
  {
    var all := SelectBatch(slot) + q;
    assert all[1..][1..][1..] == q;
    assert all[1..][0] == all[1] && all[1..][1..][0] == all[2];
    forall buf, index
      ensures Left(all, buf, index) == acts
    {
      assert Left(all[1..][1..], buf, index) == Left(q, buf, index);
    }
  }

  lemma AtOnce(m: Machine, order: Order) returns (o: Outcome)
    requires !Queued(order) && m.current.Some? && m.current.value.order == order
    ensures var m1 := ExpandOrder(m, order);
            && m1.current.None? && m1.pending == m.pending && m1.ran == m.ran
            && m1.speed == (if order.SetClock? && o.Ok? then order.speed else m.speed)
            && m1.done == m.done + [Completion(m.current.value.id, o, Some(Service(m.current.value, m.since, |m.ran|)))]
    ensures Fitting([], o, order)
  {
    hide InBatch;
    match Refusal(order)
    case Some(r) => o := r;
    case None => o := Ok;
  }

  /** A request taken up is refused or done at once, or all of it is still to be carried out. */
  lemma AcceptServes(m: Machine, p: Past)
    requires Sound(m) && Todo(m) == [] && m.pending != [] && Serving(m, p)
    ensures Serving(Accept(m), p)
  {
    EmptyIdle(m);
    NextProper(m);
    hide InBatch, OrderBatch, ExpandOrder, Sound, Based, Queued, Idle, NoPing, SlotsFit, AllRight, AllCalled, Acts;
    var r := m.pending[0];
    var m1 := m.(current := Some(r), pending := m.pending[1..], since := |m.ran|);
    var m2 := Selecting(m1, r);
    SelectingIdle(m1, r);
    OrderExpanded(m2, r.order);
    if Queued(r.order) {
      TakenUp(m2, r, p);
    } else {
      var o := AtOnce(m2, r.order);
      assert m2.ran[m2.since..] == [];
      RightJoins(m2, Accept(m), o, p);
    }
  }

  lemma TakenUp(m: Machine, r: Request, p: Past)
    requires m.current == Some(r) && m.since == |m.ran| && m.repeating.None? && Logged(m, p) && Queued(r.order)
    requires m.queue == (if m.slot != r.slot then SelectBatch(r.slot) else [])
    ensures Serving(Add(m, OrderBatch(r.order)), p)
  {
    hide Queued, OrderBatch, Acts, Logged, SelectBatch, Refusal;
    var b, acts := OrderBatch(r.order), Acts(r.order);
    var m1 := Add(m, b);
    OrderDoes(r.order);
    SelectDoes(r.slot, b, acts);
    assert [] + b == b && Todo(m1) == m1.queue;
    assert m.ran[m.since..] == [] && acts[0..] == acts;
    AllCalledOf(m, p);
    LoggedAlike(m, m1, p);
  }

  /** The log is kept apart from what is about to be executed. */
  lemma LoggedAlike(m: Machine, m1: Machine, p: Past)
    requires Logged(m, p)
    requires m1.done == m.done && m1.ran == m.ran && m1.speed == m.speed && Waiting(m1, p.asked)
    ensures Logged(m1, p)
  {
  }

  // ---- handlers ----

  lemma {:induction false} DispatchServes(m: Machine, hw: Hardware, n: nat, p: Past)
    requires Sound(m) && Serving(m, p) && n < MAX_MICROCOMMANDS_EXECUTED
    ensures Serving(DispatchFrom(m, hw, n), p)
    decreases MAX_MICROCOMMANDS_EXECUTED - n, |m.pending|
  {
    hide Advance, Accept, SoundWith, ServingWith;
    if Todo(m) != [] {
      AdvanceSound(m, hw(n));
      AdvanceServes(m, hw(n), p);
      var r := Advance(m, hw(n));
      if !(r.1.RepeatLater? || r.1.FetchLater? || n + 1 == MAX_MICROCOMMANDS_EXECUTED) {
        DispatchServes(r.0, hw, n + 1, p);
      }
    } else if m.pending != [] {
      AcceptSound(m);
      AcceptServes(m, p);
      DispatchServes(Accept(m), hw, n, p);
    } else {
      EmptyIdle(m);
    }
  }

  /** What is left is up to the end of the batch: a ping behind it adds nothing. */
  lemma {:induction false} LeftThen(q: seq<Command>, then_: seq<Command>, slot: int, own: int, buf: IoBuf, index: nat)
    requires InBatch(q, slot, own, buf, index)
    ensures Left(q + then_, buf, index) == Left(q, buf, index)
    decreases |q|
  {
    hide Each, Idle;
    var c, rest := q[0], q[1..];
    assert (q + then_)[1..] == rest + then_;
    match c.kind
    case Synch | CdeReset => LeftThen(rest, then_, -1, own, buf, index);
    case Reset => LeftThen(rest, then_, -1, own, buf, index);
    case PrepSelect => LeftThen(rest, then_, slot, own, buf, index);
    case Select => LeftThen(rest, then_, c.slot, own, buf, index);
    case Identify | GetId | StartDld | Status => LeftThen(rest, then_, slot, own, buf, index);
    case PrepRead | PrepWrite | PrepVerify => LeftThen(rest, then_, slot, own, c.buf, 0);
    case Read | Verify | Write => LeftThen(rest, then_, slot, own, buf, |buf|);
    case CompleteIo =>
  }

  lemma PingServes(m: Machine, hw: Hardware, p: Past)
    requires Sound(m) && Roomy(m) && Serving(m, p)
    ensures Serving(Ping(m, hw), p)
  {
    if !m.dipir && !m.ping {
      var m1 := Add(m.(ping := true), PingBatch());
      PingBatchShape();
      PingQueued(m, PingBatch());
      PingBehind(m, PingBatch(), p);
      hide Dispatch, PingBatch, Sound, Serving;
      DispatchServesAll(m1, hw, p);
    }
  }

  lemma PingBehind(m: Machine, b: seq<Command>, p: Past)
    requires Sound(m) && Serving(m, p)
    ensures Serving(Add(m.(ping := true), b), p)
  {
    hide Left, InBatch, AllRight, AllCalled, PingShape, OwnSlots, SlotsFit;
    var m1 := Add(m.(ping := true), b);
    assert Todo(m1) == Todo(m) + b;
    if m.current.Some? { LeftThen(Todo(m), b, m.slot, m.current.value.slot, m.buf, m.index); }
  }

  lemma DispatchServesAll(m: Machine, hw: Hardware, p: Past)
    requires Sound(m) && Serving(m, p)
    ensures Serving(Dispatch(m, hw), p)
  {
    hide Sound, Serving;
    if !m.dipir { DispatchServes(m, hw, 0, p); }
  }

  lemma {:induction false} WithoutAsked(rs: seq<Request>, id: int, asked: set<Request>)
    requires AllAsked(rs, asked)
    ensures AllAsked(Without(rs, id), asked)
  {
    if rs != [] && rs[0].id != id { WithoutAsked(rs[1..], id, asked); }
  }

  lemma {:induction false} InsertAsked(rs: seq<Request>, r: Request, asked: set<Request>)
    requires AllAsked(rs, asked) && r in asked
    ensures AllAsked(Insert(rs, r), asked)
  {
    if !(rs == [] || rs[|rs| - 1].priority >= r.priority) { InsertAsked(rs[..|rs| - 1], r, asked); }
  }

  /** A machine with no current request, and one completion more that ends no service. */
  lemma DroppedServes(m: Machine, m1: Machine, p: Past)
    requires Logged(m, p) && m1.current.None? && m1.done == m.done && m1.ran == m.ran && m1.speed == m.speed
    requires AllAsked(m1.pending, p.asked)
    ensures Serving(m1, p)
  {
  }

  lemma OutcomeJoins(m: Machine, m1: Machine, c: Completion, p: Past)
    requires Serving(m, p) && m1 == m.(done := m.done + [c]) && c.served.None? && (c.outcome.Aborted? || c.outcome.BadPriv?)
    ensures Serving(m1, p)
  {
    hide AllCalled, Left;
    assert m1.done[..|m.done|] == m.done && m1.done[|m.done|] == c;
    forall k | 0 <= k < |m1.done|
      ensures Right(m1.done[k], m1.ran, p.asked)
    {
      if k < |m.done| { assert m1.done[k] == m.done[k]; }
    }
  }

  lemma AbortServes(m: Machine, id: int, hw: Hardware, p: Past)
    requires Sound(m) && Roomy(m) && Serving(m, p)
    ensures Serving(Abort(m, id, hw), p)
  {
    hide Dispatch, PingShape, InBatch, AllRight, AllCalled, Left;
    var m1: Machine;
    if m.current.Some? && m.current.value.id == id {
      var m0 := Add(FlushAll(m).(current := None, slot := -1), ResetBatch());
      FreshSound(m0, ResetBatch());
      DroppedServes(m, m0, p);
      DispatchServesAll(m0, hw, p);
      m1 := Dispatch(m0, hw);
    } else {
      WithoutAsked(m.pending, id, p.asked);
      m1 := m.(pending := Without(m.pending, id));
      assert Serving(m1, p);
    }
    OutcomeJoins(m1, Abort(m, id, hw), Completion(id, Aborted, None), p);
  }

  lemma DuckServes(m: Machine, p: Past)
    requires Serving(m, p)
    ensures Serving(Duck(m), p)
  {
    hide Left, AllRight, AllCalled;
    DroppedServes(m, Duck(m), p);
  }

  /** What has been asked for so far may as well be more. */
  lemma ServingWider(m: Machine, p: Past, r: Request)
    requires Serving(m, p)
    ensures Serving(m, p.(asked := p.asked + {r}))
  {
    hide Left, Called, Right, Proceeds;
    var wider := p.asked + {r};
    AllRightStays(m.done, m.ran, m.ran, p.asked, wider);
  }

  lemma SubmitServes(m: Machine, r: Request, privileged: bool, internal: bool, hw: Hardware, p: Past)
    requires Sound(m) && Roomy(m) && Serving(m, p) && Proper(r) && r in p.asked
    ensures Serving(Submit(m, r, privileged, internal, hw), p)
  {
    hide Dispatch, PingShape, InBatch, AllRight, AllCalled, Left;
    if privileged {
      var m1 := m.(pending := Insert(m.pending, r));
      InsertAsked(m.pending, r, p.asked);
      assert Serving(m1, p);
      SubmitSound(m, r, true, true, hw);
      DispatchServesAll(m1, hw, p);
    } else {
      OutcomeJoins(m, Submit(m, r, privileged, internal, hw), Completion(r.id, BadPriv, None), p);
    }
  }

  function AskedBy(e: Event): set<Request> { if e.Submitted? then {e.request} else {} }

  lemma StepServes(m: Machine, e: Event, p: Past)
    requires Sound(m) && Roomy(m) && Serving(m, p) && Allowed(m, e)
    ensures Serving(Step(m, e), p.(asked := p.asked + AskedBy(e)))
  {
    hide Dispatch, Sound, Serving, Submit, Ping, Abort, Duck, Roomy;
    assert p.(asked := p.asked + {}) == p;
    match e
    case Submitted(r, privileged, internal, hw) =>
      ServingWider(m, p, r);
      SubmitServes(m, r, privileged, internal, hw, p.(asked := p.asked + {r}));
    case TimerFired(hw) => DispatchServesAll(m, hw, p);
    case PingFired(hw) => PingServes(m, hw, p);
    case AbortAsked(id, hw) => AbortServes(m, id, hw, p);
    case Ducked => DuckServes(m, p);
    case Recovered => RecoverServes(m, p);
  }

  lemma RecoverServes(m: Machine, p: Past)
    requires Serving(m, p)
    ensures Serving(Recover(m), p)
  {
    hide Left, AllRight, AllCalled;
  }

  // ---- runs ----

  function AskedIn(es: seq<Event>): set<Request>
  {
    if es == [] then {} else AskedIn(es[..|es| - 1]) + AskedBy(es[|es| - 1])
  }

  lemma {:induction false} RunServes(m: Machine, es: seq<Event>)
    requires Sound(m) && Roomy(m) && AllAllowed(m, es) && Serving(m, Past({}, m.speed))
    ensures Serving(Run(m, es), Past(AskedIn(es), m.speed))
  {
    hide Sound, Step, Serving, Roomy, Allowed;
    if es != [] {
      var before := es[..|es| - 1];
      RunServes(m, before);
      RunSound(m, before);
      StepServes(Run(m, before), es[|es| - 1], Past(AskedIn(before), m.speed));
    }
  }

  lemma StartServes(speed: nat, cards: seq<Card>)
    ensures Serving(Start(speed, cards), Past({}, speed))
  {
  }

  lemma RunLogged(speed: nat, cards: seq<Card>, es: seq<Event>)
    requires |cards| == NUM_USLOTS && AllAllowed(Start(speed, cards), es)
    ensures Logged(Run(Start(speed, cards), es), Past(AskedIn(es), speed))
  {
    StartSound(speed, cards);
    StartServes(speed, cards);
    RunServes(Start(speed, cards), es);
  }

  /** Over any run, whatever is carried out for a request is something a submitted request asks for: a read by a
      read, a write of a byte by a write of that byte, and so on. */
  lemma OnlyAsAsked(speed: nat, cards: seq<Card>, es: seq<Event>, k: nat)
    requires |cards| == NUM_USLOTS && AllAllowed(Start(speed, cards), es) && k < |Run(Start(speed, cards), es).ran|
    ensures var w := Run(Start(speed, cards), es).ran[k];
            var acts := Acts(w.request.order);
            w.request in AskedIn(es) &&
            exists j :: 0 <= j < |acts| && acts[j].kind == w.kind && (w.kind.Write? ==> acts[j].byte == w.byte)
  {
    RunLogged(speed, cards, es);
    assert Called(Run(Start(speed, cards), es).ran[k]);
  }

  /** Over any run, a request completed Ok has had everything it asks for carried out, in order and nothing else,
      since it was taken up. A bad card is reported exactly for a verify that came upon another byte, with all
      before it as asked for. A refused request has had nothing carried out. */
  lemma CompletedAsAsked(speed: nat, cards: seq<Card>, es: seq<Event>, k: nat)
    requires |cards| == NUM_USLOTS && AllAllowed(Start(speed, cards), es) && k < |Run(Start(speed, cards), es).done|
    ensures var m := Run(Start(speed, cards), es);
            var c := m.done[k];
            match c.served
            case None => c.outcome.Aborted? || c.outcome.BadPriv?
            case Some(v) =>
              && v.request in AskedIn(es) && v.request.id == c.id && v.from <= v.to <= |m.ran|
              && AllFor(m.ran[v.from..v.to], v.request)
              && Fitting(m.ran[v.from..v.to], c.outcome, v.request.order)
  {
    RunLogged(speed, cards, es);
    assert Right(Run(Start(speed, cards), es).done[k], Run(Start(speed, cards), es).ran, AskedIn(es));
  }

  /** Over any run, the speed in force is that of the last clock request completed Ok. */
  lemma SpeedAsSet(speed: nat, cards: seq<Card>, es: seq<Event>)
    requires |cards| == NUM_USLOTS && AllAllowed(Start(speed, cards), es)
    ensures var m := Run(Start(speed, cards), es); m.speed == LastClock(m.done, speed)
  {
    RunLogged(speed, cards, es);
  }
}
