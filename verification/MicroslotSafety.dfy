/** What holds of the microcommand engine over every run of its handlers. */
module MicroslotSafety {
  import opened Options
  import opened Microslot

  // ---- the shape of the queue ----

  /** Nothing in q touches a request. */
  predicate Idle(q: seq<Command>) { forall i :: 0 <= i < |q| ==> !ForRequest(q[i].kind) }

  function MoveOf(k: Kind): Kind { if k.PrepRead? then Read else if k.PrepWrite? then Write else Verify }

  /** q begins with what is left of the batch of a request for slot own, which completes it and ends; with
      slot selected and index bytes of buf moved, every microcommand that needs the slot finds own selected,
      and no byte outside a buffer is moved. */
  predicate InBatch(q: seq<Command>, slot: int, own: int, buf: IoBuf, index: nat)
    decreases |q|
  {
    q != [] &&
    var c, rest := q[0], q[1..];
    match c.kind
    case Synch | CdeReset => InBatch(rest, -1, own, buf, index)
    case Reset => slot == own && InBatch(rest, -1, own, buf, index)
    case PrepSelect => InBatch(rest, slot, own, buf, index)
    case Select => InBatch(rest, c.slot, own, buf, index)
    case Identify | GetId | StartDld | Status => slot == own && InBatch(rest, slot, own, buf, index)
    case PrepRead | PrepWrite | PrepVerify =>
      slot == own && c.buf != [] && rest != [] && rest[0].kind == MoveOf(c.kind) && InBatch(rest, slot, own, c.buf, 0)
    case Read | Verify => slot == own && index < |buf| && InBatch(rest, slot, own, buf, |buf|)
    case Write => slot == own && index <= |buf| && InBatch(rest, slot, own, buf, |buf|)
    case CompleteIo => rest != [] && rest[0].kind.End? && Idle(rest[1..])
    case PingDone | End => false
  }

  predicate NoPing(q: seq<Command>) { forall i :: 0 <= i < |q| ==> !q[i].kind.PingDone? }

  /** The only MICRO_PINGDONE is the last but one, and MICRO_END the last. */
  predicate PingLast(q: seq<Command>)
  {
    |q| >= 2 && q[|q| - 2].kind.PingDone? && q[|q| - 1].kind.End? && NoPing(q[..|q| - 2])
  }

  /** At most one ping batch of 23, and besides it a slot to select, 20 microcommands and the end of a batch. */
  predicate PingShape(q: seq<Command>, ping: bool)
  {
    if ping then PingLast(q) && |q| <= 48 else NoPing(q) && |q| <= 25
  }

  // ---- the invariant ----

  /** An order is refused or done at once, or queued as its batch. */
  predicate Queued(order: Order)
  {
    match order
    case Sequence(bytes, entries) =>
      bytes % SEQ_SIZE == 0 && bytes / SEQ_SIZE <= 5 && forall i :: 0 <= i < |entries| ==> KnownEntry(entries[i])
    case StreamRead(b) => b != []
    case StreamWrite(b) => b != []
    case ResetCards | CardStatus => true
    case _ => false
  }

  const ROOM: nat := 20

  /** A sequence that is not refused leaves room for a ping. */
  predicate Fits(order: Order) { order.Sequence? && Queued(order) ==> |EntriesBatch(order.entries)| <= ROOM }

  /** What a caller has to keep to: a slot there is, and a zero entry within reach. */
  predicate Proper(r: Request) { r.slot < NUM_USLOTS && Fits(r.order) }

  predicate AllProper(rs: seq<Request>) { forall i :: 0 <= i < |rs| ==> Proper(rs[i]) }

  predicate SlotsFit(q: seq<Command>) { forall i :: 0 <= i < |q| ==> q[i].slot < NUM_USLOTS }

  /** Every microcommand carried out for a request was carried out with its own slot selected. */
  predicate OwnSlots(ran: seq<Ran>) { forall i :: 0 <= i < |ran| ==> ran[i].selected == ran[i].request.slot }

  /** The current request fits the microcommands still to be executed. */
  predicate Backed(q: seq<Command>, m: Machine)
  {
    match m.current
    case None => Idle(q)
    case Some(r) => Proper(r) && InBatch(q, m.slot, r.slot, m.buf, m.index)
  }

  predicate Based(m: Machine)
  {
    -1 <= m.slot < NUM_USLOTS && |m.cards| == NUM_USLOTS && AllProper(m.pending) && OwnSlots(m.ran)
  }

  predicate SoundWith(m: Machine, q: seq<Command>)
  {
    Based(m) && SlotsFit(q) && PingShape(q, m.ping) && Backed(q, m)
  }

  predicate Sound(m: Machine) { SoundWith(m, Todo(m)) }

  /** Between handlers one microcommand at least has left the ring: a ping has room there. */
  predicate Roomy(m: Machine) { |m.queue| <= if m.ping then 47 else 24 }

  lemma StartSound(speed: nat, cards: seq<Card>)
    requires |cards| == NUM_USLOTS
    ensures Sound(Start(speed, cards)) && Roomy(Start(speed, cards))
  {
  }

  // ---- ExecuteMicroCommand ----

  /** After c is executed: it is to be repeated, or it is gone. */
  predicate SoundAfter(r: (Machine, Then), c: Command)
  {
    SoundWith(r.0, if r.1.Repeat? || r.1.RepeatLater? then [c] + r.0.queue else r.0.queue)
  }

  lemma HeadGone(c: Command, q: seq<Command>, ping: bool)
    requires PingShape([c] + q, ping) && SlotsFit([c] + q)
    ensures SlotsFit(q)
    ensures if ping && c.kind.PingDone? then NoPing(q) && |q| <= 24 else PingShape(q, ping)
    ensures Idle([c] + q) ==> Idle(q)
  {
    var all := [c] + q;
    assert all[1..] == q && forall i :: 0 <= i < |q| ==> q[i] == all[i + 1];
    if ping { HeadOfPing(c, q, all); }
  }

  lemma HeadOfPing(c: Command, q: seq<Command>, all: seq<Command>)
    requires all == [c] + q && PingLast(all)
    ensures if c.kind.PingDone? then |q| == 1 && q[0].kind.End? else PingLast(q)
  {
    var before := all[..|all| - 2];
    assert forall i :: 0 <= i < |before| ==> before[i] == all[i];
    if |q| > 1 {
      assert before[0] == c;
      assert before[1..] == q[..|q| - 2];
      assert forall i :: 0 <= i < |q| - 2 ==> before[1..][i] == before[i + 1];
    }
  }

  /** What is behind the end of a batch keeps its shape. */
  lemma {:induction false} AfterEndShape(q: seq<Command>, slot: int, own: int, buf: IoBuf, index: nat, ping: bool)
    requires InBatch(q, slot, own, buf, index) && PingShape(q, ping) && SlotsFit(q)
    ensures var r := AfterEnd(q); PingShape(r, ping) && SlotsFit(r) && Idle(r)
    decreases |q|, 1
  {
    var c, rest := q[0], q[1..];
    assert [c] + rest == q;
    HeadGone(c, rest, ping);
    if c.kind.CompleteIo? {
      assert [rest[0]] + rest[1..] == rest;
      HeadGone(rest[0], rest[1..], ping);
      assert AfterEnd(rest) == rest[1..];
    } else {
      BatchRest(q, slot, own, buf, index, ping);
    }
  }

  lemma BatchRest(q: seq<Command>, slot: int, own: int, buf: IoBuf, index: nat, ping: bool)
    requires InBatch(q, slot, own, buf, index) && !q[0].kind.CompleteIo? && PingShape(q[1..], ping) && SlotsFit(q[1..])
    ensures var r := AfterEnd(q); PingShape(r, ping) && SlotsFit(r) && Idle(r)
    decreases |q|, 0
  {
    var c, rest := q[0], q[1..];
    match c.kind
    case Synch | Reset | CdeReset => AfterEndShape(rest, -1, own, buf, index, ping);
    case PrepSelect => AfterEndShape(rest, slot, own, buf, index, ping);
    case Select => AfterEndShape(rest, c.slot, own, buf, index, ping);
    case Identify | GetId | StartDld | Status => AfterEndShape(rest, slot, own, buf, index, ping);
    case PrepRead | PrepWrite | PrepVerify => AfterEndShape(rest, slot, own, c.buf, 0, ping);
    case Read | Verify | Write => AfterEndShape(rest, slot, own, buf, |buf|, ping);
  }

  /** Abandoning the current batch with its request. */
  lemma BatchFlushed(m: Machine, c: Command, outcome: Outcome)
    requires SoundWith(m, [c] + m.queue) && m.current.Some? && NeedsCard(c.kind)
    ensures var m1 := Complete(FlushBatch(m), outcome); SoundWith(m1, m1.queue)
  {
    hide PingShape, SlotsFit, OwnSlots, InBatch, Idle;
    var q := [c] + m.queue;
    assert q[1..] == m.queue && q[0] == c;
    HeadGone(c, m.queue, m.ping);
    BatchRest(q, m.slot, m.current.value.slot, m.buf, m.index, m.ping);
    assert AfterEnd(q) == AfterEnd(m.queue);
  }

  lemma Repeated(m: Machine, c: Command)
    requires SoundWith(m, [c] + m.queue)
    ensures SoundAfter((m, Repeat), c) && SoundAfter((m, RepeatLater), c)
  {
  }

  lemma Skipped(m: Machine, c: Command)
    requires SoundWith(m, [c] + m.queue) && m.current.None? && !c.kind.PingDone?
    ensures SoundAfter((m, Fetch), c)
  {
    HeadGone(c, m.queue, m.ping);
  }

  /** Noting a microcommand while its request's slot is selected. */
  lemma NotedOwn(m: Machine, kind: Kind, byte: int)
    requires OwnSlots(m.ran) && (m.current.Some? ==> m.slot == m.current.value.slot)
    ensures OwnSlots(Noted(m, kind, byte).ran)
  {
  }

  lemma InBatchHead(m: Machine, c: Command)
    requires SoundWith(m, [c] + m.queue) && (ForRequest(c.kind) || m.current.Some?)
    ensures m.current.Some?
    ensures InBatch([c] + m.queue, m.slot, m.current.value.slot, m.buf, m.index) && ([c] + m.queue)[1..] == m.queue
  {
    assert ([c] + m.queue)[0] == c;
  }

  lemma PerformSelects(m: Machine, c: Command, h: Sample)
    requires SoundWith(m, [c] + m.queue)
    requires c.kind.Synch? || c.kind.Reset? || c.kind.CdeReset? || c.kind.Select? || c.kind.PrepSelect?
    ensures SoundAfter(Perform(m, c, h), c)
  {
    HeadGone(c, m.queue, m.ping);
    assert c == ([c] + m.queue)[0];
    if m.current.Some? {
      InBatchHead(m, c);
      if c.kind.Reset? { NotedOwn(m, c.kind, 0); }
    }
  }

  lemma PerformMoves(m: Machine, c: Command, h: Sample)
    requires SoundWith(m, [c] + m.queue) && Moves(c.kind)
    ensures SoundAfter(Perform(m, c, h), c)
  {
    hide PingShape, SlotsFit, OwnSlots;
    InBatchHead(m, c);
    HeadGone(c, m.queue, m.ping);
    NotedOwn(m, c.kind, if c.kind.Write? then NextByte(m) else h.data);
    var m1 := Noted(m, c.kind, h.data).(index := m.index + 1);
    assert ([c] + m.queue)[0] == c;
    if c.kind.Verify? && m.buf[m.index] != h.data {
      AfterEndShape(m.queue, m.slot, m.current.value.slot, m.buf, |m.buf|, m.ping);
    }
  }

  lemma PerformPreps(m: Machine, c: Command, h: Sample)
    requires SoundWith(m, [c] + m.queue)
    requires Preps(c.kind) || c.kind.StartDld? || c.kind.Status? || c.kind.Identify? || c.kind.GetId?
    ensures SoundAfter(Perform(m, c, h), c)
  {
    hide PingShape, SlotsFit, OwnSlots;
    HeadGone(c, m.queue, m.ping);
    assert ([c] + m.queue)[0] == c;
    if m.current.Some? || ForRequest(c.kind) {
      InBatchHead(m, c);
      if !Preps(c.kind) { NotedOwn(m, c.kind, if c.kind.GetId? then h.data else 0); }
    }
  }

  lemma PerformEnds(m: Machine, c: Command, h: Sample)
    requires SoundWith(m, [c] + m.queue) && (c.kind.CompleteIo? || c.kind.PingDone? || c.kind.End?)
    ensures SoundAfter(Perform(m, c, h), c)
  {
    hide PingLast, SlotsFit, OwnSlots;
    HeadGone(c, m.queue, m.ping);
    assert ([c] + m.queue)[0] == c;
    if m.current.Some? || ForRequest(c.kind) {
      InBatchHead(m, c);
      if c.kind.CompleteIo? { EndIdle(m.queue); }
    }
  }

  lemma EndIdle(q: seq<Command>)
    requires q != [] && q[0].kind.End? && Idle(q[1..])
    ensures Idle(q)
  {
    assert forall i :: 1 <= i < |q| ==> q[i] == q[1..][i - 1];
  }

  lemma PerformSound(m: Machine, c: Command, h: Sample)
    requires SoundWith(m, [c] + m.queue)
    ensures SoundAfter(Perform(m, c, h), c)
  {
    hide Perform, SoundAfter, SoundWith;
    match c.kind
    case Synch | Reset | CdeReset | Select | PrepSelect => PerformSelects(m, c, h);
    case Read | Write | Verify => PerformMoves(m, c, h);
    case CompleteIo | PingDone | End => PerformEnds(m, c, h);
    case _ => PerformPreps(m, c, h);
  }

  lemma AwaitSound(m: Machine, c: Command, h: Sample)
    requires SoundWith(m, [c] + m.queue)
    ensures SoundAfter(Await(m, c, h), c)
  {
    hide Perform, InBatch, OwnSlots, PingLast;
    PerformSound(m, c, h);
    PerformSound(m.(outFull := 0), c, h);
  }

  lemma BatchNeedsSlot(m: Machine, c: Command)
    requires SoundWith(m, [c] + m.queue) && m.current.Some? && NeedsCard(c.kind)
    ensures m.slot >= 0
  {
    InBatchHead(m, c);
    assert ([c] + m.queue)[0] == c;
  }

  lemma ExecSound(m: Machine, c: Command, h: Sample)
    requires SoundWith(m, [c] + m.queue)
    ensures SoundAfter(Exec(m, c, h), c)
  {
    hide Await, InBatch, PingShape, OwnSlots, SlotsFit, Complete, FlushBatch, Idle;
    var m1 := m.(dipir := m.dipir || h.present);
    AwaitSound(m, c, h);
    AwaitSound(m1, c, h);
    AwaitSound(Inserted(m), c, h);
    Repeated(m.(dipir := true), c);
    if NeedsCard(c.kind) {
      if m.current.Some? {
        BatchFlushed(m1, c, Offline);
        BatchNeedsSlot(m, c);
      } else {
        Skipped(m, c);
        Skipped(m1, c);
      }
    }
  }

  // ---- a request becomes microcommands ----

  /** q serves whatever the buffer in hand. */
  ghost predicate Serves(q: seq<Command>, own: nat)
  {
    forall buf, index :: InBatch(q, own, own, buf, index)
  }

  lemma FinishServes(own: nat)
    ensures Serves(FinishBatch(), own)
  {
    forall buf, index
      ensures InBatch(FinishBatch(), own, own, buf, index)
    {
      assert FinishBatch()[1..] == [Plain(End)] && [Plain(End)][1..] == [];
    }
  }

  lemma PrepServes(prep: Command, move: Command, q: seq<Command>, own: nat)
    requires Serves(q, own) && Preps(prep.kind) && prep.buf != [] && move.kind == MoveOf(prep.kind)
    ensures Serves([prep, move] + q, own)
  {
    var all := [prep, move] + q;
    forall buf, index
      ensures InBatch(all, own, own, buf, index)
    {
      assert all[1..][1..] == q;
      assert InBatch(q, own, own, prep.buf, |prep.buf|);
    }
  }

  lemma OneServes(c: Command, q: seq<Command>, own: nat)
    requires Serves(q, own) && (c.kind.StartDld? || c.kind.Status? || c.kind.Identify? || c.kind.GetId?)
    ensures Serves([c] + q, own)
  {
    var all := [c] + q;
    forall buf, index
      ensures InBatch(all, own, own, buf, index)
    {
      assert all[1..] == q;
    }
  }

  lemma EntryServes(e: Entry, q: seq<Command>, own: nat)
    requires KnownEntry(e) && Serves(q, own)
    ensures Serves(EntryBatch(e) + q, own)
  {
    if e.cmd == 4 {
      OneServes(Plain(StartDld), q, own);
    } else if e.buf == [] {
      assert EntryBatch(e) + q == q;
    } else {
      PrepServes(EntryBatch(e)[0], EntryBatch(e)[1], q, own);
      assert EntryBatch(e) == [EntryBatch(e)[0], EntryBatch(e)[1]];
    }
  }

  lemma {:induction false} EntriesServe(es: seq<Entry>, q: seq<Command>, own: nat)
    requires (forall i :: 0 <= i < |es| ==> KnownEntry(es[i])) && Serves(q, own)
    ensures Serves(EntriesBatch(es) + q, own)
  {
    if es == [] {
      assert EntriesBatch(es) + q == q;
    } else {
      var last, front := EntryBatch(es[|es| - 1]), es[..|es| - 1];
      EntryServes(es[|es| - 1], q, own);
      EntriesServe(front, last + q, own);
      assert EntriesBatch(es) + q == EntriesBatch(front) + (last + q);
    }
  }

  /** Nothing of a ping in it, and slots that exist. */
  predicate Modest(q: seq<Command>) { NoPing(q) && SlotsFit(q) }

  lemma {:induction false} EntriesModest(es: seq<Entry>)
    ensures Modest(EntriesBatch(es))
  {
    if es != [] { EntriesModest(es[..|es| - 1]); }
  }

  /** The batch of an order, when it makes one. */
  function OrderBatch(order: Order): seq<Command>
  {
    match order
    case Sequence(_, entries) => EntriesBatch(entries) + FinishBatch()
    case StreamRead(b) => [Command(PrepRead, 0, b), Plain(Read)] + FinishBatch()
    case StreamWrite(b) => [Command(PrepWrite, 0, b), Plain(Write)] + FinishBatch()
    case ResetCards => [Plain(Reset), Plain(CdeReset)] + FinishBatch()
    case CardStatus => [Plain(Identify), Plain(GetId), Plain(Status)] + FinishBatch()
    case _ => []
  }

  /** The machine without the current request, whatever its clock and its outcomes. */
  predicate Dropped(m: Machine, m1: Machine)
  {
    && m1.current.None? && m1.repeating == m.repeating && m1.pending == m.pending && m1.slot == m.slot
    && m1.cards == m.cards && m1.ran == m.ran && (m1.queue == m.queue || m1.queue == [])
    && m1.ping == (m.ping && m1.queue == m.queue && m.queue != [])
  }

  lemma OrderExpanded(m: Machine, order: Order)
    requires m.current.Some? && m.repeating.None? && !m.ping
    ensures if Queued(order) then ExpandOrder(m, order) == Add(m, OrderBatch(order)) else Dropped(m, ExpandOrder(m, order))
  {
  }

  lemma OrderServes(order: Order, own: nat)
    requires Queued(order) && own < NUM_USLOTS && Fits(order)
    ensures Modest(OrderBatch(order)) && |OrderBatch(order)| <= ROOM + 2
    ensures forall buf, index :: InBatch(OrderBatch(order), own, own, buf, index)
  {
    FinishServes(own);
    match order
    case Sequence(_, entries) => EntriesServe(entries, FinishBatch(), own); EntriesModest(entries);
    case StreamRead(b) => PrepServes(Command(PrepRead, 0, b), Plain(Read), FinishBatch(), own);
    case StreamWrite(b) => PrepServes(Command(PrepWrite, 0, b), Plain(Write), FinishBatch(), own);
    case ResetCards => ResetServes(own);
    case CardStatus =>
      OneServes(Plain(Status), FinishBatch(), own);
      OneServes(Plain(GetId), [Plain(Status)] + FinishBatch(), own);
      OneServes(Plain(Identify), [Plain(GetId)] + ([Plain(Status)] + FinishBatch()), own);
      assert OrderBatch(order) == [Plain(Identify)] + ([Plain(GetId)] + ([Plain(Status)] + FinishBatch()));
  }

  lemma ResetServes(own: nat)
    ensures Serves(OrderBatch(ResetCards), own)
  {
    var q := OrderBatch(ResetCards);
    forall buf, index
      ensures InBatch(q, own, own, buf, index)
    {
      assert q[1..][1..] == FinishBatch();
      assert FinishBatch()[1..] == [Plain(End)] && [Plain(End)][1..] == [];
    }
  }

  lemma SelectServes(q: seq<Command>, slot: int, own: nat, buf: IoBuf, index: nat)
    requires InBatch(q, own, own, buf, index)
    ensures InBatch(SelectBatch(own) + q, slot, own, buf, index)
  {
    var all := SelectBatch(own) + q;
    assert all[1..][1..][1..] == q;
    assert all[1..][0] == all[1] && all[1..][1..][0] == all[2];
  }

  /** A request that makes no batch is gone; at most a slot is still to be selected. */
  lemma DroppedSound(m: Machine, m1: Machine)
    requires Dropped(m, m1) && !m.ping && m.repeating.None? && Idle(m.queue) && NoPing(m.queue) && |m.queue| <= 25
    requires Based(m) && SlotsFit(m.queue)
    ensures Sound(m1)
  {
    assert Todo(m1) == m1.queue;
  }

  lemma QueuedSound(m: Machine, q: seq<Command>, r: Request)
    requires m.current == Some(r) && Proper(r) && !m.ping && m.repeating.None?
    requires Based(m)
    requires m.queue == (if m.slot != r.slot then SelectBatch(r.slot) else []) && Queued(r.order)
    ensures Sound(Add(m, OrderBatch(r.order)))
  {
    hide InBatch, OrderBatch;
    var q := OrderBatch(r.order);
    OrderServes(r.order, r.slot);
    assert InBatch(q, r.slot, r.slot, m.buf, m.index);
    SelectServes(q, m.slot, r.slot, m.buf, m.index);
    assert [] + q == q;
    assert Todo(Add(m, q)) == m.queue + q;
  }

  /** With nothing left to execute there is no current request and no ping. */
  lemma EmptyIdle(m: Machine)
    requires Sound(m) && Todo(m) == []
    ensures m.current.None? && m.queue == [] && m.repeating.None? && !m.ping && Based(m)
  {
  }

  lemma NextProper(m: Machine)
    requires Based(m) && m.pending != []
    ensures Proper(m.pending[0]) && Based(m.(current := Some(m.pending[0]), pending := m.pending[1..], since := |m.ran|))
  {
  }

  /** The slot of a request about to be expanded. */
  function Selecting(m: Machine, r: Request): Machine
  {
    if m.slot != r.slot then Add(m, SelectBatch(r.slot)) else m
  }

  lemma SelectingIdle(m: Machine, r: Request)
    requires m.queue == [] && Based(m) && Proper(r)
    ensures var m2 := Selecting(m, r);
            && Based(m2) && m2 == m.(queue := if m.slot != r.slot then SelectBatch(r.slot) else [])
            && Idle(m2.queue) && Modest(m2.queue) && |m2.queue| <= 3
  {
    hide AllProper, OwnSlots, Fits;
    assert [] + SelectBatch(r.slot) == SelectBatch(r.slot);
  }

  /** A request is taken up only when no microcommand is left, and then none is current. */
  lemma AcceptSound(m: Machine)
    requires Sound(m) && Todo(m) == [] && m.pending != []
    ensures m.current.None? && Sound(Accept(m)) && |Accept(m).pending| == |m.pending| - 1
  {
    EmptyIdle(m);
    NextProper(m);
    hide InBatch, OrderBatch, ExpandOrder, Sound, Based, Queued, Idle, NoPing, SlotsFit;
    var r := m.pending[0];
    var m1 := m.(current := Some(r), pending := m.pending[1..], since := |m.ran|);
    SelectingIdle(m1, r);
    OrderExpanded(Selecting(m1, r), r.order);
    if Queued(r.order) {
      QueuedSound(Selecting(m1, r), OrderBatch(r.order), r);
    } else {
      DroppedSound(Selecting(m1, r), Accept(m));
    }
  }

  // ---- whole handlers ----

  lemma AdvanceSound(m: Machine, h: Sample)
    requires Sound(m) && Todo(m) != []
    ensures Sound(Advance(m, h).0)
  {
    hide Exec, SoundWith;
    var c := Todo(m)[0];
    assert [c] + Taken(m).queue == Todo(m);
    SoundAlike(m, Taken(m), Todo(m));
    ExecSound(Taken(m), c, h);
    var r := Exec(Taken(m), c, h);
    SoundAlike(r.0, Advance(m, h).0, Todo(Advance(m, h).0));
    assert [] + r.0.queue == r.0.queue;
  }

  /** Soundness does not depend on how the microcommands are held. */
  lemma SoundAlike(m: Machine, m1: Machine, q: seq<Command>)
    requires m1 == m.(queue := m1.queue, repeating := m1.repeating)
    ensures SoundWith(m1, q) == SoundWith(m, q)
  {
  }

  // ---- room for a ping ----

  /** Executing queues nothing, and a ping ends only by its last microcommand or with everything else. */
  predicate Leaves(m: Machine, c: Command, m1: Machine)
  {
    && |m1.queue| <= |m.queue| && (m1.ping ==> m.ping)
    && (m.ping && !m1.ping ==> m1.queue == [] || (c.kind.PingDone? && m1.queue == m.queue))
  }

  lemma ExecLeaves(m: Machine, c: Command, h: Sample)
    ensures Leaves(m, c, Exec(m, c, h).0)
  {
    hide Await;
    AwaitLeaves(m, c, h);
    AwaitLeaves(m.(dipir := m.dipir || h.present), c, h);
    AwaitLeaves(Inserted(m), c, h);
  }

  lemma AwaitLeaves(m: Machine, c: Command, h: Sample)
    ensures Leaves(m, c, Await(m, c, h).0)
  {
    hide Perform;
    PerformLeaves(m, c, h);
    PerformLeaves(m.(outFull := 0), c, h);
  }

  lemma PerformLeaves(m: Machine, c: Command, h: Sample)
    ensures Leaves(m, c, Perform(m, c, h).0)
  {
  }

  lemma AdvanceRoomy(m: Machine, h: Sample)
    requires Sound(m) && Todo(m) != []
    ensures Roomy(Advance(m, h).0)
  {
    hide Exec, SlotsFit, Backed, Based, PingLast, NoPing;
    var c := Todo(m)[0];
    assert [c] + Taken(m).queue == Todo(m);
    ExecLeaves(Taken(m), c, h);
    HeadGone(c, Taken(m).queue, m.ping);
  }

  lemma {:induction false} DispatchSound(m: Machine, hw: Hardware, n: nat)
    requires Sound(m) && n < MAX_MICROCOMMANDS_EXECUTED
    ensures Sound(DispatchFrom(m, hw, n)) && Roomy(DispatchFrom(m, hw, n))
    decreases MAX_MICROCOMMANDS_EXECUTED - n, |m.pending|
  {
    hide Advance, Accept, SoundWith;
    if Todo(m) != [] {
      AdvanceSound(m, hw(n));
      AdvanceRoomy(m, hw(n));
      var r := Advance(m, hw(n));
      if !(r.1.RepeatLater? || r.1.FetchLater? || n + 1 == MAX_MICROCOMMANDS_EXECUTED) {
        DispatchSound(r.0, hw, n + 1);
      }
    } else if m.pending != [] {
      AcceptSound(m);
      DispatchSound(Accept(m), hw, n);
    } else {
      EmptyIdle(m);
    }
  }

  lemma DispatchKeepsSound(m: Machine, hw: Hardware)
    requires Sound(m) && Roomy(m)
    ensures Sound(Dispatch(m, hw)) && Roomy(Dispatch(m, hw))
  {
    DispatchSound(m, hw, 0);
  }

  lemma {:induction false} PingSlotsShape(n: nat)
    requires n <= NUM_USLOTS
    ensures Idle(PingSlots(n)) && Modest(PingSlots(n))
  {
    if n > 0 { PingSlotsShape(n - 1); }
  }

  lemma PingBatchShape()
    ensures Idle(PingBatch()) && SlotsFit(PingBatch()) && PingLast(PingBatch())
  {
    PingSlotsShape(NUM_USLOTS);
    var q := PingBatch();
    assert q[..|q| - 2] == [Plain(CdeReset)] + PingSlots(NUM_USLOTS);
  }

  /** A batch behind what is there leaves the request's own batch in front. */
  lemma {:induction false} InBatchThen(q: seq<Command>, p: seq<Command>, slot: int, own: int, buf: IoBuf, index: nat)
    requires InBatch(q, slot, own, buf, index) && Idle(p)
    ensures InBatch(q + p, slot, own, buf, index)
    decreases |q|
  {
    var c, rest := q[0], q[1..];
    assert (q + p)[1..] == rest + p;
    match c.kind
    case Synch | Reset | CdeReset => InBatchThen(rest, p, -1, own, buf, index);
    case PrepSelect => InBatchThen(rest, p, slot, own, buf, index);
    case Select => InBatchThen(rest, p, c.slot, own, buf, index);
    case Identify | GetId | StartDld | Status => InBatchThen(rest, p, slot, own, buf, index);
    case PrepRead | PrepWrite | PrepVerify => InBatchThen(rest, p, slot, own, c.buf, 0);
    case Read | Verify | Write => InBatchThen(rest, p, slot, own, buf, |buf|);
    case CompleteIo => assert (rest + p)[1..] == rest[1..] + p;
  }

  lemma PingQueued(m: Machine, p: seq<Command>)
    requires Sound(m) && Roomy(m) && !m.ping && Idle(p) && SlotsFit(p) && PingLast(p) && |p| == 23
    ensures Sound(Add(m.(ping := true), p)) && Roomy(Add(m.(ping := true), p))
  {
    var q, m1 := Todo(m), Add(m.(ping := true), p);
    assert Todo(m1) == q + p;
    assert (q + p)[..|q + p| - 2] == q + p[..|p| - 2];
    if m.current.Some? { InBatchThen(q, p, m.slot, m.current.value.slot, m.buf, m.index); }
  }

  lemma PingSound(m: Machine, hw: Hardware)
    requires Sound(m) && Roomy(m)
    ensures Sound(Ping(m, hw)) && Roomy(Ping(m, hw))
  {
    hide Dispatch, PingBatch, Sound;
    if !m.ping {
      PingBatchShape();
      PingQueued(m, PingBatch());
      DispatchKeepsSound(Add(m.(ping := true), PingBatch()), hw);
    }
  }

  lemma {:induction false} WithoutProper(rs: seq<Request>, id: int)
    requires AllProper(rs)
    ensures AllProper(Without(rs, id))
  {
    if rs != [] && rs[0].id != id { WithoutProper(rs[1..], id); }
  }

  /** A machine between batches. */
  lemma FreshSound(m: Machine, q: seq<Command>)
    requires m.queue == q && m.repeating.None? && m.current.None? && !m.ping && -1 <= m.slot < NUM_USLOTS && |m.cards| == NUM_USLOTS
    requires AllProper(m.pending) && OwnSlots(m.ran) && Idle(q) && Modest(q) && |q| <= 24
    ensures Sound(m) && Roomy(m)
  {
    assert Todo(m) == q;
  }

  lemma AbortSound(m: Machine, id: int, hw: Hardware)
    requires Sound(m) && Roomy(m)
    ensures Sound(Abort(m, id, hw)) && Roomy(Abort(m, id, hw))
  {
    hide Dispatch, PingShape, InBatch;
    if m.current.Some? && m.current.value.id == id {
      var m1 := Add(FlushAll(m).(current := None, slot := -1), ResetBatch());
      FreshSound(m1, ResetBatch());
      DispatchKeepsSound(m1, hw);
    } else {
      WithoutProper(m.pending, id);
    }
  }

  lemma DuckSound(m: Machine)
    requires Sound(m)
    ensures Sound(Duck(m)) && Roomy(Duck(m))
  {
    hide PingShape, InBatch;
    FreshSound(Duck(m), []);
  }

  lemma {:induction false} InsertProper(rs: seq<Request>, r: Request)
    requires AllProper(rs) && Proper(r)
    ensures AllProper(Insert(rs, r))
  {
    if !(rs == [] || rs[|rs| - 1].priority >= r.priority) { InsertProper(rs[..|rs| - 1], r); }
  }

  lemma SubmitSound(m: Machine, r: Request, privileged: bool, internal: bool, hw: Hardware)
    requires Sound(m) && Roomy(m) && Proper(r)
    ensures Sound(Submit(m, r, privileged, internal, hw)) && Roomy(Submit(m, r, privileged, internal, hw))
  {
    hide Dispatch, PingShape, InBatch;
    InsertProper(m.pending, r);
    if privileged && !internal { DispatchKeepsSound(m.(pending := Insert(m.pending, r)), hw); }
  }

  predicate Legal(e: Event) { e.Submitted? ==> Proper(e.request) }

  lemma StepSound(m: Machine, e: Event)
    requires Sound(m) && Roomy(m) && Legal(e)
    ensures Sound(Step(m, e)) && Roomy(Step(m, e))
  {
    match e
    case Submitted(r, privileged, internal, hw) => SubmitSound(m, r, privileged, internal, hw);
    case TimerFired(hw) => DispatchKeepsSound(m, hw);
    case PingFired(hw) => PingSound(m, hw);
    case AbortAsked(id, hw) => AbortSound(m, id, hw);
    case Ducked => DuckSound(m);
    case Recovered =>
  }
}
