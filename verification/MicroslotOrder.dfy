/** The order requests are taken up in, what a ping finds out, when a request is given up, and what DIPIR holds up. */
module MicroslotOrder {
  import opened Options
  import opened Microslot
  import opened MicroslotSafety
  import opened MicroslotRuns

  // ---- priorities ----

  predicate Ordered(rs: seq<Request>) { forall i, j :: 0 <= i < j < |rs| ==> rs[i].priority >= rs[j].priority }

  /** A request goes behind every request of its own or a higher priority, and before all others. */
  lemma {:induction false} InsertPlace(rs: seq<Request>, r: Request) returns (i: nat)
    requires Ordered(rs)
    ensures i <= |rs| && Insert(rs, r) == rs[..i] + [r] + rs[i..] && Ordered(Insert(rs, r))
    ensures forall j :: 0 <= j < |rs| ==> (j < i <==> rs[j].priority >= r.priority)
  {
    if rs == [] || rs[|rs| - 1].priority >= r.priority {
      i := |rs|;
    } else {
      var front := rs[..|rs| - 1];
      i := InsertPlace(front, r);
      assert rs[i..] == front[i..] + [rs[|rs| - 1]] && rs[..i] == front[..i];
    }
  }

  lemma {:induction false} WithoutMembers(rs: seq<Request>, id: int)
    ensures forall x :: x in Without(rs, id) ==> x in rs
  {
    if rs != [] && rs[0].id != id { WithoutMembers(rs[1..], id); }
  }

  lemma {:induction false} WithoutOrdered(rs: seq<Request>, id: int)
    requires Ordered(rs)
    ensures Ordered(Without(rs, id))
  {
    if rs != [] && rs[0].id != id {
      var w := Without(rs[1..], id);
      WithoutOrdered(rs[1..], id);
      WithoutMembers(rs[1..], id);
      forall j | 0 <= j < |w|
        ensures rs[0].priority >= w[j].priority
      {
        assert w[j] in rs[1..];
      }
    }
  }

  /** A request given back keeps the order exactly when none of a higher priority has come meanwhile. */
  predicate KeepsOrder(m: Machine)
  {
    m.current.Some? && m.pending != [] ==> m.current.value.priority >= m.pending[0].priority
  }

  lemma DuckOrdered(m: Machine)
    requires Ordered(m.pending)
    ensures Ordered(Duck(m).pending) <==> KeepsOrder(m)
  {
    if m.current.Some? {
      var r := [m.current.value] + m.pending;
      assert m.pending != [] ==> r[0] == m.current.value && r[1] == m.pending[0];
    } else {
      assert [] + m.pending == m.pending;
    }
  }

  /** r is being served, or its service is what has been completed. */
  predicate Serves(m: Machine, m1: Machine, r: Request)
  {
    (m1.current == Some(r) && m1.done == m.done) ||
    (m1.current.None? && |m1.done| == |m.done| + 1 && m1.done[|m.done|].served == Some(Service(r, |m.ran|, |m.ran|)))
  }

  lemma ExpandServes(m: Machine, order: Order, r: Request)
    requires m.current == Some(r) && m.since == |m.ran|
    ensures var m1 := ExpandOrder(m, order); Serves(m, m1, r) && m1.pending == m.pending
  {
  }

  /** The request taken up was first, and none left has a higher priority. */
  lemma AcceptsHighest(m: Machine)
    requires m.pending != [] && Ordered(m.pending)
    ensures var m1, r := Accept(m), m.pending[0];
            && Serves(m, m1, r) && m1.pending == m.pending[1..]
            && forall i :: 0 <= i < |m1.pending| ==> r.priority >= m1.pending[i].priority
  {
    hide ExpandOrder;
    var r := m.pending[0];
    var m1 := m.(current := Some(r), pending := m.pending[1..], since := |m.ran|);
    ExpandServes(Selecting(m1, r), r.order, r);
  }

  lemma {:induction false} DispatchOrdered(m: Machine, hw: Hardware, n: nat)
    requires Ordered(m.pending) && n < MAX_MICROCOMMANDS_EXECUTED
    ensures Ordered(DispatchFrom(m, hw, n).pending)
    decreases MAX_MICROCOMMANDS_EXECUTED - n, |m.pending|
  {
    hide Exec, Accept;
    if Todo(m) != [] {
      var r := Advance(m, hw(n));
      ExecSettles(Taken(m), Todo(m)[0], hw(n));
      if !(r.1.RepeatLater? || r.1.FetchLater? || n + 1 == MAX_MICROCOMMANDS_EXECUTED) {
        DispatchOrdered(r.0, hw, n + 1);
      }
    } else if m.pending != [] {
      AcceptsHighest(m);
      DispatchOrdered(Accept(m), hw, n);
    }
  }

  lemma StepOrdered(m: Machine, e: Event)
    requires Ordered(m.pending) && (e.Ducked? ==> KeepsOrder(m))
    ensures Ordered(Step(m, e).pending)
  {
    hide DispatchFrom, Insert, Without, Ordered, PingBatch;
    match e
    case Submitted(r, privileged, internal, hw) =>
      if privileged {
        var i := InsertPlace(m.pending, r);
        DispatchOrdered(m.(pending := Insert(m.pending, r)), hw, 0);
      }
    case TimerFired(hw) => DispatchOrdered(m, hw, 0);
    case PingFired(hw) => DispatchOrdered(Add(m.(ping := true), PingBatch()), hw, 0);
    case AbortAsked(id, hw) =>
      WithoutOrdered(m.pending, id);
      DispatchOrdered(Add(FlushAll(m).(current := None, slot := -1), ResetBatch()), hw, 0);
    case Ducked => DuckOrdered(m);
    case Recovered =>
  }

  /** No request is given back while one of a higher priority is pending. */
  predicate Calm(m: Machine, es: seq<Event>)
  {
    es == [] || (Calm(m, es[..|es| - 1]) && (es[|es| - 1].Ducked? ==> KeepsOrder(Run(m, es[..|es| - 1]))))
  }

  /** Over any such run the pending requests are in the order of their priorities. */
  lemma {:induction false} PendingOrdered(speed: nat, cards: seq<Card>, es: seq<Event>)
    requires Calm(Start(speed, cards), es)
    ensures Ordered(Run(Start(speed, cards), es).pending)
  {
    hide Step, KeepsOrder;
    if es != [] {
      PendingOrdered(speed, cards, es[..|es| - 1]);
      StepOrdered(Run(Start(speed, cards), es[..|es| - 1]), es[|es| - 1]);
    }
  }

  // ---- a ping ----

  /** Nothing is in the way and every card answers at once. */
  predicate Quiet(h: Sample) { !h.attn && !h.cardless && !h.outFull && h.inFull && h.present }

  ghost predicate AllQuiet(hw: Hardware) { forall n :: Quiet(hw(n)) }

  /** The next k microcommands executed, the first with what the hardware shows as its n-th. */
  function Times(m: Machine, hw: Hardware, n: nat, k: nat): Machine
    decreases k
  {
    if k == 0 || Todo(m) == [] then m else Times(Advance(m, hw(n)).0, hw, n + 1, k - 1)
  }

  lemma {:induction false} TimesTwice(m: Machine, hw: Hardware, n: nat, j: nat, k: nat)
    ensures Times(m, hw, n, j + k) == Times(Times(m, hw, n, j), hw, n + j, k)
    decreases j
  {
    hide Advance;
    if j > 0 && Todo(m) != [] { TimesTwice(Advance(m, hw(n)).0, hw, n + 1, j - 1, k); }
  }

  /** Between requests, with these microcommands to go. */
  predicate Pinging(m: Machine, q: seq<Command>)
  {
    m.current.None? && m.repeating.None? && m.queue == q && |m.cards| == NUM_USLOTS
  }

  predicate Local(c: Command, m: Machine) { !Moves(c.kind) && !Preps(c.kind) && (NeedsCard(c.kind) ==> 0 <= m.slot < NUM_USLOTS) }

  lemma LocalFetches(m: Machine, c: Command, h: Sample)
    requires Local(c, m) && m.current.None? && m.repeating.None?
    ensures var r := Perform(m, c, h); (r.1.Fetch? || r.1.FetchLater?) && r.0.repeating.None?
  {
  }

  lemma QuietAdvance(m: Machine, h: Sample, c: Command, q: seq<Command>)
    requires Quiet(h) && Pinging(m, [c] + q) && Local(c, m)
    ensures var m1 := if Outputs(c.kind) then m.(outFull := 0) else m;
            Todo(m) != [] && Advance(m, h).0 == Perform(m1.(queue := q), c, h).0
  {
    hide Perform;
    assert ([c] + q)[1..] == q && Todo(m) == [c] + q;
    var m1 := if Outputs(c.kind) then m.(outFull := 0) else m;
    LocalFetches(m1.(queue := q), c, h);
  }

  lemma QuietStep(m: Machine, hw: Hardware, n: nat, k: nat, c: Command, q: seq<Command>)
    requires AllQuiet(hw) && Pinging(m, [c] + q) && Local(c, m) && k > 0
    ensures var m1 := if Outputs(c.kind) then m.(outFull := 0) else m;
            Times(m, hw, n, k) == Times(Perform(m1.(queue := q), c, hw(n)).0, hw, n + 1, k - 1)
  {
    hide Perform, Advance, Pinging, Local;
    assert Quiet(hw(n));
    QuietAdvance(m, hw(n), c, q);
  }

  function Told(m: Machine, slot: nat, id: int): Machine
    requires slot < |m.cards|
  {
    m.(slot := slot, outFull := 0, cards := m.cards[slot := m.cards[slot].(id := id)])
  }

  lemma PingSelect(m: Machine, hw: Hardware, n: nat, k: nat, slot: nat, q: seq<Command>)
    requires AllQuiet(hw) && slot < NUM_USLOTS && k >= 3 && Pinging(m, SelectBatch(slot) + q)
    ensures Times(m, hw, n, k) == Times(m.(queue := q, slot := slot, outFull := 0), hw, n + 3, k - 3)
  {
    hide Times, AllQuiet;
    var a, b, c := Plain(Synch), Command(PrepSelect, slot, []), Command(Select, slot, []);
    assert SelectBatch(slot) + q == [a] + ([b] + ([c] + q));
    QuietStep(m, hw, n, k, a, [b] + ([c] + q));
    var m1 := m.(queue := [b] + ([c] + q), outFull := 0, slot := -1);
    QuietStep(m1, hw, n + 1, k - 1, b, [c] + q);
    QuietStep(m1.(queue := [c] + q), hw, n + 2, k - 2, c, q);
  }

  lemma PingAsk(m: Machine, hw: Hardware, n: nat, q: seq<Command>)
    requires AllQuiet(hw) && 0 <= m.slot < NUM_USLOTS && Pinging(m, [Plain(Identify), Plain(GetId)] + q)
    ensures Times(m, hw, n, 2) == Told(m.(queue := q), m.slot, hw(n + 1).data)
  {
    hide Times, AllQuiet;
    var a, b := Plain(Identify), Plain(GetId);
    assert [a, b] + q == [a] + ([b] + q);
    QuietStep(m, hw, n, 2, a, [b] + q);
    QuietStep(m.(queue := [b] + q, outFull := 0), hw, n + 1, 1, b, q);
    TimesNone(Told(m.(queue := q), m.slot, hw(n + 1).data), hw, n + 2);
  }

  lemma PingSlot(m: Machine, hw: Hardware, n: nat, slot: nat, q: seq<Command>)
    requires AllQuiet(hw) && slot < NUM_USLOTS
    requires Pinging(m, SelectBatch(slot) + [Plain(Identify), Plain(GetId)] + q)
    ensures Times(m, hw, n, 5) == Told(m.(queue := q), slot, hw(n + 4).data)
  {
    hide Times, AllQuiet, SelectBatch;
    var asks := [Plain(Identify), Plain(GetId)] + q;
    assert SelectBatch(slot) + [Plain(Identify), Plain(GetId)] + q == SelectBatch(slot) + asks;
    PingSelect(m, hw, n, 5, slot, asks);
    PingAsk(m.(queue := asks, slot := slot, outFull := 0), hw, n + 3, q);
  }

  lemma PingEnds(m: Machine, hw: Hardware, n: nat)
    requires AllQuiet(hw) && Pinging(m, [Plain(PingDone), Plain(End)])
    ensures Times(m, hw, n, 2) == m.(queue := [], ping := false)
  {
    hide Times, AllQuiet;
    var a, b := Plain(PingDone), Plain(End);
    assert [a, b] == [a] + [b] && [b] == [b] + [];
    QuietStep(m, hw, n, 2, a, [b]);
    QuietStep(m.(queue := [b], ping := false), hw, n + 1, 1, b, []);
    TimesNone(m.(queue := [], ping := false), hw, n + 2);
  }

  lemma TimesNone(m: Machine, hw: Hardware, n: nat)
    ensures Times(m, hw, n, 0) == m
  {
  }

  lemma {:induction false} PingSlotsFrom(m: Machine, hw: Hardware, n: nat, slots: nat, q: seq<Command>)
    requires AllQuiet(hw) && slots <= NUM_USLOTS && Pinging(m, PingSlots(slots) + q)
    ensures var m1 := Times(m, hw, n, 5 * slots);
            && Pinging(m1, q) && m1.ping == m.ping && m1.pending == m.pending && m1.done == m.done
            && (slots > 0 ==> m1.slot == slots - 1)
            && (forall s :: 0 <= s < slots ==> m1.cards[s].id == hw(n + 5 * s + 4).data)
            && (forall s :: slots <= s < NUM_USLOTS ==> m1.cards[s] == m.cards[s])
    decreases slots
  {
    hide Times;
    if slots == 0 {
      TimesNone(m, hw, n);
      assert PingSlots(0) + q == q;
    } else {
      var b := SelectBatch(slots - 1) + [Plain(Identify), Plain(GetId)];
      assert PingSlots(slots) + q == PingSlots(slots - 1) + (b + q);
      PingSlotsFrom(m, hw, n, slots - 1, b + q);
      var m1 := Times(m, hw, n, 5 * (slots - 1));
      TimesTwice(m, hw, n, 5 * (slots - 1), 5);
      PingSlot(m1, hw, n + 5 * (slots - 1), slots - 1, q);
    }
  }

  /** The 23 microcommands of a ping ask the card of every slot for its identity, and note each with its slot. */
  lemma PingAsksEverySlot(m: Machine, hw: Hardware)
    requires AllQuiet(hw) && Pinging(m, PingBatch())
    ensures var m1 := Times(m, hw, 0, 23);
            && m1.queue == [] && !m1.ping && m1.pending == m.pending && m1.done == m.done
            && |m1.cards| == NUM_USLOTS && forall s :: 0 <= s < NUM_USLOTS ==> m1.cards[s].id == hw(5 * s + 5).data
  {
    hide Times, PingSlots, AllQuiet;
    var last := [Plain(PingDone), Plain(End)];
    var q := PingSlots(NUM_USLOTS) + last;
    assert PingBatch() == [Plain(CdeReset)] + q;
    QuietStep(m, hw, 0, 23, Plain(CdeReset), q);
    var m0 := m.(queue := q, slot := -1);
    TimesTwice(m0, hw, 1, 20, 2);
    PingSlotsFrom(m0, hw, 1, NUM_USLOTS, last);
    PingEnds(Times(m0, hw, 1, 20), hw, 21);
  }

  // ---- a card that does not take its bytes ----

  /** The output register is full, and nothing else is in the way. */
  predicate Full(h: Sample) { !h.attn && !h.cardless && h.outFull && h.present }

  lemma FullExec(m: Machine, c: Command, h: Sample)
    requires Full(h) && Outputs(c.kind) && (NeedsCard(c.kind) ==> m.slot >= 0)
    ensures var (m1, then_) := Exec(m, c, h);
            if m.outFull == 2 then m1 == Complete(FlushAll(m.(outFull := 0)), Offline) && then_.Fetch?
            else m1 == m.(outFull := m.outFull + 1) && (then_.Repeat? || then_.RepeatLater?)
  {
    hide Perform;
  }

  lemma FullAdvance(m: Machine, h: Sample, c: Command)
    requires Full(h) && Todo(m) != [] && Todo(m)[0] == c && Outputs(c.kind) && (NeedsCard(c.kind) ==> m.slot >= 0)
    ensures var m1 := Advance(m, h).0;
            if m.outFull == 2 then
              Todo(m1) == [] && !m1.ping && m1.outFull == 0 && m1 == Complete(m1.(current := m.current, done := m.done), Offline)
            else
              Todo(m1) == Todo(m) && m1.outFull == m.outFull + 1 && m1.current == m.current && m1.done == m.done && m1.slot == m.slot
  {
    hide Exec;
    assert [c] + Taken(m).queue == Todo(m);
    FullExec(Taken(m), c, h);
  }

  /** A byte that is taken starts the count again. */
  lemma TakenResets(m: Machine, h: Sample, c: Command)
    requires Quiet(h) && Todo(m) != [] && Todo(m)[0] == c && Outputs(c.kind) && (NeedsCard(c.kind) ==> m.slot >= 0)
    ensures Advance(m, h).0.outFull == 0
  {
  }

  /** A request is given up at the third look that finds the register full, and not before. */
  lemma GivenUpAtThird(m: Machine, hw: Hardware, c: Command)
    requires Todo(m) != [] && Todo(m)[0] == c && Outputs(c.kind) && (NeedsCard(c.kind) ==> m.slot >= 0) && m.outFull == 0
    requires m.current.Some? && Full(hw(0)) && Full(hw(1)) && Full(hw(2))
    ensures Times(m, hw, 0, 1).current == Times(m, hw, 0, 2).current == m.current
    ensures var m3 := Times(m, hw, 0, 3);
            && m3.current.None? && |m3.done| == |m.done| + 1 && m3.done[..|m.done|] == m.done
            && m3.done[|m.done|].id == m.current.value.id && m3.done[|m.done|].outcome.Offline? && Todo(m3) == []
  {
    hide Advance, Full;
    FullAdvance(m, hw(0), c);
    var m1 := Advance(m, hw(0)).0;
    FullAdvance(m1, hw(1), c);
    var m2 := Advance(m1, hw(1)).0;
    FullAdvance(m2, hw(2), c);
    TimesNone(m1, hw, 1);
    TimesNone(m2, hw, 2);
    TimesNone(Advance(m2, hw(2)).0, hw, 3);
    assert Times(m1, hw, 1, 1) == m2 && Times(m, hw, 0, 2) == m2;
    assert Times(m2, hw, 2, 1) == Advance(m2, hw(2)).0 && Times(m1, hw, 1, 2) == Advance(m2, hw(2)).0;
  }

  // ---- DIPIR ----

  /** An attention interrupt is for DIPIR: nothing is carried out, and the microcommand waits. */
  lemma AttentionWaits(m: Machine, h: Sample)
    requires Todo(m) != [] && h.attn && !h.cardless
    ensures var (m1, then_) := Advance(m, h);
            m1.dipir && then_.RepeatLater? && Todo(m1) == Todo(m) && m1.ran == m.ran && m1.done == m.done && m1.cards == m.cards
  {
    assert [Todo(m)[0]] + Taken(m).queue == Todo(m);
  }

  lemma StepHeldUp(m: Machine, e: Event)
    requires m.dipir && !e.Recovered?
    ensures var m1 := Step(m, e); m1.dipir && m1.ran == m.ran && m1.cards == m.cards && m1.speed == m.speed
  {
    hide DispatchFrom;
  }

  ghost predicate NoRecovery(es: seq<Event>) { forall i :: 0 <= i < |es| ==> !es[i].Recovered? }

  /** Over any run, from the time DIPIR is due until recovery nothing is carried out for any request. */
  lemma {:induction false} HeldUp(m: Machine, es: seq<Event>)
    requires m.dipir && NoRecovery(es)
    ensures var m1 := Run(m, es); m1.dipir && m1.ran == m.ran && m1.cards == m.cards && m1.speed == m.speed
  {
    hide Step;
    if es != [] {
      HeldUp(m, es[..|es| - 1]);
      StepHeldUp(Run(m, es[..|es| - 1]), es[|es| - 1]);
    }
  }
}
