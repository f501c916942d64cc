/** Every run of the microslot handlers: the queue never fills, no request is lost or completed twice,
    and no card but the request's own is ever touched for it. */
module MicroslotRuns {
  import opened Options
  import opened Microslot
  import opened MicroslotSafety

  // ---- where a request is ----

  function Count(rs: seq<Request>, id: int): nat
  {
    if rs == [] then 0 else Count(rs[..|rs| - 1], id) + (if rs[|rs| - 1].id == id then 1 else 0)
  }

  function CountDone(cs: seq<Completion>, id: int): nat
  {
    if cs == [] then 0 else CountDone(cs[..|cs| - 1], id) + (if cs[|cs| - 1].id == id then 1 else 0)
  }

  function IsCurrent(m: Machine, id: int): nat { if m.current.Some? && m.current.value.id == id then 1 else 0 }

  /** How often a request is pending, current or completed. */
  function Held(m: Machine, id: int): nat
  {
    Count(m.pending, id) + IsCurrent(m, id) + CountDone(m.done, id)
  }

  lemma {:induction false} CountParts(a: seq<Request>, b: seq<Request>, id: int)
    ensures Count(a + b, id) == Count(a, id) + Count(b, id)
    decreases |b|
  {
    if b == [] {
      assert a + b == a;
    } else {
      CountParts(a, b[..|b| - 1], id);
      assert (a + b)[..|a + b| - 1] == a + b[..|b| - 1];
    }
  }

  lemma CountHead(rs: seq<Request>, id: int)
    requires rs != []
    ensures Count(rs, id) == Count(rs[1..], id) + (if rs[0].id == id then 1 else 0)
  {
    CountParts(rs[..1], rs[1..], id);
    assert rs[..1] + rs[1..] == rs;
    assert Count(rs[..1], id) == Count(rs[..1][..0], id) + (if rs[0].id == id then 1 else 0);
  }

  lemma {:induction false} CountInsert(rs: seq<Request>, r: Request, id: int)
    ensures Count(Insert(rs, r), id) == Count(rs, id) + (if r.id == id then 1 else 0)
  {
    if rs == [] || rs[|rs| - 1].priority >= r.priority {
      assert (rs + [r])[..|rs|] == rs;
    } else {
      CountInsert(rs[..|rs| - 1], r, id);
      assert Insert(rs, r)[..|rs|] == Insert(rs[..|rs| - 1], r);
    }
  }

  lemma {:induction false} CountWithout(rs: seq<Request>, gone: int, id: int)
    requires Count(rs, gone) > 0
    ensures Count(Without(rs, gone), id) == Count(rs, id) - (if id == gone then 1 else 0)
    decreases |rs|
  {
    CountHead(rs, id);
    CountHead(rs, gone);
    if rs[0].id != gone {
      CountWithout(rs[1..], gone, id);
      CountHead(Without(rs, gone), id);
      assert Without(rs, gone)[1..] == Without(rs[1..], gone);
    }
  }

  // ---- what executing does to requests ----

  /** Requests stay where they are, but for the current one, which may be completed. */
  predicate Settles(m: Machine, m1: Machine)
  {
    && m1.pending == m.pending
    && ((m1.current == m.current && m1.done == m.done) ||
        (m.current.Some? && m1.current.None? && |m1.done| == |m.done| + 1 && m1.done[..|m.done|] == m.done
         && m1.done[|m.done|].id == m.current.value.id))
  }

  lemma SettlesHeld(m: Machine, m1: Machine, id: int)
    requires Settles(m, m1)
    ensures Held(m1, id) == Held(m, id) && m.done <= m1.done
  {
  }

  lemma ExecSettles(m: Machine, c: Command, h: Sample)
    ensures Settles(m, Exec(m, c, h).0)
  {
    hide Await;
    AwaitSettles(m, c, h);
    AwaitSettles(m.(dipir := m.dipir || h.present), c, h);
    AwaitSettles(Inserted(m), c, h);
  }

  lemma AwaitSettles(m: Machine, c: Command, h: Sample)
    ensures Settles(m, Await(m, c, h).0)
  {
    hide Perform;
    PerformSettles(m, c, h);
    PerformSettles(m.(outFull := 0), c, h);
  }

  lemma PerformSettles(m: Machine, c: Command, h: Sample)
    ensures Settles(m, Perform(m, c, h).0)
  {
    if c.kind.Verify? { VerifySettles(m, c, h); }
  }

  lemma VerifySettles(m: Machine, c: Command, h: Sample)
    requires c.kind.Verify?
    ensures Settles(m, Perform(m, c, h).0)
  {
    hide AfterEnd;
  }

  lemma AcceptHeld(m: Machine, id: int)
    requires m.pending != [] && m.current.None?
    ensures Held(Accept(m), id) == Held(m, id) && m.done <= Accept(m).done && |Accept(m).pending| < |m.pending|
  {
    hide ExpandOrder;
    var r := m.pending[0];
    var m1 := m.(current := Some(r), pending := m.pending[1..], since := |m.ran|);
    var m2 := if m.slot != r.slot then Add(m1, SelectBatch(r.slot)) else m1;
    CountHead(m.pending, id);
    ExpandSettles(m2, r.order);
    SettlesHeld(m2, Accept(m), id);
  }

  lemma ExpandSettles(m: Machine, order: Order)
    requires m.current.Some?
    ensures Settles(m, ExpandOrder(m, order))
  {
  }

  lemma {:induction false} DispatchHeld(m: Machine, hw: Hardware, n: nat, id: int)
    requires Sound(m) && n < MAX_MICROCOMMANDS_EXECUTED
    ensures var m1 := DispatchFrom(m, hw, n); Held(m1, id) == Held(m, id) && m.done <= m1.done
    decreases MAX_MICROCOMMANDS_EXECUTED - n, |m.pending|
  {
    hide Sound, Exec, Accept, Held;
    if Todo(m) != [] {
      var r := Advance(m, hw(n));
      AdvanceSound(m, hw(n));
      ExecSettles(Taken(m), Todo(m)[0], hw(n));
      SettlesHeld(m, r.0, id);
      if !(r.1.RepeatLater? || r.1.FetchLater? || n + 1 == MAX_MICROCOMMANDS_EXECUTED) {
        DispatchHeld(r.0, hw, n + 1, id);
      }
    } else {
      EmptyIdle(m);
      if m.pending != [] {
        AcceptSound(m);
        AcceptHeld(m, id);
        DispatchHeld(Accept(m), hw, n, id);
      }
    }
  }

  /** What a handler may be asked: a proper request, and to abort only a request it has. */
  predicate Allowed(m: Machine, e: Event)
  {
    && (e.Submitted? ==> Proper(e.request))
    && (e.AbortAsked? ==> Count(m.pending, e.id) + IsCurrent(m, e.id) > 0)
  }

  function Arrives(e: Event, id: int): nat { if e.Submitted? && e.request.id == id then 1 else 0 }

  lemma AbortHeld(m: Machine, gone: int, hw: Hardware, id: int)
    requires Sound(m) && Roomy(m) && Count(m.pending, gone) + IsCurrent(m, gone) > 0
    ensures Held(Abort(m, gone, hw), id) == Held(m, id) && m.done <= Abort(m, gone, hw).done
  {
    hide DispatchFrom, PingShape, InBatch, SlotsFit;
    if IsCurrent(m, gone) > 0 {
      var m1 := Add(FlushAll(m).(current := None, slot := -1), ResetBatch());
      FreshSound(m1, ResetBatch());
      DispatchHeld(m1, hw, 0, id);
    } else {
      CountWithout(m.pending, gone, id);
    }
  }

  lemma DuckHeld(m: Machine, id: int)
    ensures Held(Duck(m), id) == Held(m, id)
  {
    if m.current.Some? {
      CountHead([m.current.value] + m.pending, id);
      assert ([m.current.value] + m.pending)[1..] == m.pending;
    } else {
      assert [] + m.pending == m.pending;
    }
  }

  lemma PingHeld(m: Machine, hw: Hardware, id: int)
    requires Sound(m) && Roomy(m)
    ensures Held(Ping(m, hw), id) == Held(m, id) && m.done <= Ping(m, hw).done
  {
    hide DispatchFrom, PingBatch, Sound;
    if !m.ping {
      PingBatchShape();
      PingQueued(m, PingBatch());
      DispatchHeld(Add(m.(ping := true), PingBatch()), hw, 0, id);
    }
  }

  lemma SubmitHeld(m: Machine, r: Request, privileged: bool, internal: bool, hw: Hardware, id: int)
    requires Sound(m) && Roomy(m) && Proper(r)
    ensures var m1 := Submit(m, r, privileged, internal, hw);
            Held(m1, id) == Held(m, id) + (if r.id == id then 1 else 0) && m.done <= m1.done
  {
    hide DispatchFrom;
    if privileged {
      var m1 := m.(pending := Insert(m.pending, r));
      CountInsert(m.pending, r, id);
      SubmitSound(m, r, true, true, hw);
      DispatchHeld(m1, hw, 0, id);
    }
  }

  /** A handler neither loses a request nor completes one again, and takes no completion back. */
  lemma StepHeld(m: Machine, e: Event, id: int)
    requires Sound(m) && Roomy(m) && Allowed(m, e)
    ensures Held(Step(m, e), id) == Held(m, id) + Arrives(e, id) && m.done <= Step(m, e).done
  {
    hide DispatchFrom;
    match e
    case Submitted(r, privileged, internal, hw) => SubmitHeld(m, r, privileged, internal, hw, id);
    case TimerFired(hw) => DispatchHeld(m, hw, 0, id);
    case PingFired(hw) => PingHeld(m, hw, id);
    case AbortAsked(gone, hw) => AbortHeld(m, gone, hw, id);
    case Ducked => DuckHeld(m, id);
    case Recovered =>
  }

  // ---- runs ----

  /** Every handler of the run is allowed where it runs. */
  predicate AllAllowed(m: Machine, es: seq<Event>)
  {
    es == [] || (AllAllowed(m, es[..|es| - 1]) && Allowed(Run(m, es[..|es| - 1]), es[|es| - 1]))
  }

  function Arrivals(es: seq<Event>, id: int): nat
  {
    if es == [] then 0 else Arrivals(es[..|es| - 1], id) + Arrives(es[|es| - 1], id)
  }

  lemma {:induction false} RunSound(m: Machine, es: seq<Event>)
    requires Sound(m) && Roomy(m) && AllAllowed(m, es)
    ensures Sound(Run(m, es)) && Roomy(Run(m, es))
  {
    hide Sound, Step;
    if es != [] {
      RunSound(m, es[..|es| - 1]);
      StepSound(Run(m, es[..|es| - 1]), es[|es| - 1]);
    }
  }

  lemma {:induction false} RunHeld(m: Machine, es: seq<Event>, id: int)
    requires Sound(m) && Roomy(m) && AllAllowed(m, es)
    ensures Held(Run(m, es), id) == Held(m, id) + Arrivals(es, id)
  {
    hide Sound, Step, Held;
    if es != [] {
      var m1 := Run(m, es[..|es| - 1]);
      RunHeld(m, es[..|es| - 1], id);
      RunSound(m, es[..|es| - 1]);
      StepHeld(m1, es[|es| - 1], id);
    }
  }

  /** A request that has been submitted once is in exactly one place: pending, current, or completed once. */
  lemma ExactlyOnce(speed: nat, cards: seq<Card>, es: seq<Event>, id: int)
    requires |cards| == NUM_USLOTS && AllAllowed(Start(speed, cards), es) && Arrivals(es, id) == 1
    ensures var m := Run(Start(speed, cards), es);
            Count(m.pending, id) + IsCurrent(m, id) + CountDone(m.done, id) == 1
  {
    StartSound(speed, cards);
    RunHeld(Start(speed, cards), es, id);
    assert Held(Start(speed, cards), id) == 0;
  }

  /** A request nobody submitted is never completed. */
  lemma NothingFromNowhere(speed: nat, cards: seq<Card>, es: seq<Event>, id: int)
    requires |cards| == NUM_USLOTS && AllAllowed(Start(speed, cards), es) && Arrivals(es, id) == 0
    ensures CountDone(Run(Start(speed, cards), es).done, id) == 0
  {
    StartSound(speed, cards);
    RunHeld(Start(speed, cards), es, id);
    assert Held(Start(speed, cards), id) == 0;
  }

  /** The ring of 48 places never holds more than 47 microcommands, so it never wraps onto itself; with the one to
      repeat, whose place is then the free one, there are at most 48. */
  lemma QueueBound(speed: nat, cards: seq<Card>, es: seq<Event>)
    requires |cards| == NUM_USLOTS && AllAllowed(Start(speed, cards), es)
    ensures |Run(Start(speed, cards), es).queue| <= MAX_MICROCOMMANDS - 1
    ensures |Todo(Run(Start(speed, cards), es))| <= MAX_MICROCOMMANDS
  {
    StartSound(speed, cards);
    RunSound(Start(speed, cards), es);
  }

  /** Whatever has been carried out for a request was carried out with its own slot selected. */
  lemma SlotIsolation(speed: nat, cards: seq<Card>, es: seq<Event>, k: nat)
    requires |cards| == NUM_USLOTS && AllAllowed(Start(speed, cards), es)
    requires k < |Run(Start(speed, cards), es).ran|
    ensures var ran := Run(Start(speed, cards), es).ran[k]; ran.selected == ran.request.slot
  {
    StartSound(speed, cards);
    RunSound(Start(speed, cards), es);
  }

  // ---- how much a sequence may hold ----

  /** The output register stays full for longer than is polled. */
  const STALLED: Hardware := n => Sample(false, false, true, false, true, true, 0)

  /** A request for a slot that is not selected waits with its first microcommand in hand, and then comes a ping. */
  function Crowd(r: Request): seq<Event> { [Submitted(r, true, false, STALLED), PingFired(STALLED)] }

  lemma SelectStalls(m: Machine)
    requires Todo(m) != [] && m.repeating.None? && Todo(m)[0] == Plain(Synch) && m.slot == -1 && m.outFull == 0 && !m.dipir
    ensures DispatchFrom(m, STALLED, 0) == m.(queue := m.queue[1..], repeating := Some(Plain(Synch)), outFull := 1)
  {
    assert STALLED(0) == Sample(false, false, true, false, true, true, 0);
  }

  lemma Crowded(r: Request, speed: nat, cards: seq<Card>)
    requires r.order.Sequence? && Queued(r.order)
    ensures |Run(Start(speed, cards), Crowd(r)).queue| == |EntriesBatch(r.order.entries)| + 27
  {
    hide DispatchFrom, EntriesBatch, PingBatch, Queued;
    var m0 := Start(speed, cards);
    var m := m0.(pending := [r]);
    assert Insert([], r) == [r];
    AcceptQueue(m, r);
    DispatchAccepts(m, r);
    SelectStalls(Accept(m));
    assert Crowd(r)[..1][..0] == [] && Crowd(r)[..1] == [Submitted(r, true, false, STALLED)];
    assert Run(m0, Crowd(r)[..1]) == Step(m0, Crowd(r)[0]);
  }

  lemma AcceptQueue(m: Machine, r: Request)
    requires m.queue == [] && m.slot == -1 && m.pending == [r] && r.order.Sequence? && Queued(r.order)
    ensures Accept(m) == m.(current := Some(r), pending := [], since := |m.ran|, queue := SelectBatch(r.slot) + OrderBatch(r.order))
  {
    assert [] + SelectBatch(r.slot) == SelectBatch(r.slot);
  }

  lemma DispatchAccepts(m: Machine, r: Request)
    requires Todo(m) == [] && m.pending != []
    ensures DispatchFrom(m, STALLED, 0) == DispatchFrom(Accept(m), STALLED, 0)
  {
  }

  /** Nothing but r is ever submitted. */
  ghost predicate OnlyAsks(es: seq<Event>, r: Request) { forall e :: e in es && e.Submitted? ==> e.request == r }

  lemma {:induction false} OnlyAsksSound(m: Machine, es: seq<Event>, r: Request)
    requires Sound(m) && Roomy(m) && OnlyAsks(es, r) && Proper(r)
    ensures Sound(Run(m, es)) && Roomy(Run(m, es))
  {
    hide Sound, Roomy, Step, Proper;
    if es != [] {
      OnlyAsksSound(m, es[..|es| - 1], r);
      assert es[|es| - 1] in es;
      StepSound(Run(m, es[..|es| - 1]), es[|es| - 1]);
    }
  }

  /** The ring has room over all runs exactly for the sequences of at most 20 microcommands, and those that are
      refused: a longer one, and there is no check against it, fills it when a ping comes behind. */
  lemma RoomExactly(r: Request, speed: nat, cards: seq<Card>)
    requires |cards| == NUM_USLOTS && r.slot < NUM_USLOTS
    ensures (forall es :: OnlyAsks(es, r) ==> |Run(Start(speed, cards), es).queue| <= MAX_MICROCOMMANDS - 1) <==> Fits(r.order)
  {
    var m := Start(speed, cards);
    if Fits(r.order) {
      StartSound(speed, cards);
      forall es | OnlyAsks(es, r)
        ensures |Run(m, es).queue| <= MAX_MICROCOMMANDS - 1
      {
        OnlyAsksSound(m, es, r);
      }
    } else {
      Crowded(r, speed, cards);
      assert OnlyAsks(Crowd(r), r);
    }
  }

  /** iob_Len is no such check: it may announce one entry and the sequence go on for eleven. */
  lemma {:induction false} LongEntries(n: nat)
    ensures |EntriesBatch(seq(n, i => Entry(2, [0])))| == 2 * n
  {
    if n > 0 {
      LongEntries(n - 1);
      assert seq(n, i => Entry(2, [0]))[..n - 1] == seq(n - 1, i => Entry(2, [0]));
    }
  }

  lemma UnendedSequenceOverflows()
    ensures !Fits(Sequence(SEQ_SIZE, seq(11, i => Entry(2, [0]))))
  {
    LongEntries(11);
  }
}
