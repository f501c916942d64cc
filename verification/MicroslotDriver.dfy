/** DriverState: the microcommand engine in place, over its ring of 48 microcommands. */
module MicroslotDriver {
  import opened Options
  import opened Microslot
  import opened MicroslotSafety

  // ---- the ring ----

  function Following(i: nat): (j: nat)
    requires i < MAX_MICROCOMMANDS
    ensures j < MAX_MICROCOMMANDS
  {
    if i + 1 == MAX_MICROCOMMANDS then 0 else i + 1
  }

  function Preceding(i: nat): (j: nat)
    requires i < MAX_MICROCOMMANDS
    ensures j < MAX_MICROCOMMANDS && Following(j) == i
  {
    if i == 0 then MAX_MICROCOMMANDS - 1 else i - 1
  }

  function Distance(i: nat, j: nat): nat
    requires i < MAX_MICROCOMMANDS && j < MAX_MICROCOMMANDS
  {
    if i <= j then j - i else j + MAX_MICROCOMMANDS - i
  }

  /** The microcommands from place i up to place j. */
  function Ring(cs: seq<Command>, i: nat, j: nat): (q: seq<Command>)
    requires |cs| == MAX_MICROCOMMANDS && i < MAX_MICROCOMMANDS && j < MAX_MICROCOMMANDS
    ensures |q| == Distance(i, j)
    decreases Distance(i, j)
  {
    if i == j then [] else [cs[i]] + Ring(cs, Following(i), j)
  }

  lemma {:induction false} RingElsewhere(cs: seq<Command>, i: nat, j: nat, c: Command)
    requires |cs| == MAX_MICROCOMMANDS && i < MAX_MICROCOMMANDS && j < MAX_MICROCOMMANDS
    ensures Ring(cs[j := c], i, j) == Ring(cs, i, j)
    decreases Distance(i, j)
  {
    if i != j { RingElsewhere(cs, Following(i), j, c); }
  }

  /** Short of 47, storing at the end of the ring queues; the 48th would empty it. */
  lemma {:induction false} RingAdd(cs: seq<Command>, i: nat, j: nat, c: Command)
    requires |cs| == MAX_MICROCOMMANDS && i < MAX_MICROCOMMANDS && j < MAX_MICROCOMMANDS
    requires Distance(i, j) < MAX_MICROCOMMANDS - 1
    ensures Ring(cs[j := c], i, Following(j)) == Ring(cs, i, j) + [c]
    decreases Distance(i, j)
  {
    if i == j {
      assert Ring(cs[j := c], Following(j), Following(j)) == [];
    } else {
      RingAdd(cs, Following(i), j, c);
    }
  }

  predicate AllKnown(es: seq<Entry>) { forall i :: 0 <= i < |es| ==> KnownEntry(es[i]) }

  lemma {:induction false} EntriesGrow(es: seq<Entry>, i: nat)
    requires i <= |es|
    ensures |EntriesBatch(es[..i])| <= |EntriesBatch(es)|
    decreases |es|
  {
    if i < |es| {
      EntriesGrow(es[..|es| - 1], i);
      assert es[..|es| - 1][..i] == es[..i];
    } else {
      assert es[..i] == es;
    }
  }

  lemma EntriesNext(es: seq<Entry>, i: nat)
    requires i < |es|
    ensures EntriesBatch(es[..i + 1]) == EntriesBatch(es[..i]) + EntryBatch(es[i])
    ensures |EntriesBatch(es[..i])| + |EntryBatch(es[i])| <= |EntriesBatch(es)|
  {
    EntriesGrow(es, i + 1);
    assert es[..i + 1][..i] == es[..i];
  }

  lemma NoEntries(m: Machine)
    ensures Add(m, EntriesBatch([])) == m
  {
    assert m.queue + [] == m.queue;
  }

  /** A machine, whatever it is about to repeat. */
  function Bare(m: Machine): Machine { m.(repeating := None) }

  lemma AddTwice(m: Machine, a: seq<Command>, b: seq<Command>)
    ensures Add(Add(m, a), b) == Add(m, a + b)
  {
    assert m.queue + a + b == m.queue + (a + b);
  }

  lemma PingOnce(m: Machine, i: nat)
    ensures Add(Add(m, [Plain(CdeReset)] + PingSlots(i)), SelectBatch(i) + [Plain(Identify), Plain(GetId)]) ==
            Add(m, [Plain(CdeReset)] + PingSlots(i + 1))
  {
    assert [Plain(CdeReset)] + PingSlots(i) + (SelectBatch(i) + [Plain(Identify), Plain(GetId)]) ==
           [Plain(CdeReset)] + PingSlots(i + 1);
    AddTwice(m, [Plain(CdeReset)] + PingSlots(i), SelectBatch(i) + [Plain(Identify), Plain(GetId)]);
  }

  /** What the methods need of a sound machine. */
  lemma SoundFields(m: Machine)
    requires Sound(m)
    ensures -1 <= m.slot < NUM_USLOTS && |m.cards| == NUM_USLOTS && AllProper(m.pending) && OwnSlots(m.ran)
    ensures Todo(m) == [] && m.pending != [] ==> m.queue == [] && Proper(m.pending[0])
  {
  }

  lemma ResetIdle()
    ensures [] + ResetBatch() == ResetBatch() && |ResetBatch()| == 4 && Idle(ResetBatch()) && Modest(ResetBatch())
  {
  }

  lemma ResetShape(m: Machine)
    requires Sound(m)
    ensures Roomy(Add(FlushAll(m).(current := None, slot := -1), ResetBatch()))
    ensures Sound(Add(FlushAll(m).(current := None, slot := -1), ResetBatch()))
  {
    hide PingShape, InBatch, AllProper, OwnSlots, ResetBatch;
    ResetIdle();
    FreshSound(Add(FlushAll(m).(current := None, slot := -1), ResetBatch()), ResetBatch());
  }

  /** The byte on its way: out of the buffer in hand, or what the card has given. */
  function MovedByte(m: Machine, kind: Kind, h: Sample): int { if kind.Write? then NextByte(m) else h.data }

  /** Moving a byte, case by case. */
  lemma MoveCases(m: Machine, c: Command, h: Sample)
    requires Moves(c.kind)
    ensures var m1 := Noted(m, c.kind, MovedByte(m, c.kind, h)).(index := m.index + 1);
            Perform(Bare(m), c, h) ==
            if c.kind.Write? && m.index == |m.buf| then (Bare(m), Fetch)
            else if c.kind.Verify? && m.index < |m.buf| && m.buf[m.index] != h.data then
              (Bare(FlushBatch(Complete(m1, BadCard))), Fetch)
            else (Bare(m1), if m1.index == |m.buf| && !c.kind.Write? then Fetch else if h.slow then RepeatLater else Repeat)
    ensures var m1 := Noted(m, c.kind, MovedByte(m, c.kind, h)); m1.buf == m.buf && m1.index == m.index
  {
  }

  class Driver {
    var commands: array<Command>  // ds_Commands
    var nextCommand: nat
    var nextNewCommand: nat
    var repeatAt: int             // ds_RepeatCommand as a place in the ring, -1 for NULL

    var current: Option<Request>
    var pending: seq<Request>
    var done: seq<Completion>     // what SuperCompleteIO has been called with
    var buf: IoBuf
    var index: nat
    var slot: int
    var cards: seq<Card>
    var outFull: nat
    var speed: nat
    var dipir: bool
    var ping: bool
    var ran: seq<Ran>             // for the record: what has been carried out for requests
    var since: nat                // and how much of it before the current one

    ghost predicate Valid()
      reads this
    {
      && commands.Length == MAX_MICROCOMMANDS && nextCommand < MAX_MICROCOMMANDS && nextNewCommand < MAX_MICROCOMMANDS
      && (repeatAt == -1 || repeatAt == Preceding(nextCommand))
    }

    ghost function Queue(): seq<Command>
      reads this, commands
      requires Valid()
    {
      Ring(commands[..], nextCommand, nextNewCommand)
    }

    ghost function Model(): Machine
      reads this, commands
      requires Valid()
    {
      Machine(Queue(), if repeatAt == -1 then None else Some(commands[repeatAt]),
              current, pending, done, buf, index, slot, outFull, speed, dipir, ping, cards, ran, since)
    }

    constructor (idCards: seq<Card>)
      ensures Valid() && fresh(commands) && Model() == Start(1, idCards)
    {
      commands := new Command[MAX_MICROCOMMANDS](_ => Plain(End));
      nextCommand, nextNewCommand, repeatAt := 0, 0, -1;
      current, pending, done := None, [], [];
      buf, index, slot, cards, outFull, speed, dipir, ping := [], 0, -1, idCards, 0, 1, false, false;
      ran, since := [], 0;
    }

    /** Ring full, it warns and the ring is empty again. */
    method AddMicroCommand(c: Command)
      requires Valid()
      modifies commands, this`nextNewCommand
      ensures Valid()
      ensures |old(Queue())| < MAX_MICROCOMMANDS - 1 ==> Model() == Add(old(Model()), [c])
      ensures |old(Queue())| == MAX_MICROCOMMANDS - 1 ==> Queue() == []
      ensures repeatAt == -1 ==> Model() == old(Model()).(queue := Queue())
    {
      ghost var cs := commands[..];
      commands[nextNewCommand] := c;
      assert commands[..] == cs[nextNewCommand := c];
      if Distance(nextCommand, nextNewCommand) < MAX_MICROCOMMANDS - 1 {
        RingAdd(cs, nextCommand, nextNewCommand, c);
      }
      nextNewCommand := nextNewCommand + 1;
      if nextNewCommand == MAX_MICROCOMMANDS {
        nextNewCommand := 0;
      }
    }

    method AddCommands(cs: seq<Command>)
      requires Valid() && (|Queue()| + |cs| < MAX_MICROCOMMANDS || repeatAt == -1)
      modifies commands, this`nextNewCommand
      ensures Valid()
      ensures |old(Queue())| + |cs| < MAX_MICROCOMMANDS ==> Model() == Add(old(Model()), cs)
      ensures repeatAt == -1 ==> Model() == old(Model()).(queue := Queue())
    {
      hide Ring;
      ghost var m := Model();
      for i := 0 to |cs|
        invariant Valid()
        invariant |m.queue| + |cs| < MAX_MICROCOMMANDS ==> Model() == Add(m, cs[..i])
        invariant repeatAt == -1 ==> Model() == m.(queue := Queue())
      {
        AddMicroCommand(cs[i]);
        assert cs[..i + 1] == cs[..i] + [cs[i]];
        assert m.queue + cs[..i] + [cs[i]] == m.queue + cs[..i + 1];
      }
      assert cs[..|cs|] == cs;
    }

    method FetchMicroCommand() returns (at: int)
      requires Valid() && repeatAt == -1
      modifies this`nextCommand
      ensures Valid()
      ensures Queue() == (if old(Queue()) == [] then [] else old(Queue())[1..]) && Model() == old(Model()).(queue := Queue())
      ensures if old(Queue()) == [] then at == -1 else at == Preceding(nextCommand) && commands[at] == old(Queue())[0]
    {
      if nextCommand == nextNewCommand { return -1; }
      at := nextCommand;
      nextCommand := nextCommand + 1;
      if nextCommand == MAX_MICROCOMMANDS {
        nextCommand := 0;
      }
    }

    method FlushMicroCommands(all: bool)
      requires Valid()
      modifies this`nextCommand, this`nextNewCommand, this`repeatAt, this`ping
      ensures Valid() && Model() == if all then FlushAll(old(Model())) else FlushBatch(old(Model()))
    {
      repeatAt := -1;
      if all {
        nextCommand, nextNewCommand, ping := 0, 0, false;
      } else {
        FlushToEnd();
      }
    }

    /** Fetches up to and including the next MICRO_END. */
    method FlushToEnd()
      requires Valid() && repeatAt == -1
      modifies this`nextCommand
      ensures Valid() && Model() == old(Model()).(queue := AfterEnd(old(Queue())))
    {
      ghost var m := Model();
      var at := FetchMicroCommand();
      while at >= 0 && !commands[at].kind.End?
        invariant Valid() && -1 <= at < MAX_MICROCOMMANDS && Model() == m.(queue := Queue())
        invariant AfterEnd(m.queue) == if at < 0 || commands[at].kind.End? then Queue() else AfterEnd(Queue())
        invariant at < 0 ==> Queue() == []
        decreases at >= 0, |Queue()|
      {
        at := FetchMicroCommand();
      }
    }

    method CompleteMicroslotIO(result: Outcome)
      requires Valid()
      modifies this`current, this`done
      ensures Valid() && Model() == Complete(old(Model()), result)
    {
      if current.Some? {
        done := done + [Completion(current.value.id, result, Some(Service(current.value, since, |ran|)))];
        current := None;
      }
    }

    // ---- requests into microcommands ----

    method CmdSeq(bytes: nat, entries: seq<Entry>)
      requires Valid() && |Queue()| <= 3 && repeatAt == -1 && Fits(Sequence(bytes, entries))
      modifies this, commands
      ensures Valid() && commands == old(commands) && Model() == ExpandSequence(old(Model()), bytes, entries)
    {
      hide Driver.Queue;
      if bytes % SEQ_SIZE != 0 {
        CompleteMicroslotIO(BadIoArg);
      } else if bytes / SEQ_SIZE > 5 {
        CompleteMicroslotIO(BadSize);
      } else {
        var ok := AddEntries(entries);
        if ok {
          AddCommands(FinishBatch());
          AddTwice(old(Model()), EntriesBatch(entries), FinishBatch());
        } else {
          CompleteMicroslotIO(BadIoArg);
          FlushMicroCommands(true);
        }
      }
    }

    /** The microcommands of the entries, up to one that is not known; before that they may overrun the ring. */
    method AddEntries(entries: seq<Entry>) returns (ok: bool)
      requires Valid() && |Queue()| <= 3 && repeatAt == -1
      requires AllKnown(entries) ==> |EntriesBatch(entries)| <= ROOM
      modifies commands, this`nextNewCommand
      ensures Valid() && ok == AllKnown(entries)
      ensures ok ==> Model() == Add(old(Model()), EntriesBatch(entries))
      ensures !ok ==> Model() == old(Model()).(queue := Queue())
    {
      hide Driver.Queue, EntriesBatch, EntryBatch;
      ghost var m := Model();
      NoEntries(m);
      for i := 0 to |entries|
        invariant Valid() && Model() == m.(queue := Queue()) && AllKnown(entries[..i])
        invariant AllKnown(entries) ==> Model() == Add(m, EntriesBatch(entries[..i]))
      {
        if !KnownEntry(entries[i]) { return false; }
        EntriesNext(entries, i);
        AddCommands(EntryBatch(entries[i]));
        AddTwice(m, EntriesBatch(entries[..i]), EntryBatch(entries[i]));
      }
      assert entries[..|entries|] == entries;
      ok := true;
    }

    method CmdSetClock(newSpeed: nat)
      requires Valid()
      modifies this`current, this`done, this`speed
      ensures Valid() && Model() == ExpandOrder(old(Model()), SetClock(newSpeed))
    {
      var result := Ok;
      if newSpeed > USLOT_CLKSPEED_8MHZ {
        result := BadIoArg;
      } else {
        speed := newSpeed;
      }
      CompleteMicroslotIO(result);
    }

    method Expand(order: Order)
      requires Valid() && |Queue()| <= 3 && repeatAt == -1 && Fits(order)
      modifies this, commands
      ensures Valid() && commands == old(commands) && Model() == ExpandOrder(old(Model()), order)
    {
      match order
      case Sequence(bytes, entries) => CmdSeq(bytes, entries);
      case StreamRead(b) =>
        if b != [] {
          AddCommands([Command(PrepRead, 0, b), Plain(Read)] + FinishBatch());
        } else {
          CompleteMicroslotIO(Ok);
        }
      case StreamWrite(b) =>
        if b != [] {
          AddCommands([Command(PrepWrite, 0, b), Plain(Write)] + FinishBatch());
        } else {
          CompleteMicroslotIO(Ok);
        }
      case ResetCards => AddCommands([Plain(Reset), Plain(CdeReset)] + FinishBatch());
      case SetClock(s) => CmdSetClock(s);
      case CardStatus => AddCommands([Plain(Identify), Plain(GetId), Plain(Status)] + FinishBatch());
      case Unknown => CompleteMicroslotIO(BadCommand);
    }

    // ---- ExecuteMicroCommand; the caller settles what is repeated ----

    method ExecuteMicroCommand(c: Command, h: Sample) returns (then_: Then)
      requires Valid() && |cards| == NUM_USLOTS && slot < NUM_USLOTS
      modifies this
      ensures Valid() && commands == old(commands)
      ensures (Bare(Model()), then_) == Exec(Bare(old(Model())), c, h)
      ensures then_.Repeat? || then_.RepeatLater? ==> nextCommand == old(nextCommand)
    {
      hide Await, AfterEnd, Ring;
      if h.attn && !h.cardless {
        dipir := true;
        return RepeatLater;
      }
      if slot >= 0 {
        if h.cardless {
          dipir := dipir || h.present;
          if NeedsCard(c.kind) {
            if current.Some? {
              FlushMicroCommands(false);
              CompleteMicroslotIO(Offline);
            }
            return Fetch;
          }
        } else if !h.present {
          NoteInserted();
        }
      } else if NeedsCard(c.kind) {
        return Fetch;
      }
      then_ := AwaitRegisters(c, h);
    }

    /** A card has turned up in the selected slot. */
    method NoteInserted()
      requires Valid() && 0 <= slot < |cards|
      modifies this`cards
      ensures Valid() && |cards| == |old(cards)| && Bare(Model()) == Inserted(Bare(old(Model())))
    {
      hide Ring;
      cards := cards[slot := cards[slot].(changes := cards[slot].changes + 1)];
    }

    method AwaitRegisters(c: Command, h: Sample) returns (then_: Then)
      requires Valid() && |cards| == NUM_USLOTS && slot < NUM_USLOTS
      modifies this
      ensures Valid() && commands == old(commands)
      ensures (Bare(Model()), then_) == Await(Bare(old(Model())), c, h)
      ensures then_.Repeat? || then_.RepeatLater? ==> nextCommand == old(nextCommand)
    {
      hide Perform, Ring;
      if Outputs(c.kind) {
        if h.outFull {
          outFull := outFull + 1;
          if outFull == 3 {
            FlushMicroCommands(true);
            CompleteMicroslotIO(Offline);
            outFull := 0;
            return Fetch;
          }
          return if h.slow then RepeatLater else Repeat;
        }
        outFull := 0;
      } else if Inputs(c.kind) && !h.inFull {
        return Repeat;
      }
      then_ := PerformCommand(c, h);
    }

    method PerformCommand(c: Command, h: Sample) returns (then_: Then)
      requires Valid() && |cards| == NUM_USLOTS && slot < NUM_USLOTS
      modifies this
      ensures Valid() && commands == old(commands)
      ensures (Bare(Model()), then_) == Perform(Bare(old(Model())), c, h)
      ensures then_.Repeat? || then_.RepeatLater? ==> nextCommand == old(nextCommand)
    {
      hide AfterEnd, Ring, FlushBatch, Moving;
      then_ := Fetch;
      if Moves(c.kind) {
        then_ := MoveByte(c, h);
      } else if c.kind.CompleteIo? {
        CompleteMicroslotIO(Ok);
      } else if c.kind.Reset? || c.kind.Identify? || c.kind.GetId? || c.kind.StartDld? || c.kind.Status? {
        PerformOnCard(c, h);
      } else {
        then_ := PerformLocal(c, h);
      }
    }

    /** Microcommands to the card that move no buffer. */
    method PerformOnCard(c: Command, h: Sample)
      requires Valid() && |cards| == NUM_USLOTS && slot < NUM_USLOTS
      requires c.kind.Reset? || c.kind.Identify? || c.kind.GetId? || c.kind.StartDld? || c.kind.Status?
      modifies this`ran, this`slot, this`cards
      ensures Valid() && (Bare(Model()), Fetch) == Perform(Bare(old(Model())), c, h)
    {
      hide Ring, Moving, Complete, FlushBatch;
      Note(c.kind, if c.kind.GetId? then h.data else 0);
      if c.kind.Reset? {
        slot := -1;
      } else if c.kind.GetId? && slot >= 0 {
        cards := cards[slot := cards[slot].(id := h.data)];
      }
    }

    /** Microcommands that change the driver's own fields. */
    method PerformLocal(c: Command, h: Sample) returns (then_: Then)
      requires Valid() && |cards| == NUM_USLOTS && slot < NUM_USLOTS
      requires !Moves(c.kind) && !c.kind.CompleteIo? && !c.kind.Reset?
      requires !c.kind.Identify? && !c.kind.GetId? && !c.kind.StartDld? && !c.kind.Status?
      modifies this`slot, this`buf, this`index, this`ping
      ensures Valid() && (Bare(Model()), then_) == Perform(Bare(old(Model())), c, h) && !then_.Repeat? && !then_.RepeatLater?
    {
      hide AfterEnd, Ring, FlushBatch, Moving, Complete, Noted;
      then_ := Fetch;
      match c.kind
      case Synch | CdeReset => slot := -1;
      case PrepSelect => then_ := FetchLater;
      case Select => slot := c.slot;
      case PrepRead | PrepWrite | PrepVerify => buf, index := c.buf, 0;
      case PingDone => ping := false;
      case End =>
    }

    /** For the record: a microcommand carried out for the current request. */
    method Note(kind: Kind, byte: int)
      requires Valid()
      modifies this`ran
      ensures Valid() && Model() == Noted(old(Model()), kind, byte)
    {
      if current.Some? { ran := ran + [Ran(current.value, kind, byte, slot)]; }
    }

    method StepOver(kind: Kind, byte: int)
      requires Valid()
      modifies this`ran, this`index
      ensures Valid() && Model() == Noted(old(Model()), kind, byte).(index := old(index) + 1)
    {
      hide Ring;
      Note(kind, byte);
      index := index + 1;
    }

    method MoveByte(c: Command, h: Sample) returns (then_: Then)
      requires Valid() && Moves(c.kind)
      modifies this
      ensures Valid() && commands == old(commands)
      ensures (Bare(Model()), then_) == Perform(Bare(old(Model())), c, h)
      ensures then_.Repeat? || then_.RepeatLater? ==> nextCommand == old(nextCommand)
    {
      hide AfterEnd, Ring, Perform, Noted;
      MoveCases(Model(), c, h);
      if c.kind.Write? && index == |buf| { return Fetch; }
      StepOver(c.kind, if !c.kind.Write? then h.data else if index < |buf| then buf[index] else 0);
      if c.kind.Verify? && index <= |buf| && buf[index - 1] != h.data {
        CompleteMicroslotIO(BadCard);
        FlushMicroCommands(false);
        return Fetch;
      }
      if index == |buf| && !c.kind.Write? { return Fetch; }
      then_ := if h.slow then RepeatLater else Repeat;
    }

    // ---- DispatchMicroCommands ----

    /** The microcommand to execute: the one to repeat, or the next in the ring; -1 when there is none. */
    method NextMicroCommand() returns (at: int)
      requires Valid()
      modifies this`nextCommand
      ensures Valid() && (if Todo(old(Model())) == [] then at == -1 && Model() == old(Model()) else
        at == Preceding(nextCommand) && commands[at] == Todo(old(Model()))[0] && Bare(Model()) == Taken(old(Model())))
    {
      at := repeatAt;
      if at < 0 {
        at := FetchMicroCommand();
      }
    }

    /** Executes one microcommand and settles whether it is repeated. */
    method RunMicroCommand(at: int, h: Sample, ghost m: Machine) returns (then_: Then)
      requires Valid() && |cards| == NUM_USLOTS && slot < NUM_USLOTS
      requires Todo(m) != [] && at == Preceding(nextCommand) && commands[at] == Todo(m)[0] && Bare(Model()) == Taken(m)
      modifies this
      ensures Valid() && commands == old(commands) && (Model(), then_) == Advance(m, h)
    {
      hide Exec, Ring;
      then_ := ExecuteMicroCommand(commands[at], h);
      match then_
      case Fetch | FetchLater => repeatAt := -1;
      case Repeat | RepeatLater =>
        repeatAt := at;
    }

    method DispatchMicroCommands(hw: Hardware)
      requires Valid() && Sound(Model()) && Roomy(Model())
      modifies this, commands
      ensures Valid() && commands == old(commands) && Model() == Dispatch(old(Model()), hw)
    {
      if !dipir {
        DispatchLoop(hw);
      }
    }

    method DispatchLoop(hw: Hardware)
      requires Valid() && Sound(Model())
      modifies this, commands
      ensures Valid() && commands == old(commands) && Model() == DispatchFrom(old(Model()), hw, 0)
    {
      hide Sound, Advance, Accept, Ring;
      ghost var m0 := Model();
      var numMicroCommands := 0;
      while true
        invariant Valid() && commands == old(commands) && Sound(Model()) && numMicroCommands < MAX_MICROCOMMANDS_EXECUTED
        invariant DispatchFrom(Model(), hw, numMicroCommands) == DispatchFrom(m0, hw, 0)
        decreases MAX_MICROCOMMANDS_EXECUTED - numMicroCommands, |pending|
      {
        ghost var m := Model();
        var at := NextMicroCommand();
        if at >= 0 {
          SoundFields(m);
          AdvanceSound(m, hw(numMicroCommands));
          var then_ := RunMicroCommand(at, hw(numMicroCommands), m);
          numMicroCommands := numMicroCommands + 1;
          if then_.RepeatLater? || then_.FetchLater? || numMicroCommands == MAX_MICROCOMMANDS_EXECUTED { return; }
        } else if pending == [] {
          current := None;
          return;
        } else {
          AcceptSound(m);
          AcceptNext();
        }
      }
    }

    /** RemHead, and the request in its microcommands. */
    method AcceptNext()
      requires Valid() && Sound(Model()) && Todo(Model()) == [] && pending != []
      modifies this, commands
      ensures Valid() && commands == old(commands) && Model() == Accept(old(Model()))
    {
      hide Ring, ExpandOrder;
      ghost var m := Model();
      SoundFields(m);
      var r := pending[0];
      current := Some(r);
      pending := pending[1..];
      since := |ran|;
      if slot != r.slot {
        AddCommands(SelectBatch(r.slot));
      }
      Expand(r.order);
    }

    // ---- the other handlers ----

    method HandlePing(hw: Hardware)
      requires Valid() && Sound(Model()) && Roomy(Model())
      modifies this, commands
      ensures Valid() && commands == old(commands) && Model() == Ping(old(Model()), hw)
    {
      hide Ring, Sound, Dispatch;
      if dipir || ping { return; }
      ghost var m := Model();
      SoundFields(m);
      PingBatchShape();
      PingQueued(m, PingBatch());
      ping := true;
      var needDispatch := nextCommand == nextNewCommand;
      QueueEmpty(m);
      AddPing();
      if needDispatch {
        DispatchMicroCommands(hw);
      }
    }

    lemma QueueEmpty(m: Machine)
      requires Valid() && m.queue == Queue()
      ensures nextCommand == nextNewCommand <==> m.queue == []
    {
    }

    method AddPing()
      requires Valid() && |Queue()| <= 24
      modifies commands, this`nextNewCommand
      ensures Valid() && Model() == Add(old(Model()), PingBatch())
    {
      hide Ring;
      ghost var m := Model();
      AddCommands([Plain(CdeReset)]);
      for i := 0 to NUM_USLOTS
        invariant Valid() && Model() == Add(m, [Plain(CdeReset)] + PingSlots(i))
      {
        AddCommands(SelectBatch(i) + [Plain(Identify), Plain(GetId)]);
        PingOnce(m, i);
      }
      AddCommands([Plain(PingDone), Plain(End)]);
      AddTwice(m, [Plain(CdeReset)] + PingSlots(NUM_USLOTS), [Plain(PingDone), Plain(End)]);
    }

    method AbortMicroslotIO(id: int, hw: Hardware)
      requires Valid() && Sound(Model()) && Roomy(Model())
      modifies this, commands
      ensures Valid() && commands == old(commands) && Model() == Abort(old(Model()), id, hw)
    {
      hide Ring, Sound, Dispatch;
      if current.Some? && current.value.id == id {
        ResetHardware();
        DispatchMicroCommands(hw);
      } else {
        pending := Without(pending, id);
      }
      done := done + [Completion(id, Aborted, None)];
    }

    /** Drops everything under way and queues a reset. */
    method ResetHardware()
      requires Valid() && Sound(Model())
      modifies this, commands
      ensures Valid() && commands == old(commands) && Sound(Model()) && Roomy(Model())
      ensures Model() == Add(FlushAll(old(Model())).(current := None, slot := -1), ResetBatch())
    {
      hide Ring, Sound;
      ResetShape(Model());
      FlushMicroCommands(true);
      current, slot := None, -1;
      AddCommands(ResetBatch());
    }

    method MicroslotDuck()
      requires Valid()
      modifies this
      ensures Valid() && commands == old(commands) && Model() == Duck(old(Model()))
    {
      hide Ring;
      FlushMicroCommands(true);
      assert [] + pending == pending;
      if current.Some? {
        pending := [current.value] + pending;
        current := None;
      }
      slot := -1;
    }

    method MicroslotRecover()
      requires Valid()
      modifies this`dipir
      ensures Valid() && Model() == Recover(old(Model()))
    {
      hide Ring;
      dipir := false;
    }

    method DispatchMicroslotIO(r: Request, privileged: bool, internal: bool, hw: Hardware)
      requires Valid() && Sound(Model()) && Roomy(Model()) && Proper(r)
      modifies this, commands
      ensures Valid() && commands == old(commands) && Model() == Submit(old(Model()), r, privileged, internal, hw)
    {
      hide Ring, Sound, Dispatch;
      if !privileged {
        done := done + [Completion(r.id, BadPriv, None)];
        return;
      }
      ghost var m := Model();
      SubmitSound(m, r, true, true, hw);
      InsertNodeFromTail(r);
      if !internal {
        DispatchMicroCommands(hw);
      }
    }

    /** From the tail, past every node of a lower priority. */
    method InsertNodeFromTail(r: Request)
      requires Valid()
      modifies this`pending
      ensures Valid() && Model() == old(Model()).(pending := Insert(old(pending), r))
    {
      hide Ring;
      var i := |pending|;
      assert pending[..i] == pending && pending[i..] == [];
      while i > 0 && pending[i - 1].priority < r.priority
        invariant 0 <= i <= |pending| && pending == old(pending)
        invariant Insert(pending, r) == Insert(pending[..i], r) + pending[i..]
      {
        i := i - 1;
        assert pending[..i + 1][..i] == pending[..i] && pending[i..] == [pending[i]] + pending[i + 1..];
      }
      pending := pending[..i] + [r] + pending[i..];
    }
  }
}
