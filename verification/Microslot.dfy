/** The microslot driver's microcommand engine, as a machine whose handlers map states to states. */
module Microslot {

  import opened Options

  const NUM_USLOTS: nat := 4
  const MAX_MICROCOMMANDS: nat := 48
  const MAX_MICROCOMMANDS_EXECUTED: nat := 128
  const SEQ_SIZE: nat := 12  // sizeof(MicroSlotSeq)
  const USLOT_CLKSPEED_8MHZ: nat := 3

  // ---- microcommands ----

  datatype Kind =
    | Synch | PrepSelect | Select | Reset | CdeReset | Identify | GetId
    | PrepRead | Read | PrepWrite | Write | PrepVerify | Verify
    | StartDld | Status | CompleteIo | PingDone | End

  type IoBuf = seq<int>  // the bytes of a buffer; its length is iob_Len

  /** A microcommand; its argument is a slot number or a buffer. */
  datatype Command = Command(kind: Kind, slot: nat, buf: IoBuf)

  function Plain(kind: Kind): Command { Command(kind, 0, []) }

  predicate Outputs(k: Kind)
  {
    k.Synch? || k.PrepSelect? || k.Select? || k.Reset? || k.Identify? || k.Write? || k.StartDld?
  }

  predicate Inputs(k: Kind) { k.GetId? || k.Read? || k.Verify? }

  /** MICRO_ATTR_NEEDSLOT and MICRO_ATTR_NEEDCARD always come together. */
  predicate NeedsCard(k: Kind)
  {
    k.Identify? || k.GetId? || k.StartDld? || k.Status? || Preps(k) || Moves(k)
  }

  predicate Preps(k: Kind) { k.PrepRead? || k.PrepWrite? || k.PrepVerify? }

  predicate Moves(k: Kind) { k.Read? || k.Write? || k.Verify? }

  /** Microcommands that touch the current request. */
  predicate ForRequest(k: Kind) { Preps(k) || Moves(k) || k.StartDld? || k.Status? || k.CompleteIo? }

  // ---- requests ----

  /** One MicroSlotSeq: its command and its buffer. */
  datatype Entry = Entry(cmd: nat, buf: IoBuf)

  datatype Order =
    | Sequence(bytes: nat, entries: seq<Entry>)  // iob_Len, and what precedes the zero entry
    | StreamRead(into: IoBuf)
    | StreamWrite(from: IoBuf)
    | ResetCards
    | SetClock(speed: nat)
    | CardStatus
    | Unknown

  datatype Request = Request(id: int, priority: int, slot: nat, order: Order)

  datatype Outcome = Ok | BadIoArg | BadSize | BadCommand | BadPriv | Offline | BadCard | Aborted

  /** What was carried out for a request when it was taken up: ran[from..to]. */
  datatype Service = Service(request: Request, from: nat, to: nat)

  /** An outcome handed back, and the service it ends, if the request had been taken up. */
  datatype Completion = Completion(id: int, outcome: Outcome, served: Option<Service>)

  // ---- the machine ----

  datatype Card = Card(changes: nat, id: int)

  /** A microcommand carried out for a request while a slot was selected, with the byte that was moved. */
  datatype Ran = Ran(request: Request, kind: Kind, byte: int, selected: int)

  datatype Machine = Machine(
    queue: seq<Command>, repeating: Option<Command>,
    current: Option<Request>, pending: seq<Request>, done: seq<Completion>,
    buf: IoBuf, index: nat, slot: int, outFull: nat, speed: nat,
    dipir: bool, ping: bool, cards: seq<Card>,
    ran: seq<Ran>, since: nat)  // what has been carried out, and how much of it before the current request

  /** What the hardware shows while one microcommand is executed: the status register, CardPresent,
      whether polling for the next byte runs into the time limit, and the byte in the input register. */
  datatype Sample = Sample(attn: bool, cardless: bool, outFull: bool, inFull: bool, present: bool, slow: bool, data: int)

  function Add(m: Machine, cs: seq<Command>): Machine { m.(queue := m.queue + cs) }

  function AfterEnd(q: seq<Command>): (r: seq<Command>)
    ensures |r| <= |q|
  {
    if q == [] then [] else if q[0].kind.End? then q[1..] else AfterEnd(q[1..])
  }

  function FlushAll(m: Machine): Machine { m.(queue := [], repeating := None, ping := false) }

  function FlushBatch(m: Machine): Machine { m.(queue := AfterEnd(m.queue), repeating := None) }

  function Complete(m: Machine, outcome: Outcome): Machine
  {
    if m.current.None? then m
    else
      m.(current := None,
         done := m.done + [Completion(m.current.value.id, outcome, Some(Service(m.current.value, m.since, |m.ran|)))])
  }

  // ---- requests into microcommands ----

  function SelectBatch(slot: nat): seq<Command>
  {
    [Plain(Synch), Command(PrepSelect, slot, []), Command(Select, slot, [])]
  }

  function FinishBatch(): seq<Command> { [Plain(CompleteIo), Plain(End)] }

  predicate KnownEntry(e: Entry) { 1 <= e.cmd <= 4 }

  function EntryBatch(e: Entry): (b: seq<Command>)
    ensures |b| <= 2
  {
    if e.cmd == 4 then [Plain(StartDld)]
    else if e.buf == [] then []
    else if e.cmd == 1 then [Command(PrepRead, 0, e.buf), Plain(Read)]
    else if e.cmd == 2 then [Command(PrepWrite, 0, e.buf), Plain(Write)]
    else [Command(PrepVerify, 0, e.buf), Plain(Verify)]
  }

  function EntriesBatch(es: seq<Entry>): (b: seq<Command>)
    ensures |b| <= 2 * |es|
  {
    if es == [] then [] else EntriesBatch(es[..|es| - 1]) + EntryBatch(es[|es| - 1])
  }

  function ExpandSequence(m: Machine, bytes: nat, entries: seq<Entry>): Machine
  {
    if bytes % SEQ_SIZE != 0 then Complete(m, BadIoArg)
    else if bytes / SEQ_SIZE > 5 then Complete(m, BadSize)
    else if exists i :: 0 <= i < |entries| && !KnownEntry(entries[i]) then FlushAll(Complete(m, BadIoArg))
    else Add(m, EntriesBatch(entries) + FinishBatch())
  }

  function ExpandOrder(m: Machine, order: Order): Machine
  {
    match order
    case Sequence(bytes, entries) => ExpandSequence(m, bytes, entries)
    case StreamRead(b) =>
      if b == [] then Complete(m, Ok) else Add(m, [Command(PrepRead, 0, b), Plain(Read)] + FinishBatch())
    case StreamWrite(b) =>
      if b == [] then Complete(m, Ok) else Add(m, [Command(PrepWrite, 0, b), Plain(Write)] + FinishBatch())
    case ResetCards => Add(m, [Plain(Reset), Plain(CdeReset)] + FinishBatch())
    case SetClock(speed) =>
      if speed > USLOT_CLKSPEED_8MHZ then Complete(m, BadIoArg) else Complete(m.(speed := speed), Ok)
    case CardStatus => Add(m, [Plain(Identify), Plain(GetId), Plain(Status)] + FinishBatch())
    case Unknown => Complete(m, BadCommand)
  }

  /** The next pending request becomes the current one. */
  function Accept(m: Machine): Machine
    requires m.pending != []
  {
    var r := m.pending[0];
    var m1 := m.(current := Some(r), pending := m.pending[1..], since := |m.ran|);
    ExpandOrder(if m.slot != r.slot then Add(m1, SelectBatch(r.slot)) else m1, r.order)
  }

  // ---- ExecuteMicroCommand ----

  datatype Then = Fetch | Repeat | RepeatLater | FetchLater

  /** A card has turned up in the selected slot. */
  function Inserted(m: Machine): Machine
  {
    if 0 <= m.slot < |m.cards| then m.(cards := m.cards[m.slot := m.cards[m.slot].(changes := m.cards[m.slot].changes + 1)])
    else m
  }

  /** The card in the selected slot has told its identity. */
  function Identified(m: Machine, id: int): Machine
  {
    if 0 <= m.slot < |m.cards| then m.(cards := m.cards[m.slot := m.cards[m.slot].(id := id)]) else m
  }

  function Exec(m: Machine, c: Command, h: Sample): (Machine, Then)
  {
    if h.attn && !h.cardless then (m.(dipir := true), RepeatLater)
    else if m.slot < 0 then (if NeedsCard(c.kind) then (m, Fetch) else Await(m, c, h))
    else if h.cardless then
      var m1 := m.(dipir := m.dipir || h.present);
      if !NeedsCard(c.kind) then Await(m1, c, h)
      else if m.current.Some? then (Complete(FlushBatch(m1), Offline), Fetch)
      else (m1, Fetch)
    else if h.present then Await(m, c, h)
    else Await(Inserted(m), c, h)
  }

  /** Waits for the registers a microcommand needs. */
  function Await(m: Machine, c: Command, h: Sample): (Machine, Then)
  {
    if Outputs(c.kind) && h.outFull then
      if m.outFull + 1 == 3 then (Complete(FlushAll(m.(outFull := 0)), Offline), Fetch)
      else (m.(outFull := m.outFull + 1), if h.slow then RepeatLater else Repeat)
    else if Outputs(c.kind) then Perform(m.(outFull := 0), c, h)
    else if Inputs(c.kind) && !h.inFull then (m, Repeat)
    else Perform(m, c, h)
  }

  /** Notes that a microcommand was carried out for the current request. */
  function Noted(m: Machine, kind: Kind, byte: int): Machine
  {
    if m.current.None? then m else m.(ran := m.ran + [Ran(m.current.value, kind, byte, m.slot)])
  }

  /** The next byte of the buffer in hand. */
  function NextByte(m: Machine): int { if m.index < |m.buf| then m.buf[m.index] else 0 }

  /** More bytes to move, or on to the next microcommand. */
  function Moving(m: Machine, h: Sample): (Machine, Then)
  {
    (m, if m.index == |m.buf| then Fetch else if h.slow then RepeatLater else Repeat)
  }

  function Perform(m: Machine, c: Command, h: Sample): (Machine, Then)
  {
    match c.kind
    case Synch | CdeReset => (m.(slot := -1), Fetch)
    case Reset => (Noted(m, c.kind, 0).(slot := -1), Fetch)
    case PrepSelect => (m, FetchLater)
    case Select => (m.(slot := c.slot), Fetch)
    case GetId => (Identified(Noted(m, c.kind, h.data), h.data), Fetch)
    case PrepRead | PrepWrite | PrepVerify => (m.(buf := c.buf, index := 0), Fetch)
    case Read => Moving(Noted(m, c.kind, h.data).(index := m.index + 1), h)
    case Write =>
      if m.index == |m.buf| then (m, Fetch)
      else (Noted(m, c.kind, NextByte(m)).(index := m.index + 1), if h.slow then RepeatLater else Repeat)
    case Verify =>
      var m1 := Noted(m, c.kind, h.data).(index := m.index + 1);
      if m.index < |m.buf| && m.buf[m.index] != h.data then (FlushBatch(Complete(m1, BadCard)), Fetch)
      else Moving(m1, h)
    case Identify | StartDld | Status => (Noted(m, c.kind, 0), Fetch)
    case CompleteIo => (Complete(m, Ok), Fetch)
    case PingDone => (m.(ping := false), Fetch)
    case End => (m, Fetch)
  }

  // ---- DispatchMicroCommands ----

  /** The microcommands still to be executed, the one to repeat first. */
  function Todo(m: Machine): seq<Command>
  {
    (if m.repeating.Some? then [m.repeating.value] else []) + m.queue
  }

  /** The machine once the first of them is in hand. */
  function Taken(m: Machine): Machine
    requires Todo(m) != []
  {
    if m.repeating.Some? then m.(repeating := None) else m.(queue := m.queue[1..])
  }

  /** Executes the next microcommand. */
  function Advance(m: Machine, h: Sample): (Machine, Then)
    requires Todo(m) != []
  {
    var c := Todo(m)[0];
    var (m1, then_) := Exec(Taken(m), c, h);
    (m1.(repeating := if then_.Repeat? || then_.RepeatLater? then Some(c) else None), then_)
  }

  /** What the hardware shows, microcommand by microcommand. */
  type Hardware = nat -> Sample

  /** Microcommands, and requests when none is left, until there is nothing to do, a timer has to be
      waited for, or 128 microcommands have been executed. */
  function DispatchFrom(m: Machine, hw: Hardware, n: nat): Machine
    requires n < MAX_MICROCOMMANDS_EXECUTED
    decreases MAX_MICROCOMMANDS_EXECUTED - n, |m.pending|
  {
    if Todo(m) != [] then
      var (m1, then_) := Advance(m, hw(n));
      if then_.RepeatLater? || then_.FetchLater? || n + 1 == MAX_MICROCOMMANDS_EXECUTED then m1
      else DispatchFrom(m1, hw, n + 1)
    else if m.pending == [] then m.(current := None)
    else DispatchFrom(Accept(m), hw, n)
  }

  /** Nothing is done while DIPIR is due. */
  function Dispatch(m: Machine, hw: Hardware): Machine
  {
    if m.dipir then m else DispatchFrom(m, hw, 0)
  }

  // ---- the other handlers ----

  function PingSlots(n: nat): (b: seq<Command>)
    ensures |b| == 5 * n
  {
    if n == 0 then []
    else PingSlots(n - 1) + SelectBatch(n - 1) + [Plain(Identify), Plain(GetId)]
  }

  function PingBatch(): (b: seq<Command>)
    ensures |b| == 23
  {
    [Plain(CdeReset)] + PingSlots(NUM_USLOTS) + [Plain(PingDone), Plain(End)]
  }

  function Ping(m: Machine, hw: Hardware): Machine
  {
    if m.dipir || m.ping then m
    else
      var m1 := Add(m.(ping := true), PingBatch());
      if m.queue == [] then Dispatch(m1, hw) else m1
  }

  function ResetBatch(): seq<Command> { [Plain(Reset), Plain(Synch), Plain(CdeReset), Plain(End)] }

  /** The list without the node of that request. */
  function Without(rs: seq<Request>, id: int): (r: seq<Request>)
    ensures |r| <= |rs|
  {
    if rs == [] then [] else if rs[0].id == id then rs[1..] else [rs[0]] + Without(rs[1..], id)
  }

  function Abort(m: Machine, id: int, hw: Hardware): Machine
  {
    var m1 :=
      if m.current.Some? && m.current.value.id == id then
        Dispatch(Add(FlushAll(m).(current := None, slot := -1), ResetBatch()), hw)
      else m.(pending := Without(m.pending, id));
    m1.(done := m1.done + [Completion(id, Aborted, None)])
  }

  function Duck(m: Machine): Machine
  {
    FlushAll(m).(current := None, slot := -1,
                 pending := (if m.current.Some? then [m.current.value] else []) + m.pending)
  }

  function Recover(m: Machine): Machine { m.(dipir := false) }

  /** Behind every request of its own or a higher priority. */
  function Insert(rs: seq<Request>, r: Request): (s: seq<Request>)
    ensures |s| == |rs| + 1
  {
    if rs == [] || rs[|rs| - 1].priority >= r.priority then rs + [r]
    else Insert(rs[..|rs| - 1], r) + [rs[|rs| - 1]]
  }

  function Submit(m: Machine, r: Request, privileged: bool, internal: bool, hw: Hardware): Machine
  {
    if !privileged then m.(done := m.done + [Completion(r.id, BadPriv, None)])
    else
      var m1 := m.(pending := Insert(m.pending, r));
      if internal then m1 else Dispatch(m1, hw)
  }

  // ---- runs ----

  datatype Event =
    | Submitted(request: Request, privileged: bool, internal: bool, hw: Hardware)
    | TimerFired(hw: Hardware)
    | PingFired(hw: Hardware)
    | AbortAsked(id: int, hw: Hardware)
    | Ducked
    | Recovered

  function Step(m: Machine, e: Event): Machine
  {
    match e
    case Submitted(r, privileged, internal, hw) => Submit(m, r, privileged, internal, hw)
    case TimerFired(hw) => Dispatch(m, hw)
    case PingFired(hw) => Ping(m, hw)
    case AbortAsked(id, hw) => Abort(m, id, hw)
    case Ducked => Duck(m)
    case Recovered => Recover(m)
  }

  function Start(speed: nat, cards: seq<Card>): Machine
  {
    Machine([], None, None, [], [], [], 0, -1, 0, speed, false, false, cards, [], 0)
  }

  function Run(m: Machine, es: seq<Event>): Machine
  {
    if es == [] then m else Step(Run(m, es[..|es| - 1]), es[|es| - 1])
  }
}
