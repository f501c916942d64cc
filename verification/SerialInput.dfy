/** Received bytes on their way to readers: the overflow ring and the draining of the FIFO. */
module SerialInput {
  import opened Options

  const WORD: int := 0x1_0000_0000  // ds_OvflBufferStart is an unsigned 32-bit count
  const XON: int := 0x11
  const XOFF: int := 0x13

  datatype Read = Read(len: nat, got: seq<int>)

  /** Settings, the ring's contents oldest first, the reader in hand and those behind it, and the bytes in the
      receive FIFO; taken is every data byte that has left the FIFO, delivered what readers got, and from where
      in taken each of those stood. */
  datatype Serial = Serial(
    buffered: bool, size: nat, sw: bool,
    ring: seq<int>, dropped: nat, xoff: bool,
    current: Option<Read>, pending: seq<nat>, completed: seq<Read>,
    fifo: seq<int>, arrived: seq<int>, taken: seq<int>, delivered: seq<int>, from: seq<int>)

  predicate FlowByte(s: Serial, b: int) { s.sw && (b == XON || b == XOFF) }

  function Head(s: Serial): int
    requires s.fifo != []
  {
    s.fifo[0]
  }

  /** A flow control byte is obeyed and gone. */
  function Obeyed(s: Serial): Serial
    requires s.fifo != []
  {
    s.(xoff := Head(s) == XOFF, fifo := s.fifo[1..])
  }

  // ---- HandleOverflow ----

  /** A data byte with no reader: into the ring, over the oldest when that is full, or nowhere. */
  function Stored(s: Serial): Serial
    requires s.fifo != []
  {
    var b := Head(s);
    var s1 := s.(fifo := s.fifo[1..], taken := s.taken + [b]);
    if !s.buffered then s1.(dropped := s.dropped + 1)
    else if |s.ring| < s.size then s1.(ring := s.ring + [b])
    else if s.ring == [] then s1.(dropped := s.dropped + 1)
    else s1.(ring := s.ring[1..] + [b], dropped := s.dropped + 1)
  }

  function Overflow(s: Serial): Serial
    decreases |s.fifo|
  {
    if s.fifo == [] then s else Overflow(if FlowByte(s, Head(s)) then Obeyed(s) else Stored(s))
  }

  // ---- DrainInputFIFO ----

  function Given(s: Serial, b: int): Serial
    requires s.current.Some?
  {
    s.(current := Some(s.current.value.(got := s.current.value.got + [b])), delivered := s.delivered + [b])
  }

  /** The oldest byte of the ring goes to the reader. */
  function FromRing(s: Serial): Serial
    requires s.current.Some? && s.ring != []
  {
    Given(s, s.ring[0]).(ring := s.ring[1..], from := s.from + [|s.taken| - |s.ring|])
  }

  function FromFifo(s: Serial): Serial
    requires s.current.Some? && s.fifo != []
  {
    Given(s, Head(s)).(fifo := s.fifo[1..], taken := s.taken + [Head(s)], from := s.from + [|s.taken|])
  }

  /** First off, drain anything in the overflow buffer. */
  function RingOut(s: Serial, len: nat): (r: (Serial, nat))
    requires s.current.Some? && |s.ring| <= |s.taken|
    ensures r.0.current.Some? && r.1 <= len && r.0.pending == s.pending && (r.1 == 0 || r.0.ring == [])
    decreases len
  {
    if len == 0 || s.ring == [] then (s, len) else RingOut(FromRing(s), len - 1)
  }

  /** Then from the FIFO; a flow control byte counts against the length although it is not stored. */
  function FifoOut(s: Serial, len: nat): (r: (Serial, nat))
    requires s.current.Some?
    ensures r.0.current.Some? && r.0.pending == s.pending && r.1 <= len
    decreases len
  {
    if len == 0 || s.fifo == [] then (s, len)
    else FifoOut(if FlowByte(s, Head(s)) then Obeyed(s) else FromFifo(s), len - 1)
  }

  /** What the reader in hand gets, and how much it still lacks. */
  function Served(s: Serial): (r: (Serial, nat))
    requires s.current.Some? && |s.ring| <= |s.taken|
    ensures r.0.current.Some? && r.0.pending == s.pending
  {
    var c := s.current.value;
    var (s1, len) := RingOut(s, if c.len > |c.got| then c.len - |c.got| else 0);
    FifoOut(s1, len)
  }

  function NextReader(s: Serial): (r: Serial)
    ensures s.pending != [] ==> r.current.Some? && |r.pending| < |s.pending|
    ensures s.pending == [] ==> r == s.(current := None)
  {
    if s.pending == [] then s.(current := None) else s.(current := Some(Read(s.pending[0], [])), pending := s.pending[1..])
  }

  function Completed(s: Serial): Serial
    requires s.current.Some?
  {
    NextReader(s.(completed := s.completed + [s.current.value]))
  }

  function Drain(s: Serial): Serial
    decreases |s.pending|, if s.current.Some? then 1 else 0
  {
    if s.current.None? then
      if s.pending == [] then Overflow(s) else Drain(NextReader(s))
    else if |s.ring| > |s.taken| then s
    else
      var (s1, len) := Served(s);
      if len > 0 then s1 else Drain(Completed(s1))
  }

  // ---- conservation ----

  /** The data bytes of a stream. */
  function Data(bs: seq<int>, sw: bool): seq<int>
  {
    if bs == [] then []
    else (if sw && (bs[0] == XON || bs[0] == XOFF) then [] else [bs[0]]) + Data(bs[1..], sw)
  }

  /** Delivered bytes stood in the stream at ever later places, all before what the ring holds. */
  predicate InOrder(s: Serial)
  {
    && |s.from| == |s.delivered|
    && (forall i :: 0 <= i < |s.from| ==> 0 <= s.from[i] < |s.taken| - |s.ring| && s.taken[s.from[i]] == s.delivered[i])
    && (forall i, j :: 0 <= i < j < |s.from| ==> s.from[i] < s.from[j])
  }

  /** What has arrived and is data has been taken or is still to be; the ring holds the latest bytes taken; what
      is neither there nor delivered has been counted as dropped. */
  predicate Conserved(s: Serial)
  {
    && Data(s.arrived, s.sw) == s.taken + Data(s.fifo, s.sw)
    && |s.ring| <= s.size && |s.ring| <= |s.taken| && Latest(s.ring, s.taken)
    && (!s.buffered ==> s.ring == [])
    && InOrder(s) && |s.delivered| + |s.ring| + s.dropped == |s.taken|
  }

  lemma DataHead(s: Serial)
    requires s.fifo != []
    ensures Data(s.fifo, s.sw) == (if FlowByte(s, Head(s)) then [] else [Head(s)]) + Data(s.fifo[1..], s.sw)
  {
  }

  lemma ObeyedConserved(s: Serial)
    requires Conserved(s) && s.fifo != [] && FlowByte(s, Head(s))
    ensures Conserved(Obeyed(s))
  {
    DataHead(s);
    hide Data, InOrder;
    OrderKept(s, Obeyed(s));
  }

  /** The latest k + 1 bytes of a stream once b has been added. */
  lemma LatestMore(taken: seq<int>, k: nat, b: int)
    requires k <= |taken|
    ensures (taken + [b])[|taken| - k..] == taken[|taken| - k..] + [b]
    ensures k > 0 ==> (taken + [b])[|taken| + 1 - k..] == taken[|taken| - k..][1..] + [b]
  {
  }

  /** Places already delivered from stay where they are while the stream grows. */
  lemma OrderKept(s: Serial, s1: Serial)
    requires InOrder(s) && s1.from == s.from && s1.delivered == s.delivered && s.taken <= s1.taken
    requires |s.ring| <= |s.taken| && |s1.taken| - |s1.ring| >= |s.taken| - |s.ring|
    ensures InOrder(s1)
  {
  }

  /** The next byte is data, and has been taken. */
  lemma TakenMore(s: Serial)
    requires Data(s.arrived, s.sw) == s.taken + Data(s.fifo, s.sw) && s.fifo != [] && !FlowByte(s, Head(s))
    ensures Data(s.arrived, s.sw) == (s.taken + [Head(s)]) + Data(s.fifo[1..], s.sw)
  {
    DataHead(s);
    assert s.taken + ([Head(s)] + Data(s.fifo[1..], s.sw)) == (s.taken + [Head(s)]) + Data(s.fifo[1..], s.sw);
  }

  /** The ring holds the latest bytes. */
  predicate Latest(ring: seq<int>, taken: seq<int>) { |ring| <= |taken| && ring == taken[|taken| - |ring|..] }

  lemma LatestKept(ring: seq<int>, taken: seq<int>, b: int)
    requires Latest(ring, taken)
    ensures Latest(ring + [b], taken + [b]) && (ring != [] ==> Latest(ring[1..] + [b], taken + [b])) && Latest([], taken + [b])
  {
    LatestMore(taken, |ring|, b);
  }

  lemma StoredConserved(s: Serial)
    requires Conserved(s) && s.fifo != [] && !FlowByte(s, Head(s)) && (s.buffered ==> s.size > 0)
    ensures Conserved(Stored(s))
  {
    hide Data, InOrder, Latest, FlowByte;
    TakenMore(s);
    LatestKept(s.ring, s.taken, Head(s));
    OrderKept(s, Stored(s));
  }

  predicate Room(s: Serial) { s.buffered ==> s.size > 0 }

  lemma {:induction false} OverflowConserved(s: Serial)
    requires Conserved(s) && Room(s)
    ensures Conserved(Overflow(s)) && Overflow(s).fifo == []
    decreases |s.fifo|
  {
    hide Conserved;
    if s.fifo != [] {
      if FlowByte(s, Head(s)) {
        ObeyedConserved(s);
        OverflowConserved(Obeyed(s));
      } else {
        StoredConserved(s);
        OverflowConserved(Stored(s));
      }
    }
  }

  lemma FromRingConserved(s: Serial)
    requires Conserved(s) && s.current.Some? && s.ring != []
    ensures Conserved(FromRing(s))
  {
    hide Data;
    assert s.taken[|s.taken| - |s.ring|] == s.ring[0];
  }

  lemma FromFifoConserved(s: Serial)
    requires Conserved(s) && s.current.Some? && s.fifo != [] && s.ring == [] && !FlowByte(s, Head(s))
    ensures Conserved(FromFifo(s))
  {
    DataHead(s);
    hide Data;
    assert s.taken + ([Head(s)] + Data(s.fifo[1..], s.sw)) == (s.taken + [Head(s)]) + Data(s.fifo[1..], s.sw);
  }

  lemma {:induction false} RingOutConserved(s: Serial, len: nat)
    requires Conserved(s) && s.current.Some?
    ensures Conserved(RingOut(s, len).0) && Room(RingOut(s, len).0) == Room(s)
    decreases len
  {
    hide InOrder, Data;
    if len > 0 && s.ring != [] {
      FromRingConserved(s);
      RingOutConserved(FromRing(s), len - 1);
    }
  }

  lemma {:induction false} FifoOutConserved(s: Serial, len: nat)
    requires Conserved(s) && s.current.Some? && (len == 0 || s.ring == [])
    ensures Conserved(FifoOut(s, len).0) && Room(FifoOut(s, len).0) == Room(s)
    decreases len
  {
    hide InOrder, Data, Conserved;
    if len > 0 && s.fifo != [] {
      if FlowByte(s, Head(s)) {
        ObeyedConserved(s);
        FifoOutConserved(Obeyed(s), len - 1);
      } else {
        FromFifoConserved(s);
        FifoOutConserved(FromFifo(s), len - 1);
      }
    }
  }

  lemma ConservedParts(s: Serial)
    requires Conserved(s)
    ensures |s.ring| <= |s.taken|
  {
  }

  lemma NextReaderConserved(s: Serial)
    requires Conserved(s)
    ensures Conserved(NextReader(s)) && Room(NextReader(s)) == Room(s)
  {
    hide Data, InOrder;
    OrderKept(s, NextReader(s));
  }

  lemma {:induction false} DrainConserved(s: Serial)
    requires Conserved(s) && Room(s)
    ensures Conserved(Drain(s)) && Room(Drain(s))
    decreases |s.pending|, if s.current.Some? then 1 else 0
  {
    hide Conserved;
    ConservedParts(s);
    if s.current.None? {
      if s.pending == [] {
        OverflowConserved(s);
        OverflowRoom(s);
      } else {
        NextReaderConserved(s);
        DrainConserved(NextReader(s));
      }
    } else {
      var c := s.current.value;
      var r := RingOut(s, if c.len > |c.got| then c.len - |c.got| else 0);
      RingOutConserved(s, if c.len > |c.got| then c.len - |c.got| else 0);
      FifoOutConserved(r.0, r.1);
      var (s1, len) := Served(s);
      if len == 0 {
        CompletedConserved(s1);
        DrainConserved(Completed(s1));
      }
    }
  }

  lemma CompletedConserved(s: Serial)
    requires Conserved(s) && s.current.Some?
    ensures Conserved(Completed(s)) && Room(Completed(s)) == Room(s)
  {
    hide Data, InOrder;
    OrderKept(s, s.(completed := s.completed + [s.current.value]));
    NextReaderConserved(s.(completed := s.completed + [s.current.value]));
  }

  lemma {:induction false} OverflowRoom(s: Serial)
    ensures Room(Overflow(s)) == Room(s)
    decreases |s.fifo|
  {
    if s.fifo != [] { OverflowRoom(if FlowByte(s, Head(s)) then Obeyed(s) else Stored(s)); }
  }

  // ---- runs ----

  datatype Event = Arrives(bytes: seq<int>) | Interrupt | ReadAsked(len: nat)

  function Step(s: Serial, e: Event): Serial
  {
    match e
    case Arrives(bs) => s.(fifo := s.fifo + bs, arrived := s.arrived + bs)
    case Interrupt => Drain(s)
    case ReadAsked(len) => if len == 0 then s else Drain(s.(pending := s.pending + [len]))
  }

  function Run(s: Serial, es: seq<Event>): Serial
  {
    if es == [] then s else Step(Run(s, es[..|es| - 1]), es[|es| - 1])
  }

  function Opened(buffered: bool, size: nat, sw: bool): Serial
  {
    Serial(buffered, size, sw, [], 0, false, None, [], [], [], [], [], [], [])
  }

  lemma {:induction false} DataTwo(a: seq<int>, b: seq<int>, sw: bool)
    ensures Data(a + b, sw) == Data(a, sw) + Data(b, sw)
    decreases |a|
  {
    if a == [] {
      assert a + b == b;
    } else {
      DataTwo(a[1..], b, sw);
      assert (a + b)[1..] == a[1..] + b;
      assert Data(a, sw) + Data(b, sw) ==
             (if sw && (a[0] == XON || a[0] == XOFF) then [] else [a[0]]) + (Data(a[1..], sw) + Data(b, sw));
    }
  }

  lemma ArrivesConserved(s: Serial, bs: seq<int>)
    requires Conserved(s)
    ensures Conserved(Step(s, Arrives(bs)))
  {
    hide InOrder, Data;
    OrderKept(s, Step(s, Arrives(bs)));
    DataTwo(s.fifo, bs, s.sw);
    DataTwo(s.arrived, bs, s.sw);
    assert s.taken + Data(s.fifo, s.sw) + Data(bs, s.sw) == s.taken + (Data(s.fifo, s.sw) + Data(bs, s.sw));
  }

  /** Whatever arrives and whatever is read, the bytes delivered and then those in the ring are the data bytes
      received, in order, but for those counted as dropped. */
  lemma {:induction false} NothingElseLost(buffered: bool, size: nat, sw: bool, es: seq<Event>)
    requires buffered ==> size > 0
    ensures Conserved(Run(Opened(buffered, size, sw), es)) && Room(Run(Opened(buffered, size, sw), es))
    decreases |es|
  {
    hide Conserved, Drain;
    if es == [] {
      OpenedConserved(buffered, size, sw);
    } else {
      NothingElseLost(buffered, size, sw, es[..|es| - 1]);
      var s := Run(Opened(buffered, size, sw), es[..|es| - 1]);
      match es[|es| - 1]
      case Arrives(bs) => ArrivesConserved(s, bs);
      case Interrupt => DrainConserved(s);
      case ReadAsked(len) =>
        if len > 0 {
          MoreReaders(s, len);
          DrainConserved(s.(pending := s.pending + [len]));
        }
    }
  }

  lemma OpenedConserved(buffered: bool, size: nat, sw: bool)
    ensures Conserved(Opened(buffered, size, sw))
  {
    var none: seq<int> := [];
    assert none[0..] == none && none + none == none;
  }

  lemma MoreReaders(s: Serial, len: nat)
    requires Conserved(s)
    ensures Conserved(s.(pending := s.pending + [len]))
  {
    hide Data, InOrder;
    OrderKept(s, s.(pending := s.pending + [len]));
  }

  // ---- what readers have, and flow control ----

  function Gots(rs: seq<Read>): seq<int>
  {
    if rs == [] then [] else Gots(rs[..|rs| - 1]) + rs[|rs| - 1].got
  }

  /** The bytes in the buffers of the completed reads, one read after another, and then in that of the one in hand. */
  function Buffers(s: Serial): seq<int>
  {
    Gots(s.completed) + if s.current.Some? then s.current.value.got else []
  }

  /** Readers have what was delivered, in that order, and none more than it asked for. */
  predicate Handed(s: Serial)
  {
    && Buffers(s) == s.delivered
    && (forall i :: 0 <= i < |s.completed| ==> |s.completed[i].got| <= s.completed[i].len)
    && (s.current.Some? ==> |s.current.value.got| <= s.current.value.len)
  }

  /** The last flow control byte of a stream says stop. */
  predicate Stopped(bs: seq<int>)
  {
    bs != [] && (bs[|bs| - 1] == XOFF || (bs[|bs| - 1] != XON && Stopped(bs[..|bs| - 1])))
  }

  /** The FIFO has the bytes that arrived last, and sending is held up as the last flow control byte before them says. */
  predicate Flowed(s: Serial)
  {
    && |s.fifo| <= |s.arrived| && s.fifo == s.arrived[|s.arrived| - |s.fifo|..]
    && (s.xoff <==> s.sw && Stopped(s.arrived[..|s.arrived| - |s.fifo|]))
  }

  predicate Kept(s: Serial) { Handed(s) && Flowed(s) }

  /** The head of the FIFO is gone, and heeded if it is a flow control byte. */
  lemma EatenKept(s: Serial, s1: Serial)
    requires Flowed(s) && s.fifo != [] && s1.fifo == s.fifo[1..] && s1.arrived == s.arrived && s1.sw == s.sw
    requires s1.xoff == if FlowByte(s, Head(s)) then Head(s) == XOFF else s.xoff
    ensures Flowed(s1)
  {
    var n := |s.arrived| - |s.fifo|;
    assert s.arrived[..n + 1][..n] == s.arrived[..n] && s.arrived[n] == s.arrived[n..][0] == Head(s);
  }

  lemma GivenHanded(s: Serial, b: int)
    requires Handed(s) && s.current.Some? && |s.current.value.got| < s.current.value.len
    ensures Handed(Given(s, b))
  {
  }

  lemma {:induction false} OverflowKept(s: Serial)
    requires Kept(s)
    ensures Kept(Overflow(s))
    decreases |s.fifo|
  {
    hide Gots, Stopped, Flowed;
    if s.fifo != [] {
      var s1 := if FlowByte(s, Head(s)) then Obeyed(s) else Stored(s);
      EatenKept(s, s1);
      OverflowKept(s1);
    }
  }

  /** The reader in hand has room for that many bytes. */
  predicate Wants(s: Serial, len: nat) { s.current.Some? && |s.current.value.got| + len <= s.current.value.len }

  lemma {:induction false} RingOutKept(s: Serial, len: nat)
    requires Kept(s) && Wants(s, len) && |s.ring| <= |s.taken|
    ensures var (s1, left) := RingOut(s, len);
            Kept(s1) && Wants(s1, left) && |s.ring| - |s1.ring| == len - left && s1.fifo == s.fifo
    decreases len
  {
    hide Handed, Stopped;
    if len > 0 && s.ring != [] {
      GivenHanded(s, s.ring[0]);
      HandedAlike(Given(s, s.ring[0]), FromRing(s));
      RingOutKept(FromRing(s), len - 1);
    }
  }

  lemma HandedAlike(s: Serial, s1: Serial)
    requires Handed(s) && s1.current == s.current && s1.completed == s.completed && s1.delivered == s.delivered
    ensures Handed(s1)
  {
  }

  lemma {:induction false} FifoOutKept(s: Serial, len: nat)
    requires Kept(s) && Wants(s, len)
    ensures var (s1, left) := FifoOut(s, len);
            Kept(s1) && Wants(s1, left) && |s.fifo| - |s1.fifo| == len - left && (left > 0 ==> s1.fifo == [])
    decreases len
  {
    hide Kept, Wants, FlowByte;
    WantsReader(s, len);
    if len > 0 && s.fifo != [] {
      ByteKept(s, len);
      FifoOutKept(if FlowByte(s, Head(s)) then Obeyed(s) else FromFifo(s), len - 1);
    }
  }

  lemma WantsReader(s: Serial, len: nat)
    requires Wants(s, len)
    ensures s.current.Some?
  {
  }

  lemma ByteKept(s: Serial, len: nat)
    requires Kept(s) && Wants(s, len) && len > 0 && s.fifo != []
    ensures var s1 := if FlowByte(s, Head(s)) then Obeyed(s) else FromFifo(s);
            Kept(s1) && Wants(s1, len - 1) && s1.current.Some?
  {
    hide Handed, Flowed;
    EatenKept(s, if FlowByte(s, Head(s)) then Obeyed(s) else FromFifo(s));
    HandedAlike(s, Obeyed(s));
    GivenHanded(s, Head(s));
    HandedAlike(Given(s, Head(s)), FromFifo(s));
  }

  /** A reader is served until what it lacked has been used up, byte by byte of ring and FIFO, flow control bytes
      included, or both have run out. */
  lemma ServedExactly(s: Serial)
    requires Kept(s) && s.current.Some? && |s.ring| <= |s.taken|
    ensures var (s1, left) := Served(s);
            && Kept(s1) && Wants(s1, left)
            && |s.ring| + |s.fifo| - |s1.ring| - |s1.fifo| == s.current.value.len - |s.current.value.got| - left
            && (left > 0 ==> s1.ring == [] && s1.fifo == [])
  {
    hide Flowed;
    var c := s.current.value;
    var len := if c.len > |c.got| then c.len - |c.got| else 0;
    RingOutKept(s, len);
    var (s1, left) := RingOut(s, len);
    FifoOutKept(s1, left);
    FifoKeepsRing(s1, left);
  }

  lemma {:induction false} FifoKeepsRing(s: Serial, len: nat)
    requires s.current.Some?
    ensures FifoOut(s, len).0.ring == s.ring
    decreases len
  {
    if len > 0 && s.fifo != [] { FifoKeepsRing(if FlowByte(s, Head(s)) then Obeyed(s) else FromFifo(s), len - 1); }
  }

  lemma NextKept(s: Serial)
    requires Kept(s) && s.current.None?
    ensures Kept(NextReader(s))
  {
    hide Flowed;
    FlowedAlike(s, NextReader(s));
  }

  lemma FlowedAlike(s: Serial, s1: Serial)
    requires Flowed(s) && s1.fifo == s.fifo && s1.arrived == s.arrived && s1.sw == s.sw && s1.xoff == s.xoff
    ensures Flowed(s1)
  {
  }

  lemma CompletedKept(s: Serial)
    requires Kept(s) && s.current.Some?
    ensures Kept(Completed(s))
  {
    hide Flowed;
    var s1 := s.(completed := s.completed + [s.current.value], current := None);
    assert s1.completed[..|s.completed|] == s.completed;
    FlowedAlike(s, s1);
    NextKept(s1);
    assert NextReader(s1) == Completed(s);
  }

  lemma {:induction false} DrainKept(s: Serial)
    requires Kept(s) && Conserved(s) && Room(s)
    ensures Kept(Drain(s))
    decreases |s.pending|, if s.current.Some? then 1 else 0
  {
    hide Kept, Conserved;
    ConservedParts(s);
    if s.current.None? {
      if s.pending == [] {
        OverflowKept(s);
      } else {
        NextKept(s);
        NextReaderConserved(s);
        DrainKept(NextReader(s));
      }
    } else {
      var (s1, len) := Served(s);
      ServedExactly(s);
      ServedConserved(s);
      if len == 0 {
        CompletedKept(s1);
        CompletedConserved(s1);
        DrainKept(Completed(s1));
      }
    }
  }

  lemma ServedConserved(s: Serial)
    requires Conserved(s) && s.current.Some?
    ensures Conserved(Served(s).0) && Room(Served(s).0) == Room(s)
  {
    hide Conserved;
    var c := s.current.value;
    var len := if c.len > |c.got| then c.len - |c.got| else 0;
    ConservedParts(s);
    RingOutConserved(s, len);
    FifoOutConserved(RingOut(s, len).0, RingOut(s, len).1);
  }

  lemma ArrivesKept(s: Serial, bs: seq<int>)
    requires Kept(s)
    ensures Kept(Step(s, Arrives(bs)))
  {
    var s1 := Step(s, Arrives(bs));
    HandedAlike(s, s1);
    var n := |s.arrived| - |s.fifo|;
    assert s1.arrived[..n] == s.arrived[..n] && s1.arrived[n..] == s.arrived[n..] + bs;
  }

  lemma OpenedKept(buffered: bool, size: nat, sw: bool)
    ensures Kept(Opened(buffered, size, sw))
  {
  }

  /** Whatever arrives and whatever is read, readers have exactly what was delivered, in order and none too much, and
      sending is held up exactly when the last flow control byte taken says so. */
  lemma {:induction false} ReadersHaveIt(buffered: bool, size: nat, sw: bool, es: seq<Event>)
    requires buffered ==> size > 0
    ensures Kept(Run(Opened(buffered, size, sw), es))
    decreases |es|
  {
    hide Kept, Conserved, Drain;
    if es == [] {
      OpenedKept(buffered, size, sw);
    } else {
      var s := Run(Opened(buffered, size, sw), es[..|es| - 1]);
      ReadersHaveIt(buffered, size, sw, es[..|es| - 1]);
      NothingElseLost(buffered, size, sw, es[..|es| - 1]);
      match es[|es| - 1]
      case Arrives(bs) => ArrivesKept(s, bs);
      case Interrupt => DrainKept(s);
      case ReadAsked(len) =>
        if len > 0 {
          MoreReaders(s, len);
          MoreKept(s, len);
          DrainKept(s.(pending := s.pending + [len]));
        }
    }
  }

  lemma MoreKept(s: Serial, len: nat)
    requires Kept(s)
    ensures Kept(s.(pending := s.pending + [len]))
  {
    HandedAlike(s, s.(pending := s.pending + [len]));
    FlowedAlike(s, s.(pending := s.pending + [len]));
  }

  /** A byte that is dropped for another is the oldest in the ring. */
  lemma DropsOldest(s: Serial)
    requires Conserved(s) && s.fifo != [] && s.buffered && |s.ring| == s.size > 0
    ensures s.taken[|s.taken| - |s.ring|] == s.ring[0] && Stored(s).ring == s.ring[1..] + [Head(s)]
    ensures Stored(s).dropped == s.dropped + 1
  {
    assert s.taken[|s.taken| - |s.ring|..][0] == s.ring[0];
  }
}
