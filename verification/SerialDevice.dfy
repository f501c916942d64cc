/** DeviceState of the serial driver: the overflow buffer as a ring, filled and drained in place. */
module SerialDevice {
  import opened Options
  import opened SerialInput
  import M = Modulo

  // ---- places in the ring ----

  /** (ds_OvflBufferStart + i) % ds_OvflBufferSize on unsigned 32-bit words. */
  function Place(start: nat, i: nat, size: nat): (p: nat)
    requires size > 0
    ensures p < size
  {
    Wrapped(start, i) % size
  }

  /** The count has room for another turn of the ring before it wraps, or wraps at the end of one. */
  predicate Steady(start: nat, size: nat)
    requires size > 0
  {
    start < WORD && (start + size < WORD || WORD % size == 0)
  }

  lemma PlaceIs(start: nat, i: nat, size: nat)
    requires size > 0 && Steady(start, size) && i <= size
    ensures Place(start, i, size) == (start + i) % size
  {
    if WORD % size == 0 { M.Nested(start + i, WORD, size); }
  }

  lemma PlacesApart(start: nat, i: nat, j: nat, size: nat)
    requires size > 0 && Steady(start, size) && i < j < size
    ensures Place(start, i, size) != Place(start, j, size)
  {
    PlaceIs(start, i, size);
    PlaceIs(start, j, size);
    M.Window(start + i, start + j, size);
  }

  /** A full turn comes back to the oldest byte exactly when the count is steady: otherwise what is dropped is
      not the oldest. */
  lemma TurnExact(start: nat, size: nat)
    requires 0 < size < WORD && start < WORD
    ensures Place(start, size, size) == Place(start, 0, size) <==> Steady(start, size)
  {
    M.Cycle(start, size);
    if start + size >= WORD {
      M.Cycle(start - WORD, size);
      M.Less(start, WORD, size);
      assert start - WORD + size == Wrapped(start, size);
    }
  }

  function Wrapped(start: nat, i: nat): (r: nat)
    ensures r < WORD && (start + i < WORD ==> r == start + i)
    ensures start < WORD <= start + i < WORD + WORD ==> r == start + i - WORD
  {
    (start + i) % WORD
  }

  /** As with three bytes when the count wraps: two of them share a place. */
  lemma PlacesCollide()
    ensures Place(WORD - 1, 0, 3) == Place(WORD - 1, 1, 3)
  {
  }

  lemma PlaceNext(start: nat, i: nat, size: nat)
    requires size > 0 && start < WORD
    ensures Place((start + 1) % WORD, i, size) == Place(start, i + 1, size)
  {
    assert ((start + 1) % WORD + i) % WORD == (start + 1 + i) % WORD;
  }

  // ---- its contents ----

  /** The i-th oldest byte. */
  function At(buf: seq<int>, start: nat, i: nat): int
    requires |buf| > 0
  {
    buf[Place(start, i, |buf|)]
  }

  function Contents(buf: seq<int>, start: nat, amount: nat): (r: seq<int>)
    requires |buf| > 0
    ensures |r| == amount
  {
    seq(amount, i requires 0 <= i < amount => At(buf, start, i))
  }

  lemma StoreMore(buf: seq<int>, start: nat, amount: nat, b: int)
    requires |buf| > amount && Steady(start, |buf|)
    ensures Contents(buf[Place(start, amount, |buf|) := b], start, amount + 1) == Contents(buf, start, amount) + [b]
  {
    hide Place, Steady;
    var buf1 := buf[Place(start, amount, |buf|) := b];
    forall i | 0 <= i < amount
      ensures At(buf1, start, i) == At(buf, start, i)
    {
      PlacesApart(start, i, amount, |buf|);
    }
  }

  lemma PopOldest(buf: seq<int>, start: nat, amount: nat)
    requires |buf| > 0 && amount > 0 && start < WORD
    ensures Contents(buf, (start + 1) % WORD, amount - 1) == Contents(buf, start, amount)[1..]
  {
    hide Place;
    var start1 := (start + 1) % WORD;
    forall i | 0 <= i < amount - 1
      ensures At(buf, start1, i) == At(buf, start, i + 1)
    {
      PlaceNext(start, i, |buf|);
    }
  }

  /** A full ring: the new byte replaces the oldest. */
  lemma StoreOver(buf: seq<int>, start: nat, b: int)
    requires 0 < |buf| < WORD && Steady(start, |buf|)
    ensures var n := |buf|;
            Contents(buf[Place(start, n, n) := b], (start + 1) % WORD, n) == Contents(buf, start, n)[1..] + [b]
  {
    hide Place, Steady;
    var n := |buf|;
    var buf1 := buf[Place(start, n, n) := b];
    SteadyStart(start, n);
    TurnExact(start, n);
    var start1 := (start + 1) % WORD;
    forall i | 0 <= i < n
      ensures At(buf1, start1, i) == (if i < n - 1 then At(buf, start, i + 1) else b)
    {
      PlaceNext(start, i, n);
      if i < n - 1 { PlacesApart(start, 0, i + 1, n); }
    }
  }

  lemma SteadyStart(start: nat, size: nat)
    requires size > 0 && Steady(start, size)
    ensures start < WORD
  {
  }

  /** The count of the ring's turns, with n more bytes to come, does not wrap inside a turn. */
  predicate Turns(start: nat, n: nat, size: nat)
    requires size > 0
  {
    WORD % size == 0 || start + n + size < WORD
  }

  lemma TurnsOn(start: nat, n: nat, size: nat)
    requires size > 0 && start < WORD && Turns(start, n, size)
    ensures n > 0 ==> Turns((start + 1) % WORD, n - 1, size) && Turns(start, n - 1, size)
    ensures Steady(start, size)
  {
  }

  class Device {
    const buffered: bool
    const sw: bool                // SER_HANDSHAKE_SW
    const ovflBuffer: array<int>
    var ovflStart: nat
    var ovflAmount: nat
    var dropped: nat
    var xoff: bool
    var current: Option<Read>
    var pending: seq<nat>
    var completed: seq<Read>
    var fifo: seq<int>            // the chip's receive FIFO
    ghost var arrived: seq<int>
    ghost var taken: seq<int>
    ghost var delivered: seq<int>
    ghost var from: seq<int>

    /** Steady for as long as what is in the ring and the FIFO can turn the ring. */
    ghost predicate Valid()
      reads this, ovflBuffer
    {
      && 0 < ovflBuffer.Length < WORD && ovflAmount <= ovflBuffer.Length && ovflStart < WORD
      && (!buffered ==> ovflAmount == 0) && ovflAmount <= |taken|
      && Turns(ovflStart, ovflAmount + |fifo|, ovflBuffer.Length)
    }

    ghost function Model(): Serial
      reads this, ovflBuffer
      requires Valid()
    {
      Serial(buffered, ovflBuffer.Length, sw, Contents(ovflBuffer[..], ovflStart, ovflAmount), dropped, xoff,
             current, pending, completed, fifo, arrived, taken, delivered, from)
    }

    constructor (withBuffer: bool, size: nat, softHandshake: bool)
      requires 0 < size < WORD / 4
      ensures Valid() && fresh(ovflBuffer) && Model() == Opened(withBuffer, size, softHandshake)
    {
      buffered, sw, ovflBuffer := withBuffer, softHandshake, new int[size](_ => 0);
      ovflStart, ovflAmount, dropped, xoff := 0, 0, 0, false;
      current, pending, completed, fifo := None, [], [], [];
      arrived, taken, delivered, from := [], [], [], [];
    }

    /** The chip puts bytes into its FIFO, here not so many since the driver was opened that the count of the
        ring's turns wraps inside a turn. */
    method Receive(bytes: seq<int>)
      requires Valid()
      requires Turns(ovflStart, ovflAmount + |fifo| + |bytes|, ovflBuffer.Length)
      modifies this`fifo, this`arrived
      ensures Valid() && Model() == Step(old(Model()), Arrives(bytes))
    {
      hide Contents, Drain;
      fifo, arrived := fifo + bytes, arrived + bytes;
    }

    /** RBR: the next byte of the FIFO. */
    method ReadByte() returns (b: int)
      requires Valid() && fifo != []
      modifies this`fifo
      ensures Valid() && b == old(fifo)[0] && Model() == old(Model()).(fifo := old(fifo)[1..])
      ensures Turns(ovflStart, ovflAmount + |fifo| + 1, ovflBuffer.Length)
    {
      hide Contents;
      b := fifo[0];
      fifo := fifo[1..];
    }

    method Obey(b: int)
      requires Valid()
      modifies this`xoff
      ensures Valid() && Model() == old(Model()).(xoff := b == XOFF)
    {
      hide Contents;
      xoff := b == XOFF;
    }

    ghost function Ring(): seq<int>
      reads this, ovflBuffer
      requires ovflBuffer.Length > 0
    {
      Contents(ovflBuffer[..], ovflStart, ovflAmount)
    }

    /** Into the ring, over its oldest byte when it is full. */
    method QueueByte(b: int) returns (over: bool)
      requires 0 < ovflBuffer.Length < WORD && ovflAmount <= ovflBuffer.Length && ovflStart < WORD
      requires Turns(ovflStart, ovflAmount + |fifo| + 1, ovflBuffer.Length)
      modifies this`ovflStart, this`ovflAmount, ovflBuffer
      ensures ovflAmount == (if over then old(ovflAmount) else old(ovflAmount) + 1) <= ovflBuffer.Length && ovflStart < WORD
      ensures over == (old(ovflAmount) == ovflBuffer.Length) && Turns(ovflStart, ovflAmount + |fifo|, ovflBuffer.Length)
      ensures Ring() == (if over then old(Ring())[1..] else old(Ring())) + [b]
    {
      hide Contents, Place, Steady, Turns;
      TurnsOn(ovflStart, ovflAmount + |fifo| + 1, ovflBuffer.Length);
      ghost var bytes := ovflBuffer[..];
      var at := Place(ovflStart, ovflAmount, ovflBuffer.Length);
      ovflBuffer[at] := b;
      assert ovflBuffer[..] == bytes[at := b];
      over := ovflAmount == ovflBuffer.Length;
      if over {
        StoreOver(bytes, ovflStart, b);
        ovflStart := (ovflStart + 1) % WORD;
      } else {
        StoreMore(bytes, ovflStart, ovflAmount, b);
        ovflAmount := ovflAmount + 1;
      }
    }

    method StoreByte(b: int)
      requires Valid()
      requires Turns(ovflStart, ovflAmount + |fifo| + 1, ovflBuffer.Length)
      modifies this`ovflStart, this`ovflAmount, this`dropped, this`taken, ovflBuffer
      ensures Valid() && Model() == Stored(old(Model()).(fifo := [b] + fifo))
    {
      hide Contents, Place, Steady, Turns;
      assert ([b] + fifo)[1..] == fifo;
      taken := taken + [b];
      if buffered {
        var over := QueueByte(b);
        if over {
          dropped := dropped + 1;
        }
      } else {
        TurnsOn(ovflStart, ovflAmount + |fifo| + 1, ovflBuffer.Length);
        dropped := dropped + 1;
      }
    }

    method HandleOverflow()
      requires Valid()
      modifies this`ovflStart, this`ovflAmount, this`dropped, this`taken, this`xoff, this`fifo, ovflBuffer
      ensures Valid() && Model() == Overflow(old(Model()))
    {
      hide Valid, Stored, Contents;
      while fifo != []
        invariant Valid() && Overflow(Model()) == Overflow(old(Model()))
        decreases |fifo|
      {
        ghost var s := Model();
        var b := ReadByte();
        assert [b] + fifo == s.fifo;
        if sw && (b == XOFF || b == XON) {
          Obey(b);
        } else {
          StoreByte(b);
        }
      }
    }

    lemma RingTaken()
      requires Valid()
      ensures |Model().ring| <= |Model().taken| && Model().current == current && Model().pending == pending
    {
    }

    /** The oldest byte of the ring goes to the reader. */
    method GiveOldest()
      requires Valid() && current.Some? && ovflAmount > 0
      modifies this`ovflStart, this`ovflAmount, this`current, this`delivered, this`from
      ensures Valid() && current.Some? && Model() == FromRing(old(Model())) && pending == old(pending)
    {
      hide Contents, Steady, Turns;
      TurnsOn(ovflStart, ovflAmount + |fifo|, ovflBuffer.Length);
      PopOldest(ovflBuffer[..], ovflStart, ovflAmount);
      Oldest(ovflBuffer[..], ovflStart, ovflAmount);
      var b := ovflBuffer[ovflStart % ovflBuffer.Length];
      from := from + [|taken| - ovflAmount];
      current, delivered := Some(current.value.(got := current.value.got + [b])), delivered + [b];
      ovflStart, ovflAmount := (ovflStart + 1) % WORD, ovflAmount - 1;
    }

    /** First off, anything in the overflow buffer. */
    method DrainRing(len: nat) returns (left: nat)
      requires Valid() && current.Some?
      modifies this`ovflStart, this`ovflAmount, this`current, this`delivered, this`from
      ensures Valid() && |Model().ring| <= |Model().taken| && current.Some? && pending == old(pending)
      ensures old(|Model().ring| <= |Model().taken|) && RingOut(old(Model()), len) == (Model(), left)
    {
      hide Valid, FromRing, Contents;
      RingTaken();
      left := len;
      while left > 0 && ovflAmount > 0
        invariant Valid() && current.Some? && pending == old(pending) && |Model().ring| <= |Model().taken|
        invariant RingOut(Model(), left) == RingOut(old(Model()), len)
        decreases left
      {
        RingIs();
        GiveOldest();
        RingTaken();
        left := left - 1;
      }
      RingIs();
    }

    lemma RingIs()
      requires Valid()
      ensures Model().ring == [] <==> ovflAmount == 0
      ensures Model().fifo == fifo && Model().sw == sw
    {
    }

    method GiveByte(b: int)
      requires Valid() && current.Some?
      requires Turns(ovflStart, ovflAmount + |fifo| + 1, ovflBuffer.Length)
      modifies this`current, this`taken, this`delivered, this`from
      ensures Valid() && current.Some? && Model() == FromFifo(old(Model()).(fifo := [b] + old(fifo)))
      ensures pending == old(pending) && fifo == old(fifo)
    {
      hide Contents;
      assert ([b] + fifo)[1..] == fifo;
      from := from + [|taken|];
      current, delivered := Some(current.value.(got := current.value.got + [b])), delivered + [b];
      taken := taken + [b];
    }

    /** Then from the FIFO, as far as it goes. */
    method DrainFIFO(len: nat) returns (left: nat)
      requires Valid() && current.Some?
      modifies this`current, this`taken, this`delivered, this`from, this`xoff, this`fifo
      ensures Valid() && current.Some? && pending == old(pending)
      ensures FifoOut(old(Model()), len) == (Model(), left)
    {
      hide Valid, FromFifo, Contents;
      RingTaken();
      left := len;
      while left > 0 && fifo != []
        invariant Valid() && current.Some? && Model().current.Some? && pending == old(pending)
        invariant FifoOut(Model(), left) == FifoOut(old(Model()), len)
        decreases left
      {
        RingIs();
        ghost var s := Model();
        var b := ReadByte();
        assert [b] + fifo == s.fifo;
        if sw && (b == XOFF || b == XON) {
          Obey(b);
        } else {
          GiveByte(b);
        }
        RingTaken();
        left := left - 1;
      }
      RingIs();
    }

    /** The next reader, if any, is the current one. */
    method NextRead()
      requires Valid()
      modifies this`current, this`pending
      ensures Valid() && Model() == NextReader(old(Model()))
      ensures if old(pending) == [] then pending == [] && current.None? else |pending| < old(|pending|)
    {
      hide Contents;
      current := None;
      if pending != [] {
        current, pending := Some(Read(pending[0], [])), pending[1..];
      }
    }

    method CompleteRead()
      requires Valid() && current.Some?
      modifies this`current, this`pending, this`completed
      ensures Valid() && Model() == Completed(old(Model()))
      ensures if old(pending) == [] then pending == [] && current.None? else |pending| < old(|pending|)
    {
      hide Contents;
      completed := completed + [current.value];
      NextRead();
    }

    method DrainInputFIFO()
      requires Valid()
      modifies this, ovflBuffer
      ensures Valid() && Model() == Drain(old(Model()))
    {
      hide Valid, Contents, NextReader, Completed, Overflow, RingOut, FifoOut;
      while true
        invariant Valid() && Drain(Model()) == Drain(old(Model()))
        decreases |pending|, if current.Some? then 1 else 0
      {
        RingTaken();
        if current.None? {
          if pending == [] {
            HandleOverflow();
            return;
          }
          NextRead();
        } else {
          var c := current.value;
          var len := DrainRing(if c.len > |c.got| then c.len - |c.got| else 0);
          RingTaken();
          len := DrainFIFO(len);
          RingTaken();
          if len > 0 {
            return;
          }
          CompleteRead();
        }
        RingTaken();
      }
    }

    method CmdStreamRead(len: nat)
      requires Valid()
      modifies this, ovflBuffer
      ensures Valid() && Model() == Step(old(Model()), ReadAsked(len))
    {
      hide Contents, Drain;
      if len == 0 {
        return;
      }
      pending := pending + [len];
      DrainInputFIFO();
    }

    method IntHandler()
      requires Valid()
      modifies this, ovflBuffer
      ensures Valid() && Model() == Step(old(Model()), Interrupt)
    {
      DrainInputFIFO();
    }
  }

  lemma Oldest(buf: seq<int>, start: nat, amount: nat)
    requires |buf| > 0 && amount > 0 && start < WORD
    ensures Contents(buf, start, amount)[0] == buf[start % |buf|]
  {
  }
}
