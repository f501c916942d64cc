/** The bs* fields of VCDOPT_INFO: a 32-bit register fed byte by byte from the buffer in hand. */
module BitReaders {
  import opened Bits
  import opened StartCodes

  /** The byte written over s[i..i + n] in a bit sequence. */
  function Splice(s: seq<bool>, i: nat, v: seq<bool>): (r: seq<bool>)
    requires i + |v| <= |s|
    ensures |r| == |s|
  {
    s[..i] + v + s[i + |v|..]
  }

  class BitReader {
    var buffer: array<byte>   // bsBuffer; the bytes before bsPtr are loaded, bsLen remain
    var bsPtr: nat
    var bsLen: nat
    var bsDone: bool
    var bsBits: nat           // valid bits in bsData, left-justified
    var bsData: nat           // unsigned 32-bit register

    ghost var reg: seq<bool>  // the valid bits of bsData
    ghost var used: seq<bool> // bits consumed since the buffer was attached
    ghost var front: nat      // bits left over from earlier buffers when it was attached

    ghost function Unread(): (u: seq<bool>)
      reads this, buffer
    {
      reg + if bsPtr <= buffer.Length then BytesBits(buffer[bsPtr..]) else []
    }

    /** Every bit since the attach: left-overs of the previous buffer, then the buffer. */
    ghost function Full(): (f: seq<bool>)
      reads this, buffer
    {
      used + Unread()
    }

    ghost predicate Register()
      reads this
    {
      bsBits == |reg| && Msb(bsData, reg)
    }

    ghost predicate Valid()
      reads this, buffer
    {
      && bsPtr + bsLen == buffer.Length
      && Register()
      && front <= |Full()|
      && Full()[front..] == BytesBits(buffer[..])
    }

    constructor ()
      ensures Valid() && Unread() == [] && !bsDone
      ensures fresh(buffer)
    {
      buffer := new byte[0];
      bsPtr, bsLen, bsDone, bsBits, bsData := 0, 0, false, 0, 0;
      reg, used, front := [], [], 0;
      ZeroBits(32);
    }

    /** DoVCDOptimize: new buffer pointers and length; the register keeps its bits. */
    method Attach(bsBuffer: array<byte>)
      requires Valid()
      modifies this
      ensures Valid() && buffer == bsBuffer && !bsDone
      ensures used == [] && reg == old(reg) && front == |reg| && bsBits == old(bsBits)
      ensures Unread() == old(reg) + BytesBits(bsBuffer[..])
    {
      buffer, bsPtr, bsLen, bsDone := bsBuffer, 0, bsBuffer.Length, false;
      used, front := [], |reg|;
      assert buffer[0..] == buffer[..];
    }

    /** bsData <<= 8; bsData |= *bsPtr++ on the right-justified register. */
    method LoadByte()
      requires bsPtr + bsLen == buffer.Length && bsLen > 0
      requires bsBits == |reg| <= 24 && Lsb(bsData, reg)
      modifies this`bsData, this`bsBits, this`bsPtr, this`bsLen, this`reg
      ensures bsPtr + bsLen == buffer.Length && bsLen == old(bsLen) - 1
      ensures bsBits == |reg| == old(bsBits) + 8 && Lsb(bsData, reg)
      ensures Unread() == old(Unread())
    {
      RegisterLoad(bsData, reg, buffer[bsPtr]);
      UnreadLoad(reg, buffer[..], bsPtr);
      assert buffer[..][bsPtr..] == buffer[bsPtr..] && buffer[..][bsPtr + 1..] == buffer[bsPtr + 1..];
      bsData := Or(Shl(bsData, 8), buffer[bsPtr] as nat);
      reg := reg + BitsOf(buffer[bsPtr] as nat, 8);
      bsPtr := bsPtr + 1;
      bsBits := bsBits + 8;
      bsLen := bsLen - 1;
    }

    /** bsData >>= 32 - bsBits */
    method RightJustify()
      requires Register() && bsPtr <= buffer.Length
      modifies this`bsData
      ensures Lsb(bsData, reg) && Full() == old(Full()) && Unread() == old(Unread())
    {
      RegisterToLsb(bsData, reg);
      bsData := Shr(bsData, 32 - bsBits);
    }

    /** bsData <<= 32 - bsBits */
    method LeftJustify()
      requires bsBits == |reg| && Lsb(bsData, reg) && bsPtr <= buffer.Length
      modifies this`bsData
      ensures Register() && Full() == old(Full()) && Unread() == old(Unread())
    {
      RegisterToMsb(bsData, reg);
      bsData := Shl(bsData, 32 - bsBits);
    }

    /** When the buffer is used up, all that is unread is in the register. */
    lemma AllInRegister()
      requires Valid() && bsLen == 0
      ensures reg == Unread()
    {
    }

    /** The refill loop shared by the three readers: 8 more bits until n are in the register. */
    method Refill(n: nat) returns (ok: bool)
      requires Valid() && bsBits < n <= 25
      modifies this`bsData, this`bsBits, this`bsPtr, this`bsLen, this`bsDone, this`reg
      ensures Valid() && Unread() == old(Unread())
      ensures ok <==> n <= |Unread()|
      ensures ok ==> n <= bsBits && bsDone == old(bsDone)
      ensures !ok ==> bsDone && reg == Unread() && bsLen == 0
      ensures bsLen <= old(bsLen)
    {
      hide BitsOf, Lsb, Msb, BytesBits;
      RightJustify();
      while bsBits < n && bsLen > 0
        invariant bsPtr + bsLen == buffer.Length
        invariant bsBits == |reg| && Lsb(bsData, reg)
        invariant Unread() == old(Unread()) && bsDone == old(bsDone) && bsLen <= old(bsLen)
        decreases bsLen
      {
        LoadByte();
      }
      LeftJustify();
      ok := bsBits >= n;
      bsDone := bsDone || !ok;
    }

    method NextBits(n: nat) returns (result: int)
      requires Valid() && n <= 25
      modifies this`bsData, this`bsBits, this`bsPtr, this`bsLen, this`bsDone, this`reg
      ensures Valid() && Unread() == old(Unread())
      ensures n <= |Unread()| ==> result == ValOf(Unread()[..n]) && bsDone == old(bsDone) && n <= |reg|
      ensures n > |Unread()| ==> result == -(|Unread()| + 1) && bsDone && reg == Unread() && bsLen == 0
      ensures bsLen <= old(bsLen)
    {
      if n > bsBits {
        var ok := Refill(n);
        if !ok {
          return -(bsBits + 1);
        }
      }
      result := Peek(n);
    }

    method SkipBits(n: nat) returns (result: int)
      requires Valid() && n <= 25
      modifies this`bsData, this`bsBits, this`bsPtr, this`bsLen, this`bsDone, this`reg, this`used
      ensures Valid()
      ensures n <= |old(Unread())| ==>
        && result == 0 && bsDone == old(bsDone)
        && Unread() == old(Unread())[n..] && used == old(used) + old(Unread())[..n]
      ensures n > |old(Unread())| ==>
        && result == -(|old(Unread())| + 1) && bsDone
        && Unread() == old(Unread()) && used == old(used)
      ensures bsLen <= old(bsLen)
    {
      result := NextBits(n);
      if result >= 0 {
        Drop(n);
        result := 0;
      }
    }

    method GetBits(n: nat) returns (result: int)
      requires Valid() && n <= 25
      modifies this`bsData, this`bsBits, this`bsPtr, this`bsLen, this`bsDone, this`reg, this`used
      ensures Valid()
      ensures n <= |old(Unread())| ==>
        && result == ValOf(old(Unread())[..n]) && bsDone == old(bsDone)
        && Unread() == old(Unread())[n..] && used == old(used) + old(Unread())[..n]
      ensures n > |old(Unread())| ==>
        && result == -(|old(Unread())| + 1) && bsDone
        && Unread() == old(Unread()) && used == old(used)
      ensures bsLen <= old(bsLen)
    {
      result := NextBits(n);
      if result >= 0 {
        Drop(n);
      }
    }

    /** VCDNextStartCode: the xx of the next byte-aligned 00 00 01 xx, or -(numbits + 1). */
    method NextStartCode() returns (result: int)
      requires Valid()
      modifies this`bsData, this`bsBits, this`bsPtr, this`bsLen, this`bsDone, this`reg, this`used
      ensures Valid() && Full() == old(Full())
      ensures var r := NextStart(old(Unread()));
              && |used| == |old(used)| + r.Len() && bsDone == (old(bsDone) || r.Exhausted?)
              && (r.Found? ==> result == ValOf(old(Unread())[r.at + 24..r.Len()]))
              && (r.Found? <==> result >= 0)
      ensures result < 0 ==> result == -(|Unread()| + 1) && bsLen == 0
    {
      ghost var e, u := |used|, Unread();
      Align();
      result := SearchAligned(e, u);
    }

    /** Align to the next byte boundary. */
    method Align()
      requires Valid()
      modifies this`bsData, this`bsBits, this`reg, this`used
      ensures Valid() && Full() == old(Full()) && bsDone == old(bsDone)
      ensures bsBits % 8 == 0 && |used| == |old(used)| + |old(Unread())| % 8
    {
      hide BitsOf, Msb, BytesBits;
      var oddbits := bsBits % 8;
      OddBits();
      Drop(oddbits);
    }

    lemma OddBits()
      requires Valid()
      ensures |Unread()| % 8 == bsBits % 8
    {
      assert |Unread()| == bsBits + 8 * (buffer.Length - bsPtr);
    }

    /** The search proper, from the first byte boundary in the bits u that began at bit e. */
    method SearchAligned(ghost e: nat, ghost u: seq<bool>) returns (result: int)
      requires Valid() && bsBits % 8 == 0 && |used| == e + |u| % 8 && u == Full()[e..]
      modifies this`bsData, this`bsBits, this`bsPtr, this`bsLen, this`bsDone, this`reg, this`used
      ensures Valid() && Full() == old(Full())
      ensures var r := NextStart(u);
              && |used| == e + r.Len() && bsDone == (old(bsDone) || r.Exhausted?)
              && (r.Found? ==> result == ValOf(u[r.at + 24..r.Len()]))
              && (r.Found? <==> result >= 0)
      ensures result < 0 ==> result == -(|Unread()| + 1) && bsLen == 0
    {
      hide BitsOf, Msb, Lsb, BytesBits, Scan, NextStart;
      RightJustify();
      result := SearchRight(e, u);
      LeftJustify();
      if result < 0 {
        Stop();
        result := -(bsBits + 1);
      }
    }

    /** The same on the right-justified register, but for bsDone and the error code. */
    method SearchRight(ghost e: nat, ghost u: seq<bool>) returns (result: int)
      requires Aligned() && |used| == e + |u| % 8 && e <= |Full()| && u == Full()[e..]
      modifies this`bsData, this`bsBits, this`bsPtr, this`bsLen, this`reg, this`used
      ensures Aligned() && Full() == old(Full()) && |used| == e + NextStart(u).Len()
      ensures NextStart(u).Found? <==> result >= 0
      ensures NextStart(u).Found? ==> result == ValOf(u[NextStart(u).at + 24..NextStart(u).Len()])
      ensures result < 0 ==> reg == Unread() && bsLen == 0
    {
      hide BitsOf, Lsb, Scan, NextStart, FoundAt, SearchedTo;
      result := SearchWords();
      SearchEnd(Full(), e, u, |used|, result);
    }

    /** Loads words and shifts bytes off them until one is a start code or the buffer is empty. */
    method SearchWords() returns (result: int)
      requires Aligned()
      modifies this`bsData, this`bsBits, this`bsPtr, this`bsLen, this`reg, this`used
      ensures Aligned() && Full() == old(Full())
      ensures result >= 0 ==> FoundAt(Full(), |old(used)|, |used|, result)
      ensures result < 0 ==> SearchedTo(Full(), |old(used)|, |used|) && |Unread()| < 32 && reg == Unread() && bsLen == 0
    {
      hide BitsOf, Lsb, Scan, FoundAt, SearchedTo, BytesBits;
      var ok := LoadWord();
      result := -1;
      SearchFrom();
      while ok && result < 0
        invariant Aligned() && Full() == old(Full())
        invariant if ok then bsBits == 32 || result >= 0 else |Unread()| < 32 && reg == Unread() && bsLen == 0
        invariant if result < 0 then SearchedTo(Full(), |old(used)|, |used|)
                  else ok && FoundAt(Full(), |old(used)|, |used|, result)
        decreases ok, |Unread()|
      {
        result := TryWord(|old(used)|);
        if result < 0 {
          ok := LoadWord();
        }
      }
    }

    lemma SearchFrom()
      requires bsPtr <= buffer.Length
      ensures SearchedTo(Full(), |used|, |used|)
    {
    }

    /** One round of the search: a start code in the register, or some of its bytes shifted off. */
    method TryWord(ghost e: nat) returns (result: int)
      requires Aligned() && bsBits == 32 && SearchedTo(Full(), e, |used|)
      modifies this`bsData, this`bsBits, this`reg, this`used
      ensures Aligned() && Full() == old(Full()) && |Unread()| < |old(Unread())|
      ensures if result >= 0 then FoundAt(Full(), e, |used|, result) else SearchedTo(Full(), e, |used|)
    {
      hide Scan, FoundAt, SearchedTo, BytesBits, BitsOf;
      var w := BitsOf(bsData, 32);
      var k := if StartAt(w, 0) then 32 else SkipLen(w);
      assert k == 8 || k == 16 || k == 24 || k == 32;
      WordInHand(e);
      result := if StartAt(w, 0) then ValOf(w[24..]) else -1;
      ShiftOff(k);
      bsData := if StartAt(w, 0) then 0 else bsData;
    }

    /** bsBits -= k, leaving the bits in the word. */
    method ShiftOff(k: nat)
      requires Aligned() && k % 8 == 0 && k <= bsBits
      modifies this`bsBits, this`reg, this`used
      ensures Aligned() && Full() == old(Full()) && |used| == |old(used)| + k
    {
      hide Lsb, BytesBits;
      LsbDrop(bsData, reg, k);
      bsBits := bsBits - k;
      used, reg := used + reg[..k], reg[k..];
    }

    /** What the word in the register says about the search. */
    lemma WordInHand(e: nat)
      requires Aligned() && bsBits == 32 && SearchedTo(Full(), e, |used|)
      ensures var w := BitsOf(bsData, 32);
              if StartAt(w, 0) then FoundAt(Full(), e, |used| + 32, ValOf(w[24..]))
              else SearchedTo(Full(), e, |used| + SkipLen(w))
    {
      hide Scan, FoundAt, SearchedTo;
      var w := BitsOf(bsData, 32);
      assert w[0..] == w;
      SearchStep(Full(), e, |used|, w, BytesBits(buffer[bsPtr..]));
    }

    /** The register right-justified on a byte boundary, as NextStartCode keeps it. */
    ghost predicate Aligned()
      reads this, buffer
    {
      bsPtr + bsLen == buffer.Length && bsBits == |reg| <= 32 && bsBits % 8 == 0 && Lsb(bsData, reg)
    }

    /** Load up bsData with 4 bytes. */
    method LoadWord() returns (ok: bool)
      requires Aligned()
      modifies this`bsData, this`bsBits, this`bsPtr, this`bsLen, this`reg
      ensures Aligned() && Unread() == old(Unread())
      ensures ok <==> |Unread()| >= 32
      ensures if ok then bsBits == 32 else reg == Unread() && bsLen == 0
    {
      hide BitsOf, Lsb, BytesBits, Unread;
      while bsBits < 32 && bsLen > 0
        invariant Aligned() && Unread() == old(Unread())
        decreases bsLen
      {
        LoadByte();
      }
      ok := bsBits == 32;
      UnreadSize();
    }

    lemma UnreadSize()
      requires bsPtr <= buffer.Length
      ensures |Unread()| >= |reg| && (bsPtr == buffer.Length ==> Unread() == reg)
    {
    }

    /** VCDChangeBits: overwrites the last n consumed bits with value, in the buffer they came from.
        A byte address below the buffer is a left-over of an earlier one and is not modelled. */
    method ChangeBits(n: nat, value: nat)
      requires Valid() && n <= 8 && n <= |used| && value < 256
      modifies this`used, buffer
      ensures Valid() && Unread() == old(Unread())
      ensures used == old(used)[..|old(used)| - n] + BitsOf(value, n)
    {
      hide BitsOf, Msb, BytesBits, Splice;
      ghost var unread := buffer[bsPtr..];
      PatchBuffer(n, value);
      assert buffer[bsPtr..] == buffer[..][bsPtr..] == unread;
      PatchUsed(used, Unread(), n, BitsOf(value, n));
      used := used[..|used| - n] + BitsOf(value, n);
    }

    method PatchBuffer(n: nat, value: nat)
      requires Valid() && n <= 8 && n <= |used| && value < 256
      modifies buffer
      ensures unchanged(this)
      ensures Splice(old(Full()), |used| - n, BitsOf(value, n))[front..] == BytesBits(buffer[..])
      ensures buffer[..][bsPtr..] == old(buffer[bsPtr..])
    {
      hide BitsOf, Msb, BytesBits, Splice, PatchOne, PatchTwo;
      var chngPtr := bsPtr - 1 - bsBits / 8;
      Consumed();
      if n + bsBits % 8 > 8 {
        PatchTwoBits(buffer[..], Full(), front, chngPtr - 1, n, bsBits % 8, value, |used| - n);
        ChangeTwo(chngPtr - 1, n, value);
      } else {
        PatchOneBits(buffer[..], Full(), front, chngPtr, n, bsBits % 8, value, |used| - n);
        ChangeOne(chngPtr, n, value);
      }
    }

    lemma Consumed()
      requires Valid()
      ensures |Full()| == front + 8 * buffer.Length && |used| == front + 8 * bsPtr - bsBits
    {
      assert |BytesBits(buffer[bsPtr..])| == 8 * (buffer.Length - bsPtr);
    }

    /** The lowest address VCDChangeBits writes to is the one of the byte that holds the first of the n bits, counted
        from the front of the buffer: inside it exactly when the bits do not reach into what an earlier buffer left
        over, so always when the register was empty at the attach. */
    lemma InBuffer(n: nat)
      requires Valid() && 0 < n <= 8 && n <= |used|
      ensures var lowest := bsPtr - 1 - bsBits / 8 - (if n + bsBits % 8 > 8 then 1 else 0);
              && lowest == Down8(|used| - n - front) && lowest < buffer.Length
              && (lowest >= 0 <==> |used| - n >= front) && (front == 0 ==> lowest >= 0)
    {
      hide BytesBits;
      Consumed();
      DownExact(bsPtr, bsBits, n);
    }

    /** Straddles two bytes. */
    method ChangeTwo(chngPtr: int, n: nat, value: nat)
      requires n <= 8 && value < 256 && chngPtr + 1 < bsPtr <= buffer.Length
      modifies buffer
      ensures buffer[..] == PatchTwo(old(buffer[..]), chngPtr, n, bsBits % 8, value)
      ensures buffer[..][bsPtr..] == old(buffer[..][bsPtr..])
    {
      var data := Or(Shl(Load(buffer[..], chngPtr), 8), Load(buffer[..], chngPtr + 1));
      data := Patched(data, n, bsBits % 8, value);
      Poke(chngPtr, LowByte(Shr(data, 8)));
      Poke(chngPtr + 1, LowByte(data));
    }

    /** Contained in one byte. */
    method ChangeOne(chngPtr: int, n: nat, value: nat)
      requires n + bsBits % 8 <= 8 && value < 256 && chngPtr < bsPtr <= buffer.Length
      modifies buffer
      ensures buffer[..] == PatchOne(old(buffer[..]), chngPtr, n, bsBits % 8, value)
      ensures buffer[..][bsPtr..] == old(buffer[..][bsPtr..])
    {
      var data := Patched(Load(buffer[..], chngPtr), n, bsBits % 8, value);
      Poke(chngPtr, LowByte(data));
    }

    method Poke(i: int, x: byte)
      modifies buffer
      ensures buffer[..] == Store(old(buffer[..]), i, x)
    {
      if 0 <= i < buffer.Length {
        buffer[i] := x;
      }
    }

    /** bsDone = 1 */
    method Stop()
      requires Valid()
      modifies this`bsDone
      ensures Valid() && bsDone && Unread() == old(Unread()) && Full() == old(Full())
    {
      bsDone := true;
    }

    /** bsData >> (32 - n) */
    method Peek(n: nat) returns (result: nat)
      requires Valid() && n <= |reg|
      ensures result == ValOf(Unread()[..n])
    {
      RegisterTake(bsData, reg, n);
      assert Unread()[..n] == reg[..n];
      result := Shr(bsData, 32 - n);
    }

    /** bsBits -= n; bsData <<= n */
    method Drop(n: nat)
      requires Valid() && n <= |reg|
      modifies this`bsData, this`bsBits, this`reg, this`used
      ensures Valid()
      ensures Unread() == old(Unread())[n..] && used == old(used) + old(Unread())[..n] && Full() == old(Full())
    {
      hide BitsOf, BytesBits;
      RegisterDrop(bsData, reg, n);
      bsBits := bsBits - n;
      bsData := Shl(bsData, n);
      used, reg := used + reg[..n], reg[n..];
      assert Full() == old(Full());
    }
  }

  // ---- the search in progress ----

  /** No start code from bit e to bit p of f; the search goes on at p. */
  ghost predicate SearchedTo(f: seq<bool>, e: nat, p: nat)
  {
    e <= p <= |f| && Scan(f[e..]) == Scan(f[p..]).Shift(p - e)
  }

  /** The search from bit e has just consumed a start code ending at p. */
  ghost predicate FoundAt(f: seq<bool>, e: nat, p: nat, code: int)
  {
    e + 32 <= p <= |f| && Scan(f[e..]) == Found(p - 32 - e) && code == ValOf(f[p - 8..p])
  }

  lemma WordOfStream(u: seq<bool>, w: seq<bool>, rest: seq<bool>)
    requires |w| == 32 && u == w + rest
    ensures StartAt(w, 0) == StartAt(u, 0) && SkipLen(w) == SkipLen(u)
  {
  }

  lemma ScanOnce(u: seq<bool>)
    requires |u| >= 32
    ensures Scan(u) == if StartAt(u, 0) then Found(0) else Scan(u[SkipLen(u)..]).Shift(SkipLen(u))
  {
  }

  lemma SearchStep(f: seq<bool>, e: nat, p: nat, w: seq<bool>, rest: seq<bool>)
    requires SearchedTo(f, e, p) && f[p..] == w + rest && |w| == 32
    ensures if StartAt(w, 0) then FoundAt(f, e, p + 32, ValOf(w[24..])) else SearchedTo(f, e, p + SkipLen(w))
  {
    hide Scan, StartAt, SkipLen, ValOf;
    var u := f[p..];
    WordOfStream(u, w, rest);
    ScanOnce(u);
    assert w[24..] == u[24..32] == f[p + 24..p + 32];
    assert u[SkipLen(u)..] == f[p + SkipLen(u)..];
  }

  lemma SearchEnd(f: seq<bool>, e: nat, u: seq<bool>, p: nat, result: int)
    requires e <= |f| && u == f[e..] && p <= |f|
    requires result >= 0 ==> FoundAt(f, e + |u| % 8, p, result)
    requires result < 0 ==> SearchedTo(f, e + |u| % 8, p) && |f| - p < 32
    ensures var r := NextStart(u);
            && p == e + r.Len() && (r.Found? <==> result >= 0)
            && (r.Found? ==> result == ValOf(u[r.at + 24..r.Len()]))
  {
    hide ValOf;
    var odd := |u| % 8;
    assert f[e + odd..] == u[odd..];
    if result >= 0 { assert f[p - 8..p] == u[p - e - 8..p - e]; }
  }

  // ---- what a patch does to the buffer ----

  /** The byte a bit lies in, rounding down. */
  function Down8(p: int): (i: int)
    ensures 8 * i <= p < 8 * i + 8
  {
    if p >= 0 then p / 8 else -((7 - p) / 8)
  }

  lemma DownExact(ptr: nat, bits: nat, n: nat)
    requires 0 < n <= 8
    ensures Down8(8 * ptr - bits - n) == ptr - 1 - bits / 8 - (if n + bits % 8 > 8 then 1 else 0)
  {
  }

  /** The byte at an address, and the buffer after a store there; only the buffer's own bytes are modelled. */
  function Load(b: seq<byte>, i: int): nat
  {
    if 0 <= i < |b| then b[i] as nat else 0
  }

  function Store(b: seq<byte>, i: int, x: byte): (r: seq<byte>)
    ensures |r| == |b|
  {
    if 0 <= i < |b| then b[i := x] else b
  }

  function PatchOne(b: seq<byte>, c: int, n: nat, k: nat, value: nat): (r: seq<byte>)
    requires n + k <= 8 && value < 256
    ensures |r| == |b|
  {
    Store(b, c, LowByte(Patched(Load(b, c), n, k, value)))
  }

  function PatchTwo(b: seq<byte>, c: int, n: nat, k: nat, value: nat): (r: seq<byte>)
    requires n + k <= 16 && value < 256
    ensures |r| == |b|
  {
    var data := Patched(Or(Shl(Load(b, c), 8), Load(b, c + 1)), n, k, value);
    Store(Store(b, c, LowByte(Shr(data, 8))), c + 1, LowByte(data))
  }

  lemma OneByte(w: seq<bool>, x: seq<bool>, n: nat, k: nat, v: seq<bool>)
    requires n + k <= 8 && |v| == n && |x| == 8 && |w| == 32
    requires w == (Zeros(24) + x)[..32 - k - n] + v + (Zeros(24) + x)[32 - k..]
    ensures w[24..] == Splice(x, 8 - k - n, v)
  {
    assert w[24..] == x[..8 - k - n] + v + x[8 - k..];
  }

  /** n new bits inside a byte, k bits from its right edge. */
  lemma PatchedByte(x: byte, n: nat, k: nat, value: nat)
    requires n + k <= 8 && value < 256
    ensures BitsOf(LowByte(Patched(x as nat, n, k, value)) as nat, 8) ==
            Splice(BitsOf(x as nat, 8), 8 - k - n, BitsOf(value, n))
  {
    ByteBits(x);
    PatchedBits(x as nat, n, k, value);
    LowByteBits(Patched(x as nat, n, k, value));
    hide BitsOf, Patched, LowByte;
    OneByte(BitsOf(Patched(x as nat, n, k, value), 32), BitsOf(x as nat, 8), n, k, BitsOf(value, n));
  }

  // Where a splice falls in the part of a sequence from front on.

  lemma SpliceInside(f: seq<bool>, front: nat, lo: nat, hi: nat, i: nat, v: seq<bool>)
    requires front <= lo <= i && i + |v| <= hi <= |f|
    ensures Splice(f, i, v)[front..] ==
            f[front..][..lo - front] + Splice(f[front..][lo - front..hi - front], i - lo, v) + f[front..][hi - front..]
  {
    var g := f[front..];
    assert Splice(f, i, v)[front..] == f[front..i] + v + f[i + |v|..];
    assert f[front..i] == g[..lo - front] + g[lo - front..hi - front][..i - lo];
    assert f[i + |v|..] == g[lo - front..hi - front][i + |v| - lo..] + g[hi - front..];
  }

  lemma SpliceBefore(f: seq<bool>, front: nat, i: nat, v: seq<bool>)
    requires i + |v| <= front <= |f|
    ensures Splice(f, i, v)[front..] == f[front..]
  {
  }

  lemma SpliceAcross(f: seq<bool>, front: nat, i: nat, v: seq<bool>, x: seq<bool>, y: seq<bool>, j: nat)
    requires i < front <= |f| - 8 && front <= i + |v| <= front + 8 && |x| == |y| == 8 && y == f[front..][..8]
    requires j == i + 8 - front
    ensures Splice(f, i, v)[front..] == Splice(x + y, j, v)[8..] + f[front..][8..]
  {
    var l, r := Splice(f, i, v)[front..], Splice(x + y, j, v)[8..] + f[front..][8..];
    assert l == v[front - i..] + f[i + |v|..];
    assert Splice(x + y, j, v)[8..] == v[front - i..] + y[i + |v| - front..];
    assert f[i + |v|..] == y[i + |v| - front..] + f[front + 8..];
  }

  lemma PatchOneBits(b: seq<byte>, f: seq<bool>, front: nat, c: int, n: nat, k: nat, value: nat, at: nat)
    requires n + k <= 8 && value < 256 && c < |b|
    requires |f| == front + 8 * |b| && f[front..] == BytesBits(b)
    requires at + n == front + 8 * (c + 1) - k
    ensures Splice(f, at, BitsOf(value, n))[front..] == BytesBits(PatchOne(b, c, n, k, value))
  {
    hide BitsOf, BytesBits, Splice, Patched, LowByte;
    var i := at;
    var v := BitsOf(value, n);
    if c >= 0 {
      ByteAt(b, c);
      PatchedByte(b[c], n, k, value);
      BytesUpdate(b, c, LowByte(Patched(b[c] as nat, n, k, value)));
      SpliceInside(f, front, front + 8 * c, front + 8 * c + 8, i, v);
    } else {
      SpliceBefore(f, front, i, v);
    }
  }

  /** n new bits across two bytes, k bits from the right edge of the second. */
  lemma PatchedTwo(x: nat, y: nat, n: nat, k: nat, value: nat)
    requires x < 256 && y < 256 && n + k <= 16 && value < 256
    ensures var data := Patched(Or(Shl(x, 8), y), n, k, value);
            BitsOf(LowByte(Shr(data, 8)) as nat, 8) + BitsOf(LowByte(data) as nat, 8) ==
            Splice(BitsOf(x, 8) + BitsOf(y, 8), 16 - k - n, BitsOf(value, n))
  {
    hide BitsOf, Shl, Or, Patched, LowByte, Splice;
    WordOfTwo(x, y);
    var d := Or(Shl(x, 8), y);
    PatchedBits(d, n, k, value);
    var p := Patched(d, n, k, value);
    SplitWord(p);
    TwoBytes(BitsOf(p, 32), BitsOf(d, 32), BitsOf(x, 8) + BitsOf(y, 8), n, k, BitsOf(value, n));
  }

  lemma SplitWord(p: nat)
    requires p < WORD
    ensures BitsOf(LowByte(Shr(p, 8)) as nat, 8) + BitsOf(LowByte(p) as nat, 8) == BitsOf(p, 32)[16..]
  {
    ShrBits(p, 8);
    LowByteBits(Shr(p, 8));
    LowByteBits(p);
  }

  lemma TwoBytes(w: seq<bool>, d: seq<bool>, g: seq<bool>, n: nat, k: nat, v: seq<bool>)
    requires n + k <= 16 && |v| == n && |w| == |d| == 32 && |g| == 16
    requires d == Zeros(16) + g && w == d[..32 - k - n] + v + d[32 - k..]
    ensures w[16..] == Splice(g, 16 - k - n, v)
  {
    assert d[16..] == g;
    assert w[16..] == d[16..32 - k - n] + v + d[32 - k..];
  }

  lemma StoreBits(b: seq<byte>, c: int, hi: byte, lo: byte)
    requires -1 <= c < |b| - 1
    ensures var g, w, b' := BytesBits(b), BitsOf(hi as nat, 8) + BitsOf(lo as nat, 8), Store(Store(b, c, hi), c + 1, lo);
            BytesBits(b') == if c >= 0 then g[..8 * c] + w + g[8 * c + 16..] else w[8..] + g[8..]
  {
    hide BitsOf, BytesBits;
    var b' := Store(b, c, hi);
    if c >= 0 { BytesUpdate(b, c, hi); }
    BytesUpdate(b', c + 1, lo);
  }

  lemma PatchTwoBits(b: seq<byte>, f: seq<bool>, front: nat, c: int, n: nat, k: nat, value: nat, at: nat)
    requires 8 < n + k <= 16 && n <= 8 && k < 8 && value < 256 && c + 1 < |b|
    requires |f| == front + 8 * |b| && f[front..] == BytesBits(b)
    requires at + n == front + 8 * (c + 2) - k
    ensures Splice(f, at, BitsOf(value, n))[front..] == BytesBits(PatchTwo(b, c, n, k, value))
  {
    var x, y := Load(b, c), Load(b, c + 1);
    PatchedTwo(x, y, n, k, value);
    var p := Patched(Or(Shl(x, 8), y), n, k, value);
    StoreTwo(b, f, front, c, 16 - k - n, BitsOf(value, n), LowByte(Shr(p, 8)), LowByte(p));
  }

  lemma StoreTwo(b: seq<byte>, f: seq<bool>, front: nat, c: int, j: nat, v: seq<bool>, hi: byte, lo: byte)
    requires c + 1 < |b| && |f| == front + 8 * |b| && f[front..] == BytesBits(b)
    requires j < 8 < j + |v| <= 16 && 0 <= front + 8 * c + j
    requires BitsOf(hi as nat, 8) + BitsOf(lo as nat, 8) == Splice(BitsOf(Load(b, c), 8) + BitsOf(Load(b, c + 1), 8), j, v)
    ensures Splice(f, front + 8 * c + j, v)[front..] == BytesBits(Store(Store(b, c, hi), c + 1, lo))
  {
    hide BitsOf, BytesBits, Splice;
    if c >= 0 {
      StoreInside(b, f, front, c, j, v, hi, lo);
    } else if c == -1 {
      StoreBits(b, c, hi, lo);
      ByteAt(b, 0);
      SpliceAcross(f, front, front + 8 * c + j, v, BitsOf(Load(b, c), 8), BitsOf(Load(b, c + 1), 8), j);
    } else {
      SpliceBefore(f, front, front + 8 * c + j, v);
    }
  }

  lemma StoreInside(b: seq<byte>, f: seq<bool>, front: nat, c: nat, j: nat, v: seq<bool>, hi: byte, lo: byte)
    requires c + 1 < |b| && |f| == front + 8 * |b| && f[front..] == BytesBits(b) && j + |v| <= 16
    requires BitsOf(hi as nat, 8) + BitsOf(lo as nat, 8) == Splice(BitsOf(b[c] as nat, 8) + BitsOf(b[c + 1] as nat, 8), j, v)
    ensures Splice(f, front + 8 * c + j, v)[front..] == BytesBits(Store(Store(b, c, hi), c + 1, lo))
  {
    hide BitsOf, BytesBits, Splice;
    StoreBits(b, c, hi, lo);
    WithinTwo(b, c);
    SpliceInside(f, front, front + 8 * c, front + 8 * c + 16, front + 8 * c + j, v);
    assert f[front..][8 * c..8 * c + 16] == BytesBits(b)[8 * c..8 * c + 16];
  }

  lemma WithinTwo(b: seq<byte>, c: nat)
    requires c + 1 < |b|
    ensures BytesBits(b)[8 * c..8 * c + 16] == BitsOf(b[c] as nat, 8) + BitsOf(b[c + 1] as nat, 8)
  {
    ByteAt(b, c);
    ByteAt(b, c + 1);
    Adjacent(BytesBits(b), 8 * c, BitsOf(b[c] as nat, 8), BitsOf(b[c + 1] as nat, 8));
  }

  lemma PatchUsed(used: seq<bool>, unread: seq<bool>, n: nat, v: seq<bool>)
    requires |v| == n <= |used|
    ensures used[..|used| - n] + v + unread == Splice(used + unread, |used| - n, v)
  {
  }

  lemma Adjacent(g: seq<bool>, i: nat, x: seq<bool>, y: seq<bool>)
    requires i + 16 <= |g| && g[i..i + 8] == x && g[i + 8..i + 16] == y
    ensures g[i..i + 16] == x + y
  {
  }

  lemma WordOfTwo(x: nat, y: nat)
    requires x < 256 && y < 256
    ensures Or(Shl(x, 8), y) < WORD
    ensures BitsOf(Or(Shl(x, 8), y), 32) == Zeros(16) + BitsOf(x, 8) + BitsOf(y, 8)
  {
    Pow2Values();
    ShortBits(x, 8, 24);
    ShortBits(y, 8, 24);
    ShlBits(x, 8);
    OrBits(Shl(x, 8), y, 32);
    OrWord(Shl(x, 8), y, 32);
    hide BitsOf, Or, Shl;
    Overlaid(BitsOf(x, 32), BitsOf(Or(Shl(x, 8), y), 32), BitsOf(x, 8), BitsOf(y, 8));
  }

  lemma Overlaid(d: seq<bool>, r: seq<bool>, x: seq<bool>, y: seq<bool>)
    requires |r| == 32 && |x| == |y| == 8 && d == Zeros(24) + x
    requires forall i :: 0 <= i < 32 ==> r[i] == ((d[8..] + Zeros(8))[i] || (Zeros(24) + y)[i])
    ensures r == Zeros(16) + x + y
  {
  }

  // ---- what the shifts do to the register ----

  ghost predicate Msb(data: nat, reg: seq<bool>)
  {
    |reg| <= 32 && data < WORD && BitsOf(data, 32) == reg + Zeros(32 - |reg|)
  }

  /** Right-justified; what is above the valid bits does not matter. */
  ghost predicate Lsb(data: nat, reg: seq<bool>)
  {
    |reg| <= 32 && data < WORD && BitsOf(data, 32)[32 - |reg|..] == reg
  }

  lemma LsbDrop(data: nat, reg: seq<bool>, k: nat)
    requires Lsb(data, reg) && k <= |reg|
    ensures Lsb(data, reg[k..])
  {
  }

  lemma RegisterToLsb(data: nat, reg: seq<bool>)
    requires Msb(data, reg)
    ensures Lsb(Shr(data, 32 - |reg|), reg)
  {
    ShrBits(data, 32 - |reg|);
  }

  lemma RegisterToMsb(data: nat, reg: seq<bool>)
    requires Lsb(data, reg)
    ensures Msb(Shl(data, 32 - |reg|), reg)
  {
    ShlBits(data, 32 - |reg|);
  }

  lemma RegisterLoad(data: nat, reg: seq<bool>, b: byte)
    requires Lsb(data, reg) && |reg| <= 24
    ensures Lsb(Or(Shl(data, 8), b as nat), reg + BitsOf(b as nat, 8))
  {
    var r := Or(Shl(data, 8), b as nat);
    ShlBits(data, 8);
    OrBits(Shl(data, 8), b as nat, 32);
    ByteBits(b);
    LoadedBits(BitsOf(data, 32), BitsOf(r, 32), BitsOf(b as nat, 8), reg);
    Pow2Values();
    OrWord(Shl(data, 8), b as nat, 32);
  }

  lemma LoadedBits(d: seq<bool>, r: seq<bool>, b: seq<bool>, reg: seq<bool>)
    requires |d| == |r| == 32 && |b| == 8 && |reg| <= 24 && d[32 - |reg|..] == reg
    requires forall i :: 0 <= i < 32 ==> r[i] == ((d[8..] + Zeros(8))[i] || (Zeros(24) + b)[i])
    ensures r[24 - |reg|..] == reg + b
  {
    assert r[24 - |reg|..24] == d[32 - |reg|..];
    assert r[24..] == b;
  }

  lemma UnreadLoad(reg: seq<bool>, s: seq<byte>, k: nat)
    requires k < |s|
    ensures reg + BytesBits(s[k..]) == reg + BitsOf(s[k] as nat, 8) + BytesBits(s[k + 1..])
  {
    assert s[k..][1..] == s[k + 1..];
  }

  lemma ByteBits(b: byte)
    ensures BitsOf(b as nat, 32) == Zeros(24) + BitsOf(b as nat, 8)
  {
    ShortBits(b as nat, 8, 24);
  }

  lemma RegisterTake(data: nat, reg: seq<bool>, n: nat)
    requires Msb(data, reg) && n <= |reg|
    ensures Shr(data, 32 - n) == ValOf(reg[..n])
  {
    ShrBits(data, 32 - n);
    assert BitsOf(data, 32)[..n] == reg[..n];
    WordBits(Shr(data, 32 - n), reg[..n]);
  }

  lemma RegisterDrop(data: nat, reg: seq<bool>, n: nat)
    requires Msb(data, reg) && n <= |reg|
    ensures Msb(Shl(data, n), reg[n..])
  {
    ShlBits(data, n);
  }
}
