/** VCDOPT_INFO with InitVCDOptimize, VCDCheckQuant and DoVCDOptimize: the parser run in place over a buffer. */
module VcdOptimizers {
  import opened Bits
  import opened StartCodes
  import opened VlcCodes
  import opened Parser
  import opened Runs
  import opened Rewriting
  import opened Reparsing
  import opened Resuming
  import opened BitReaders

  // ---- InitVCDOptimize ----

  /** The least entry of a quantizer matrix, 255 at most. */
  method LeastEntry(matrix: seq<nat>) returns (least: nat)
    ensures least <= 255 && (least == 255 || least in matrix)
    ensures forall i :: 0 <= i < |matrix| ==> least <= matrix[i] || matrix[i] > 255
  {
    least := 255;
    for i := 0 to |matrix|
      invariant least <= 255 && (least == 255 || least in matrix)
      invariant forall j :: 0 <= j < i ==> least <= matrix[j] || matrix[j] > 255
    {
      if matrix[i] < least {
        least := matrix[i];
      }
    }
  }

  // ---- VCDCheckQuant ----

  lemma ThresholdsStep(matrix: seq<nat>, scale: nat, i: nat)
    requires scale > 0 && i < |matrix| && NonZero(matrix)
    ensures Thresholds(matrix[..i + 1], scale) == Thresholds(matrix[..i], scale) + [Threshold(matrix[i], scale)]
  {
    assert matrix[..i + 1][..i] == matrix[..i];
  }

  lemma LastPositiveStep(t: seq<nat>, x: nat)
    ensures LastPositive(t + [x]) == if x > 0 then |t| else LastPositive(t)
  {
    assert (t + [x])[..|t|] == t;
  }

  /** A level threshold table, and the last index to worry about. */
  method LevelTable(matrix: seq<nat>, scale: nat) returns (thresh: seq<nat>, minIndex: nat)
    requires scale > 0 && NonZero(matrix)
    ensures thresh == Thresholds(matrix, scale) && minIndex == LastPositive(thresh)
  {
    thresh, minIndex := [], 0;
    for i := 0 to |matrix|
      invariant thresh == Thresholds(matrix[..i], scale) && minIndex == LastPositive(thresh)
    {
      ThresholdsStep(matrix, scale, i);
      var t := Threshold(matrix[i], scale);
      LastPositiveStep(thresh, t);
      thresh := thresh + [t];
      if t > 0 {
        minIndex := i;
      }
    }
    assert matrix[..|matrix|] == matrix;
  }

  method VCDCheckQuant(c: Config, q: Quantizer, scale: nat) returns (r: Quantizer)
    requires Usable(c) && Tables(q) && scale > 0
    ensures r == CheckQuant(c, q, scale)
  {
    r := q.(scale := scale);
    if c.okIntraMatrix || scale * c.minIntraQuant >= 8 {
      r := r.(okIntra := true);
    } else {
      var t, i := LevelTable(c.intraMatrix, scale);
      r := r.(okIntra := false, intraThresh := t, minIntraIndex := i);
    }
    if c.okNonIntraMatrix || scale * c.minNonIntraQuant >= 8 {
      r := r.(okNonIntra := true);
    } else {
      var t, i := LevelTable(c.nonIntraMatrix, scale);
      r := r.(okNonIntra := false, nonIntraThresh := t, minNonIntraIndex := i);
    }
  }

  // ---- what a look-ahead of n bits tells ----

  lemma HeaderPrefix(c: Config, u: seq<bool>, w: seq<bool>)
    requires |w| <= |u| && w == u[..|w|]
    ensures |w| >= 11 ==> AddressCode(w) == AddressCode(u)
    ensures |w| >= 11 ==> MotionCode(w) == MotionCode(u)
    ensures |w| >= 9 ==> PatternCode(w) == PatternCode(u)
    ensures |w| >= 6 ==> TypeCode(c.picture, w) == TypeCode(c.picture, u)
  {
  }

  lemma SizePrefix(u: seq<bool>, w: seq<bool>)
    requires |w| <= |u| && w == u[..|w|]
    ensures |w| >= 7 ==> LumaDcSize(w) == LumaDcSize(u)
    ensures |w| >= 8 ==> ChromaDcSize(w) == ChromaDcSize(u)
  {
  }

  lemma SliceMove(s: Parse, u: seq<bool>, code: int, m: Move, len: nat)
    requires Saved(s) && m == SliceStartMove(s, u) && len == NextStart(u).Len()
    requires var r := NextStart(u); if r.Found? then code == ValOf(u[r.at + 24..r.Len()]) else code < 0
    ensures m.used == len && m.done == !(FIRST_SLICE_START_CODE <= code <= LAST_SLICE_START_CODE)
  {
  }

  lemma WholePrefix(u: seq<bool>, n: nat)
    requires n <= |u|
    ensures u[..n] + [] == u[..n]
  {
  }

  lemma Consumed(before: seq<bool>, after: seq<bool>, u: seq<bool>, rest: seq<bool>, n: nat)
    requires after + rest == before + u && |after| == |before| + n && n <= |u|
    ensures rest == u[n..] && after == before + u[..n]
  {
    assert (after + rest)[..|after|] == after && (after + rest)[|after|..] == rest;
    assert (before + u)[..|before| + n] == before + u[..n];
  }

  lemma EditValue(v: seq<bool>)
    requires |v| <= 8
    ensures ValOf(v) < 256
  {
    BitsVal(v);
    Pow2Values();
    if |v| < 8 { Pow2Less(|v|, 8); }
  }

  lemma WrittenLast(before: seq<bool>, m: Move, u: seq<bool>)
    requires Proper(m, u)
    ensures var x := before + u[..m.used]; x[..|x| - |m.edit|] + m.edit == before + Written(m, u)
  {
  }

  lemma LongerBits(u: seq<bool>, w: seq<bool>)
    requires |w| <= |u| && w == u[..|w|]
    ensures |w| >= 9 ==> NineBits(w) == NineBits(u)
    ensures |w| >= 8 ==> EightBits(w) == EightBits(u)
    ensures |w| >= 7 ==> SevenBits(w) == SevenBits(u)
  {
  }

  lemma CodeLen1(u: seq<bool>, first: bool)
    ensures CheckStage1(u, first).Coef? ==> CheckStage1(u, first).len <= 9
  {
  }

  lemma CodeLen2(u: seq<bool>)
    ensures CheckStage2(u).Coef? ==> CheckStage2(u).len <= 11
  {
  }

  lemma WholeBits(u: seq<bool>, n: nat)
    requires n == |u|
    ensures u[..n] == u && BitsOf(ValOf(u), n) == u
  {
    BitsVal(u);
  }

  lemma HeaderBounds(c: Config, s: Parse, u: seq<bool>)
    requires Usable(c) && Saved(s) && !s.state.SliceStart? && !InBlock(s.state)
    ensures Next(c, s, u).used <= 25 && Next(c, s, u).edit == []
  {
  }

  /** The states that compare levels with thresholds. */
  function CheckMove(c: Config, s: Parse, u: seq<bool>): Move
    requires Saved(s) && Checking(s.state)
  {
    match s.state
    case RlpCheckStage1 => CheckStage1Move(c, s, u)
    case RlpCheckStage2 => CheckStage2Move(c, s, u)
    case RlpCheckEscape => EscapeMove(c, s, u)
    case RlpCheckEscape2 => Escape2Move(c, s, u)
  }

  /** The other states of a block. */
  function BlockMove(s: Parse, u: seq<bool>): Move
    requires Saved(s) && InBlock(s.state) && !Checking(s.state)
  {
    match s.state
    case DcSize => DcSizeMove(s, u)
    case DcDiff => DcDiffMove(s, u)
    case RlpOkStage1 => OkStage1Move(s, u)
    case RlpOkStage2 => OkStage2Move(s, u)
    case RlpOkEscape => OkEscapeMove(s, u)
  }

  lemma BlockBounds(c: Config, s: Parse, u: seq<bool>)
    requires Usable(c) && Saved(s) && InBlock(s.state) && !Checking(s.state)
    ensures Next(c, s, u) == BlockMove(s, u) && BlockMove(s, u).used <= 25 && BlockMove(s, u).edit == []
  {
  }

  lemma CheckBounds(c: Config, s: Parse, u: seq<bool>)
    requires Usable(c) && Saved(s) && Checking(s.state)
    ensures Next(c, s, u) == CheckMove(c, s, u) && CheckMove(c, s, u).used <= 25 && |CheckMove(c, s, u).edit| <= 8
  {
    CheckMoveBounds(c, s, u);
  }

  lemma CheckMoveBounds(c: Config, s: Parse, u: seq<bool>)
    requires Saved(s) && Checking(s.state)
    ensures CheckMove(c, s, u).used <= 25 && |CheckMove(c, s, u).edit| <= 8
  {
    CodeLen1(u, s.b.coefFirst);
    CodeLen2(u);
  }

  /** How far a run from s0 over u0 has come: its output is what has been used and what is still to come. */
  ghost predicate Underway(next: Stepper, s0: Parse, u0: seq<bool>, s: Parse, used: seq<bool>, u: seq<bool>, done: bool)
    requires Lawful(next) && Saved(s0)
  {
    && Saved(s)
    && Rewrite(next, s0, u0) == used + (if done then u else Rewrite(next, s, u))
    && End(next, s0, u0) == (if done then (s, u) else End(next, s, u))
    && (RunsDry(next, s0, u0) && !done ==> RunsDry(next, s, u))
  }

  lemma UnderwayStep(next: Stepper, s0: Parse, u0: seq<bool>, s: Parse, used: seq<bool>, u: seq<bool>, m: Move)
    requires Lawful(next) && Saved(s0) && Underway(next, s0, u0, s, used, u, false) && m == next(s, u)
    ensures Underway(next, s0, u0, m.s, used + Written(m, u), u[m.used..], m.done)
    ensures m.done || |u[m.used..]| < |u| || (m.used == 0 && Rank(m.s.state) < Rank(s.state))
    ensures RunsDry(next, s0, u0) && m.done ==> Starved(s, u, m)
  {
  }

  class VcdOptimizer {
    const c: Config
    const bs: BitReader
    var s: Parse

    ghost predicate Valid()
      reads this, bs, bs.buffer
    {
      bs.Valid() && Saved(s)
    }

    /** Nothing read so far; the fields other than the state are not yet meaningful. */
    constructor (intra: seq<nat>, nonIntra: seq<nat>, forwardFCode: nat, backwardFCode: nat, picture: PictureType,
                 beyond: nat -> nat, garbage: Parse)
      requires |intra| == |nonIntra| == 64 && 1 <= forwardFCode <= 7 && 1 <= backwardFCode <= 7
      requires forall i :: 0 <= i < 64 ==> intra[i] <= 255 && nonIntra[i] <= 255
      requires Tables(garbage.q) && garbage.b.dcSize <= 8
      ensures Valid() && fresh(bs) && fresh(bs.buffer) && bs.Unread() == [] && s == garbage.(state := SliceStart)
      ensures c.intraMatrix == intra && c.nonIntraMatrix == nonIntra && c.picture == picture && c.beyond == beyond
      ensures c.forwardRSize == forwardFCode - 1 && c.backwardRSize == backwardFCode - 1
      ensures Usable(c) <==> forall i :: 0 <= i < 64 ==> intra[i] > 0 && nonIntra[i] > 0
    {
      var least := LeastEntry(intra);
      var leastNon := LeastEntry(nonIntra);
      c := Config(picture, intra, nonIntra, forwardFCode - 1, backwardFCode - 1, least, leastNon,
                  least >= 8, leastNon >= 8, beyond);
      bs := new BitReader();
      s := garbage.(state := SliceStart);
    }

    /** VCDNextBits as a look-ahead. */
    method Look(n: nat) returns (ok: bool, w: seq<bool>)
      requires bs.Valid() && n <= 25 && !bs.bsDone
      modifies bs`bsData, bs`bsBits, bs`bsPtr, bs`bsLen, bs`bsDone, bs`reg
      ensures bs.Valid() && bs.Unread() == old(bs.Unread())
      ensures ok == (n <= |bs.Unread()|) == !bs.bsDone
      ensures bs.bsDone ==> bs.bsLen == 0
      ensures ok ==> w == bs.Unread()[..n]
    {
      hide BitReader.Valid, BitReader.Unread;
      var value := bs.NextBits(n);
      ok, w := value >= 0, [];
      if ok {
        BitsVal(bs.Unread()[..n]);
        w := BitsOf(value, n);
      }
    }

    /** What a step leaves: m carried out on the bits that were unread. */
    twostate predicate Took(m: Move, u: seq<bool>)
      requires Proper(m, u)
      reads this, bs, bs.buffer
    {
      && bs.Valid() && s == m.s && bs.bsDone == m.done
      && bs.Unread() == u[m.used..] && bs.used == old(bs.used) + Written(m, u)
    }

    /** Consumes the bits of a step and overwrites the last of them. */
    method Take(m: Move)
      requires bs.Valid() && Proper(m, bs.Unread()) && m.used <= 25 && |m.edit| <= 8 && bs.bsDone == m.done
      modifies this`s, bs`bsData, bs`bsBits, bs`bsPtr, bs`bsLen, bs`bsDone, bs`reg, bs`used, bs.buffer
      ensures Took(m, old(bs.Unread())) && bs.bsLen <= old(bs.bsLen)
    {
      hide BitReader.Valid, BitReader.Unread;
      ghost var u, before := bs.Unread(), bs.used;
      s := m.s;
      var r := bs.SkipBits(m.used);
      Overwrite(m.edit);
      WrittenLast(before, m, u);
      assert bs.used == before + Written(m, u);
    }

    method Overwrite(edit: seq<bool>)
      requires bs.Valid() && |edit| <= 8 && |edit| <= |bs.used|
      modifies bs`used, bs.buffer
      ensures bs.Valid() && bs.Unread() == old(bs.Unread())
      ensures bs.used == old(bs.used)[..|old(bs.used)| - |edit|] + edit
    {
      hide BitReader.Valid, BitReader.Unread;
      if edit != [] {
        BitsVal(edit);
        EditValue(edit);
        bs.ChangeBits(|edit|, ValOf(edit));
      }
    }

    // ---- one state each ----

    /** VCDNextStartCode consumes as it goes. */
    method SliceStartStep() returns (ghost m: Move)
      requires Valid() && !bs.bsDone
      modifies this`s, bs`bsData, bs`bsBits, bs`bsPtr, bs`bsLen, bs`bsDone, bs`reg, bs`used
      ensures m == SliceStartMove(old(s), old(bs.Unread())) && Took(m, old(bs.Unread()))
      ensures NextStart(old(bs.Unread())).Exhausted? ==> bs.bsLen == 0
    {
      hide BitReader.Valid, BitReader.Unread;
      m := SliceStartMove(s, bs.Unread());
      WholePrefix(bs.Unread(), m.used);
      var slice := FindSlice();
      if slice {
        s := s.(state := SliceQuant);
      }
    }

    /** Runs past the next start code; no slice's ends the run. */
    method FindSlice() returns (slice: bool)
      requires Valid() && !bs.bsDone
      modifies bs`bsData, bs`bsBits, bs`bsPtr, bs`bsLen, bs`bsDone, bs`reg, bs`used
      ensures var u, m := old(bs.Unread()), SliceStartMove(s, old(bs.Unread()));
              && bs.Valid() && bs.Unread() == u[m.used..] && bs.used == old(bs.used) + u[..m.used]
              && bs.bsDone == m.done == !slice
      ensures NextStart(old(bs.Unread())).Exhausted? ==> bs.bsLen == 0
    {
      hide BitReader.Valid, BitReader.Unread;
      ghost var u, m := bs.Unread(), SliceStartMove(s, bs.Unread());
      var code := Search();
      slice := FIRST_SLICE_START_CODE <= code <= LAST_SLICE_START_CODE;
      SliceMove(s, u, code, m, NextStart(u).Len());
      if !slice {
        bs.Stop();
      }
    }

    method Search() returns (code: int)
      requires bs.Valid() && !bs.bsDone
      modifies bs`bsData, bs`bsBits, bs`bsPtr, bs`bsLen, bs`bsDone, bs`reg, bs`used
      ensures var u, r := old(bs.Unread()), NextStart(old(bs.Unread()));
              && bs.Valid() && bs.Unread() == u[r.Len()..] && bs.used == old(bs.used) + u[..r.Len()]
              && (if r.Found? then code == ValOf(u[r.at + 24..r.Len()]) else code < 0)
              && bs.bsDone == r.Exhausted?
      ensures bs.bsDone ==> bs.bsLen == 0
    {
      hide BitReader.Valid, BitReader.Unread;
      ghost var u, before := bs.Unread(), bs.used;
      code := bs.NextStartCode();
      Consumed(before, bs.used, u, bs.Unread(), NextStart(u).Len());
    }

    method QuantStep(next: State) returns (m: Move)
      requires Valid() && !bs.bsDone && Usable(c) && !InBlock(next) && !next.MacroblockRes?
      modifies bs`bsData, bs`bsBits, bs`bsPtr, bs`bsLen, bs`bsDone, bs`reg
      ensures bs.Valid() && bs.Unread() == old(bs.Unread()) && bs.bsDone == m.done
      ensures bs.bsDone ==> bs.bsLen == 0
      ensures m == QuantMove(c, s, bs.Unread(), next)
    {
      hide BitReader.Valid, BitReader.Unread;
      var ok, w := Look(5);
      if !ok {
        m := Stall(s);
      } else if ValOf(w) == 0 {
        m := Go(s.(q := s.q.(scale := 0)), 5, SliceStart);
      } else {
        var q := VCDCheckQuant(c, s.q, ValOf(w));
        m := Go(s.(q := q), 5, next);
      }
    }

    method ExtraStep() returns (m: Move)
      requires Valid() && !bs.bsDone && (s.state.SliceExtraFlag? || s.state.SliceExtraData?)
      modifies bs`bsData, bs`bsBits, bs`bsPtr, bs`bsLen, bs`bsDone, bs`reg
      ensures bs.Valid() && bs.Unread() == old(bs.Unread()) && bs.bsDone == m.done
      ensures bs.bsDone ==> bs.bsLen == 0
      ensures m == ExtraMove(s, bs.Unread())
    {
      hide BitReader.Valid, BitReader.Unread;
      var ok, w := Look(if s.state.SliceExtraFlag? then 1 else 8);
      if !ok {
        m := Stall(s);
      } else if s.state.SliceExtraData? {
        m := Go(s, 8, SliceExtraFlag);
      } else {
        m := Go(s, 1, if w[0] then SliceExtraData else MacroblockStart);
      }
    }

    method AddressStep() returns (m: Move)
      requires Valid() && !bs.bsDone
      modifies bs`bsData, bs`bsBits, bs`bsPtr, bs`bsLen, bs`bsDone, bs`reg
      ensures bs.Valid() && bs.Unread() == old(bs.Unread()) && bs.bsDone == m.done
      ensures bs.bsDone ==> bs.bsLen == 0
      ensures m == AddressMove(s, bs.Unread())
    {
      hide BitReader.Valid, BitReader.Unread;
      var ok, w := Look(11);
      if !ok { return Stall(s); }
      HeaderPrefix(c, bs.Unread(), w);
      match AddressCode(w)
      case Lost => m := Go(s, 0, SliceStart);
      case Code(len, a) => m := Go(s, len, if a.Again? then MacroblockStart else MacroblockType);
    }

    method TypeStep() returns (m: Move)
      requires Valid() && !bs.bsDone
      modifies bs`bsData, bs`bsBits, bs`bsPtr, bs`bsLen, bs`bsDone, bs`reg
      ensures bs.Valid() && bs.Unread() == old(bs.Unread()) && bs.bsDone == m.done
      ensures bs.bsDone ==> bs.bsLen == 0
      ensures m == TypeMove(c, s, bs.Unread())
    {
      hide BitReader.Valid, BitReader.Unread;
      var ok, w := Look(6);
      if !ok { return Stall(s); }
      HeaderPrefix(c, bs.Unread(), w);
      match TypeCode(c.picture, w)
      case Lost => m := Go(s, 0, SliceStart);
      case Code(len, kind) => m := Go(s.(mb := s.mb.(kind := kind)), len, MacroblockQuant);
    }

    method MacroblockQuantStep() returns (m: Move)
      requires Valid() && !bs.bsDone && Usable(c)
      modifies bs`bsData, bs`bsBits, bs`bsPtr, bs`bsLen, bs`bsDone, bs`reg
      ensures bs.Valid() && bs.Unread() == old(bs.Unread()) && bs.bsDone == m.done
      ensures bs.bsDone ==> bs.bsLen == 0
      ensures m == MacroblockQuantMove(c, s, bs.Unread())
    {
      hide BitReader.Valid, BitReader.Unread;
      if s.mb.kind.quant {
        m := QuantStep(MacroblockCode);
        if m.done || m.s.state.SliceStart? { return; }
      } else {
        m := Go(s, 0, MacroblockCode);
      }
      m := m.(s := m.s.(mb := Vectors(s.mb)));
    }

    method MotionStep() returns (m: Move)
      requires Valid() && !bs.bsDone
      modifies bs`bsData, bs`bsBits, bs`bsPtr, bs`bsLen, bs`bsDone, bs`reg
      ensures bs.Valid() && bs.Unread() == old(bs.Unread()) && bs.bsDone == m.done
      ensures bs.bsDone ==> bs.bsLen == 0
      ensures m == MotionMove(s, bs.Unread())
    {
      hide BitReader.Valid, BitReader.Unread;
      if s.mb.fvect == 0 && s.mb.bvect == 0 { return Go(s, 0, MacroblockPattern); }
      var ok, w := Look(11);
      if !ok { return Stall(s); }
      HeaderPrefix(c, bs.Unread(), w);
      match MotionCode(w)
      case Lost => m := Go(s, 0, SliceStart);
      case Code(len, residual) =>
        m := if residual then Go(s, len, MacroblockRes) else Go(s.(mb := DropVector(s.mb)), len, MacroblockCode);
    }

    method ResidualStep() returns (m: Move)
      requires Valid() && !bs.bsDone && Usable(c) && s.state.MacroblockRes?
      modifies bs`bsData, bs`bsBits, bs`bsPtr, bs`bsLen, bs`bsDone, bs`reg
      ensures bs.Valid() && bs.Unread() == old(bs.Unread()) && bs.bsDone == m.done
      ensures bs.bsDone ==> bs.bsLen == 0
      ensures m == ResidualMove(c, s, bs.Unread())
    {
      hide BitReader.Valid, BitReader.Unread;
      var size := if s.mb.fvect > 0 then c.forwardRSize else c.backwardRSize;
      var ok, w := Look(size);
      m := if ok then Go(s.(mb := DropVector(s.mb)), size, MacroblockCode) else Stall(s);
    }

    method PatternStep() returns (m: Move)
      requires Valid() && !bs.bsDone
      modifies bs`bsData, bs`bsBits, bs`bsPtr, bs`bsLen, bs`bsDone, bs`reg
      ensures bs.Valid() && bs.Unread() == old(bs.Unread()) && bs.bsDone == m.done
      ensures bs.bsDone ==> bs.bsLen == 0
      ensures m == PatternMove(s, bs.Unread())
    {
      hide BitReader.Valid, BitReader.Unread;
      if !s.mb.kind.pattern {
        var luma, chroma := if s.mb.kind.intra then 4 else 0, if s.mb.kind.intra then 2 else 0;
        return Go(s.(b := s.b.(luma := luma, chroma := chroma)), 0, BlockStart);
      }
      var ok, w := Look(9);
      if !ok { return Stall(s); }
      HeaderPrefix(c, bs.Unread(), w);
      match PatternCode(w)
      case Lost => m := Go(s, 0, SliceStart);
      case Code(len, n) => m := Go(s.(b := s.b.(luma := n.luma, chroma := n.chroma)), len, BlockStart);
    }

    method DcSizeStep() returns (m: Move)
      requires Valid() && !bs.bsDone && s.state.DcSize?
      modifies bs`bsData, bs`bsBits, bs`bsPtr, bs`bsLen, bs`bsDone, bs`reg
      ensures bs.Valid() && bs.Unread() == old(bs.Unread()) && bs.bsDone == m.done
      ensures bs.bsDone ==> bs.bsLen == 0
      ensures m == DcSizeMove(s, bs.Unread())
    {
      hide BitReader.Valid, BitReader.Unread;
      if !s.mb.kind.intra {
        var b := s.b.(coefFirst := true, intraTable := false, maxIndex := s.q.minNonIntraIndex);
        return if s.q.okNonIntra then Go(s.(b := b), 0, RlpOkStage1)
               else Go(s.(b := b.(coefIndex := 0)), 0, RlpCheckStage1);
      }
      var s1 := s.(b := s.b.(coefFirst := false, intraTable := true, maxIndex := s.q.minIntraIndex));
      var ok, w := Look(if s.b.luma > 0 then 7 else 8);
      if !ok { return Stall(s1); }
      SizePrefix(bs.Unread(), w);
      match if s.b.luma > 0 then LumaDcSize(w) else ChromaDcSize(w)
      case Lost => m := Go(s1, 0, SliceStart);
      case Code(len, size) => m := Go(s1.(b := s1.b.(dcSize := size)), len, DcDiff);
    }

    method DcDiffStep() returns (m: Move)
      requires Valid() && !bs.bsDone && s.state.DcDiff?
      modifies bs`bsData, bs`bsBits, bs`bsPtr, bs`bsLen, bs`bsDone, bs`reg
      ensures bs.Valid() && bs.Unread() == old(bs.Unread()) && bs.bsDone == m.done
      ensures bs.bsDone ==> bs.bsLen == 0
      ensures m == DcDiffMove(s, bs.Unread())
    {
      hide BitReader.Valid, BitReader.Unread;
      var ok, w := Look(s.b.dcSize);
      if !ok { return Stall(s); }
      m := if s.q.okIntra then Go(s, s.b.dcSize, RlpOkStage1)
           else Go(s.(b := s.b.(coefIndex := 1)), s.b.dcSize, RlpCheckStage1);
    }

    method MacroblockEndStep() returns (m: Move)
      requires Valid() && !bs.bsDone
      modifies bs`bsData, bs`bsBits, bs`bsPtr, bs`bsLen, bs`bsDone, bs`reg
      ensures bs.Valid() && bs.Unread() == old(bs.Unread()) && bs.bsDone == m.done
      ensures bs.bsDone ==> bs.bsLen == 0
      ensures m == MacroblockEndMove(s, bs.Unread())
    {
      hide BitReader.Valid, BitReader.Unread;
      var ok, w := Look(24);
      if !ok { return Stall(s); }
      assert w[..23] == bs.Unread()[..23];
      m := Go(s, 0, if All(w[..23], false) then SliceStart else MacroblockStart);
    }

    // ---- run-level states: what comes next ----

    method LookOkStage1(first: bool) returns (r: Rlp)
      requires bs.Valid() && !bs.bsDone
      modifies bs`bsData, bs`bsBits, bs`bsPtr, bs`bsLen, bs`bsDone, bs`reg
      ensures bs.Valid() && bs.Unread() == old(bs.Unread()) && bs.bsDone == (r.Short? || r.Cut?)
      ensures bs.bsDone ==> bs.bsLen == 0
      ensures r == OkStage1(bs.Unread(), first)
    {
      hide BitReader.Valid, BitReader.Unread;
      var ok, w := Look(6);
      if !ok { return Short; }
      if w[0] {
        return if first then Coef(2, 0, 0, false) else if w[1] then Coef(3, 0, 0, false) else EndOfBlock;
      } else if w[1] {
        return if w[2] then Coef(4, 0, 0, false) else Coef(5, 0, 0, false);
      } else if w[2] && (w[3] || w[4]) {
        return Coef(6, 0, 0, false);
      }
      var n := if w[2] then 9 else if w[3] then 7 else if w[4] then 8 else if w[5] then 12 else 6;
      var enough, _ := Look(n);
      if !enough { return if !w[2] && (w[3] || w[4]) then Cut else Short; }
      r := if w[2] || w[3] || w[4] then Coef(n, 0, 0, false) else if w[5] then Escape else SecondTable;
    }

    method LookOkStage2() returns (r: Rlp)
      requires bs.Valid() && !bs.bsDone
      modifies bs`bsData, bs`bsBits, bs`bsPtr, bs`bsLen, bs`bsDone, bs`reg
      ensures bs.Valid() && bs.Unread() == old(bs.Unread()) && bs.bsDone == r.Short?
      ensures bs.bsDone ==> bs.bsLen == 0
      ensures r == OkStage2(bs.Unread())
    {
      hide BitReader.Valid, BitReader.Unread;
      var ok, w := Look(11);
      if !ok { return Short; }
      if w[0] { return Coef(5, 0, 0, false); }
      if w[1] { return Coef(7, 0, 0, false); }
      if w[2] { return Coef(8, 0, 0, false); }
      if w[3] { return Coef(9, 0, 0, false); }
      if w[4] { return Coef(10, 0, 0, false); }
      r := if w[5] then Coef(11, 0, 0, false) else Bad;
    }

    /** Asks for no more bits than one code has. */
    method LookCheckStage1(first: bool) returns (r: Rlp)
      requires bs.Valid() && !bs.bsDone
      modifies bs`bsData, bs`bsBits, bs`bsPtr, bs`bsLen, bs`bsDone, bs`reg
      ensures bs.Valid() && bs.Unread() == old(bs.Unread()) && bs.bsDone == r.Short?
      ensures bs.bsDone ==> bs.bsLen == 0
      ensures r == CheckStage1(bs.Unread(), first)
    {
      hide BitReader.Valid, BitReader.Unread;
      var ok, w := Look(2);
      if !ok { return Short; }
      if w[0] {
        if first { return Coef(2, 0, 1, true); }
        if !w[1] { return EndOfBlock; }
        ok, w := Look(3);
        return if ok then Coef(3, 0, 1, true) else Short;
      } else if w[1] {
        ok, w := Look(4);
        if !ok { return Short; }
        if w[2] { return Coef(4, 1, 1, true); }
        ok, w := Look(5);
        return if !ok then Short else if w[3] then Coef(5, 2, 1, true) else Coef(5, 0, 2, true);
      }
      r := LookLonger(first);
    }

    method LookLonger(first: bool) returns (r: Rlp)
      requires bs.Valid() && !bs.bsDone && |bs.Unread()| >= 2 && !bs.Unread()[0] && !bs.Unread()[1]
      modifies bs`bsData, bs`bsBits, bs`bsPtr, bs`bsLen, bs`bsDone, bs`reg
      ensures bs.Valid() && bs.Unread() == old(bs.Unread()) && bs.bsDone == r.Short?
      ensures bs.bsDone ==> bs.bsLen == 0
      ensures r == CheckStage1(bs.Unread(), first)
    {
      hide BitReader.Valid, BitReader.Unread;
      var ok, w := Look(6);
      if !ok { return Short; }
      if w[2] && w[3] { return Coef(6, if w[4] then 3 else 4, 1, true); }
      if w[2] && w[4] { return Coef(6, 0, 3, true); }
      var n := if w[2] then 9 else if w[3] then 7 else if w[4] then 8 else if w[5] then 12 else 6;
      ok, w := Look(n);
      if !ok { return Short; }
      LongerBits(bs.Unread(), w);
      r := if n == 9 then NineBits(w) else if n == 7 then SevenBits(w) else if n == 8 then EightBits(w)
           else if n == 12 then Escape else SecondTable;
    }

    method LookCheckStage2() returns (r: Rlp)
      requires bs.Valid() && !bs.bsDone
      modifies bs`bsData, bs`bsBits, bs`bsPtr, bs`bsLen, bs`bsDone, bs`reg
      ensures bs.Valid() && bs.Unread() == old(bs.Unread()) && bs.bsDone == r.Short?
      ensures bs.bsDone ==> bs.bsLen == 0
      ensures r == CheckStage2(bs.Unread())
    {
      hide BitReader.Valid, BitReader.Unread;
      var ok, w := Look(5);
      if !ok { return Short; }
      if w[0] { return Table11(Three(w[1], w[2], w[3])); }
      var n := if w[1] then 7 else if w[2] then 8 else if w[3] then 9 else if w[4] then 10 else 11;
      ok, w := Look(n);
      if !ok { return Short; }
      if n == 7 { return Table13(Four(w[2], w[3], w[4], w[5])); }
      if n == 8 { return Table14(Four(w[3], w[4], w[5], w[6])); }
      if n == 9 { return Coef(9, 0, 31 - Four(w[4], w[5], w[6], w[7]), false); }
      if n == 10 { return Table16(w[5], Three(w[6], w[7], w[8])); }
      r := if w[5] then Table17(Four(w[6], w[7], w[8], w[9])) else Bad;
    }

    // ---- run-level states: what to do about it ----

    method OkStage1Step() returns (m: Move)
      requires Valid() && !bs.bsDone && s.state.RlpOkStage1?
      modifies bs`bsData, bs`bsBits, bs`bsPtr, bs`bsLen, bs`bsDone, bs`reg
      ensures bs.Valid() && bs.Unread() == old(bs.Unread()) && bs.bsDone == m.done
      ensures bs.bsDone ==> bs.bsLen == 0
      ensures m == OkStage1Move(s, bs.Unread())
    {
      hide BitReader.Valid, BitReader.Unread;
      var r := LookOkStage1(s.b.coefFirst);
      var s1 := s.(b := s.b.(coefFirst := false));
      match r
      case Short => m := Stall(s);
      case Cut => m := Stall(s1);
      case EndOfBlock => m := Go(s1.(b := DropBlock(s1.b)), 2, BlockStart);
      case Coef(len, _, _, _) => m := Go(s1, len, RlpOkStage1);
      case Escape => m := Go(s1, 12, RlpOkEscape);
      case SecondTable => m := Go(s1, 6, RlpOkStage2);
      case Bad => m := Go(s1, 0, SliceStart);
    }

    method OkStage2Step() returns (m: Move)
      requires Valid() && !bs.bsDone && s.state.RlpOkStage2?
      modifies bs`bsData, bs`bsBits, bs`bsPtr, bs`bsLen, bs`bsDone, bs`reg
      ensures bs.Valid() && bs.Unread() == old(bs.Unread()) && bs.bsDone == m.done
      ensures bs.bsDone ==> bs.bsLen == 0
      ensures m == OkStage2Move(s, bs.Unread())
    {
      hide BitReader.Valid, BitReader.Unread;
      var r := LookOkStage2();
      m := if r.Coef? then Go(s, r.len, RlpOkStage1) else if r.Bad? then Go(s, 0, SliceStart) else Stall(s);
    }

    /** The level after an escape: 8 bits, and 16 when they call for it. */
    method LookLevel() returns (n: nat, w: seq<bool>)
      requires bs.Valid() && !bs.bsDone
      modifies bs`bsData, bs`bsBits, bs`bsPtr, bs`bsLen, bs`bsDone, bs`reg
      ensures bs.Valid() && bs.Unread() == old(bs.Unread()) && bs.bsDone == (n == 0)
      ensures bs.bsDone ==> bs.bsLen == 0
      ensures n == 0 <==> |bs.Unread()| < 8 || |bs.Unread()| < EscapeLen(bs.Unread())
      ensures n > 0 ==> n == EscapeLen(bs.Unread()) && w == bs.Unread()[..8]
    {
      hide BitReader.Valid, BitReader.Unread;
      var ok;
      ok, w := Look(8);
      if !ok { return 0, []; }
      n := EscapeLen(w);
      if n == 16 {
        var long, _ := Look(16);
        if !long { n := 0; }
      }
    }

    method OkEscapeStep() returns (m: Move)
      requires Valid() && !bs.bsDone && s.state.RlpOkEscape?
      modifies bs`bsData, bs`bsBits, bs`bsPtr, bs`bsLen, bs`bsDone, bs`reg
      ensures bs.Valid() && bs.Unread() == old(bs.Unread()) && bs.bsDone == m.done
      ensures bs.bsDone ==> bs.bsLen == 0
      ensures m == OkEscapeMove(s, bs.Unread())
    {
      hide BitReader.Valid, BitReader.Unread;
      var n, _ := LookLevel();
      m := if n == 0 then Stall(s) else Go(s, n, RlpOkStage1);
    }

    /** The code just looked at: its index, and whether its sign bit is to be cleared. */
    method Coefficient(s1: Parse, r: Rlp) returns (m: Move)
      requires bs.Valid() && !bs.bsDone && Saved(s1) && Counts(s1.b) && r.Coef? && 0 < r.len <= 25 && r.len <= |bs.Unread()|
      modifies bs`bsData, bs`bsBits, bs`bsPtr, bs`bsLen, bs`bsDone, bs`reg
      ensures bs.Valid() && bs.Unread() == old(bs.Unread()) && !bs.bsDone
      ensures m == CoefMove(c, s1, bs.Unread(), r.len, r.run, r.level, r.tested)
    {
      hide BitReader.Valid, BitReader.Unread;
      var _, w := Look(r.len);
      var index := s1.b.coefIndex + r.run;
      var flip := w[r.len - 1] && r.tested && ThreshAt(c, s1.q, s1.b.intraTable, index) >= r.level;
      m := Move(NextCoef(s1, index), r.len, if flip then [false] else [], false);
    }

    method CheckStage1Step() returns (m: Move)
      requires Valid() && !bs.bsDone && s.state.RlpCheckStage1?
      modifies bs`bsData, bs`bsBits, bs`bsPtr, bs`bsLen, bs`bsDone, bs`reg
      ensures bs.Valid() && bs.Unread() == old(bs.Unread()) && bs.bsDone == m.done
      ensures bs.bsDone ==> bs.bsLen == 0
      ensures m == CheckStage1Move(c, s, bs.Unread())
    {
      hide BitReader.Valid, BitReader.Unread;
      var r := LookCheckStage1(s.b.coefFirst);
      var s1 := s.(b := s.b.(coefFirst := false));
      if r.Short? {
        m := Stall(s);
      } else if r.EndOfBlock? {
        m := Go(s.(b := DropBlock(s.b)), 2, BlockStart);
      } else if r.Coef? {
        CodeLen1(bs.Unread(), s.b.coefFirst);
        m := Coefficient(s1, r);
      } else if r.Escape? {
        m := RunStep(s1);
      } else {
        m := Go(s1, 6, RlpCheckStage2);
      }
    }

    /** Escape code and run. */
    method RunStep(s1: Parse) returns (m: Move)
      requires bs.Valid() && !bs.bsDone && Saved(s1) && Counts(s1.b) && |bs.Unread()| >= 12
      modifies bs`bsData, bs`bsBits, bs`bsPtr, bs`bsLen, bs`bsDone, bs`reg
      ensures bs.Valid() && bs.Unread() == old(bs.Unread()) && !bs.bsDone && m == CheckRunMove(c, s1, bs.Unread())
    {
      hide BitReader.Valid, BitReader.Unread;
      var _, w := Look(12);
      assert w[6..12] == bs.Unread()[6..12];
      var index := s1.b.coefIndex + ValOf(w[6..12]);
      m := Go(s1.(b := s1.b.(coefIndex := index)), 12,
              if ThreshAt(c, s1.q, s1.b.intraTable, index) > 0 then RlpCheckEscape else RlpOkEscape);
    }

    method CheckStage2Step() returns (m: Move)
      requires Valid() && !bs.bsDone && s.state.RlpCheckStage2?
      modifies bs`bsData, bs`bsBits, bs`bsPtr, bs`bsLen, bs`bsDone, bs`reg
      ensures bs.Valid() && bs.Unread() == old(bs.Unread()) && bs.bsDone == m.done
      ensures bs.bsDone ==> bs.bsLen == 0
      ensures m == CheckStage2Move(c, s, bs.Unread())
    {
      hide BitReader.Valid, BitReader.Unread;
      var r := LookCheckStage2();
      if r.Coef? {
        CodeLen2(bs.Unread());
        m := Coefficient(s, r);
      } else {
        m := if r.Bad? then Go(s, 0, SliceStart) else Stall(s);
      }
    }

    method EscapeStep() returns (m: Move)
      requires Valid() && !bs.bsDone && s.state.RlpCheckEscape?
      modifies bs`bsData, bs`bsBits, bs`bsPtr, bs`bsLen, bs`bsDone, bs`reg
      ensures bs.Valid() && bs.Unread() == old(bs.Unread()) && bs.bsDone == m.done
      ensures bs.bsDone ==> bs.bsLen == 0
      ensures m == EscapeMove(c, s, bs.Unread())
    {
      hide BitReader.Valid, BitReader.Unread;
      var t := ThreshAt(c, s.q, s.b.intraTable, s.b.coefIndex);
      var n, w := LookLevel();
      if n == 0 {
        m := ShortLevel(t);
      } else {
        var flip := n == 8 && SmallNegative(w, t);
        m := Move(NextCoef(s, s.b.coefIndex), n, if flip then Negated(w) else [], false);
      }
    }

    /** The buffer is exhausted: a negative level that has begun is taken now and finished in RLP_CHECK_ESCAPE2. */
    method ShortLevel(t: nat) returns (m: Move)
      requires Valid() && bs.bsDone && bs.bsLen == 0 && s.state.RlpCheckEscape?
      modifies bs`bsData, bs`bsBits, bs`bsPtr, bs`bsLen, bs`bsDone, bs`reg
      ensures bs.Valid() && bs.Unread() == old(bs.Unread()) && bs.bsDone && bs.bsLen == 0
      ensures m == if 0 < |bs.Unread()| < 8 && bs.Unread()[0] then SplitMove(s, bs.Unread(), t) else Stall(s)
    {
      hide BitReader.Valid, BitReader.Unread;
      var value := bs.NextBits(8);
      if value >= 0 { return Stall(s); }
      var numBits := -(value + 1);
      var value2 := bs.NextBits(numBits);
      WholeBits(bs.Unread(), numBits);
      var left := BitsOf(value2, numBits);
      m := if left != [] && left[0] then SplitMove(s, left, t) else Stall(s);
    }

    method Escape2Step() returns (m: Move)
      requires Valid() && !bs.bsDone && s.state.RlpCheckEscape2?
      modifies bs`bsData, bs`bsBits, bs`bsPtr, bs`bsLen, bs`bsDone, bs`reg
      ensures bs.Valid() && bs.Unread() == old(bs.Unread()) && bs.bsDone == m.done
      ensures bs.bsDone ==> bs.bsLen == 0
      ensures m == Escape2Move(c, s, bs.Unread())
    {
      hide BitReader.Valid, BitReader.Unread;
      var n := 8 - s.split.numBits;
      var ok, w := Look(n);
      if !ok { return Stall(s); }
      if s.split.allZeros && ValOf(w) == 0 {
        var long, _ := Look(n + 8);
        m := if long then Move(NextCoef(s, s.b.coefIndex), n + 8, [], false) else Stall(s);
      } else {
        var t := ThreshAt(c, s.q, s.b.intraTable, s.b.coefIndex);
        m := Move(NextCoef(s, s.b.coefIndex), n, SplitEdit(t, s.split, w), false);
      }
    }

    // ---- the switch and the loop around it ----

    method HeaderStep() returns (m: Move)
      requires Valid() && !bs.bsDone && Usable(c) && !s.state.SliceStart? && !InBlock(s.state)
      modifies bs`bsData, bs`bsBits, bs`bsPtr, bs`bsLen, bs`bsDone, bs`reg
      ensures bs.Valid() && bs.Unread() == old(bs.Unread()) && bs.bsDone == m.done
      ensures bs.bsDone ==> bs.bsLen == 0
      ensures m == Next(c, s, bs.Unread())
    {
      hide BitReader.Valid, BitReader.Unread;
      match s.state
      case SliceQuant => m := QuantStep(SliceExtraFlag);
      case SliceExtraFlag | SliceExtraData => m := ExtraStep();
      case MacroblockStart => m := AddressStep();
      case MacroblockType => m := TypeStep();
      case MacroblockQuant => m := MacroblockQuantStep();
      case MacroblockCode => m := MotionStep();
      case MacroblockRes => m := ResidualStep();
      case MacroblockPattern => m := PatternStep();
      case MacroblockEnd => m := MacroblockEndStep();
      case BlockStart => m := Go(s, 0, if s.b.luma == 0 && s.b.chroma == 0 then MacroblockEnd else DcSize);
    }

    method BlockStep() returns (m: Move)
      requires Valid() && !bs.bsDone && Usable(c) && InBlock(s.state) && !Checking(s.state)
      modifies bs`bsData, bs`bsBits, bs`bsPtr, bs`bsLen, bs`bsDone, bs`reg
      ensures bs.Valid() && bs.Unread() == old(bs.Unread()) && bs.bsDone == m.done
      ensures bs.bsDone ==> bs.bsLen == 0
      ensures m == BlockMove(s, bs.Unread())
    {
      hide BitReader.Valid, BitReader.Unread;
      match s.state
      case DcSize => m := DcSizeStep();
      case DcDiff => m := DcDiffStep();
      case RlpOkStage1 => m := OkStage1Step();
      case RlpOkStage2 => m := OkStage2Step();
      case RlpOkEscape => m := OkEscapeStep();
    }

    method CheckStep() returns (m: Move)
      requires Valid() && !bs.bsDone && Usable(c) && Checking(s.state)
      modifies bs`bsData, bs`bsBits, bs`bsPtr, bs`bsLen, bs`bsDone, bs`reg
      ensures bs.Valid() && bs.Unread() == old(bs.Unread()) && bs.bsDone == m.done
      ensures bs.bsDone ==> bs.bsLen == 0
      ensures m == CheckMove(c, s, bs.Unread())
    {
      hide BitReader.Valid, BitReader.Unread;
      match s.state
      case RlpCheckStage1 => m := CheckStage1Step();
      case RlpCheckStage2 => m := CheckStage2Step();
      case RlpCheckEscape => m := EscapeStep();
      case RlpCheckEscape2 => m := Escape2Step();
    }

    /** One trip through the switch. */
    method Step() returns (ghost m: Move)
      requires Valid() && !bs.bsDone && Usable(c)
      modifies this`s, bs`bsData, bs`bsBits, bs`bsPtr, bs`bsLen, bs`bsDone, bs`reg, bs`used, bs.buffer
      ensures m == Next(c, old(s), old(bs.Unread())) && Took(m, old(bs.Unread()))
      ensures Starved(old(s), old(bs.Unread()), m) ==> bs.bsLen == 0
    {
      hide BitReader.Valid, BitReader.Unread;
      if s.state.SliceStart? {
        m := SliceStartStep();
      } else {
        var move;
        ghost var u := bs.Unread();
        if Checking(s.state) {
          CheckBounds(c, s, u);
          move := CheckStep();
        } else if InBlock(s.state) {
          BlockBounds(c, s, u);
          move := BlockStep();
        } else {
          HeaderBounds(c, s, u);
          move := HeaderStep();
        }
        Take(move);
        m := move;
      }
    }

    /** The guard of DoVCDOptimize: nothing to read, a zero matrix entry, or no level that could need a change. */
    predicate NothingToDo(length: nat)
    {
      || length == 0 || c.minIntraQuant == 0 || c.minNonIntraQuant == 0
      || (c.minIntraQuant >= 8 && (c.minNonIntraQuant >= 8 || c.picture.PictureI?))
    }

    /** The buffer is left holding the output of the run over the left-over bits and the buffer; the state and the
        unread bits are those the run ends with, and unless it ended early the register holds them all for the next
        buffer. */
    method DoVCDOptimize(bsBuffer: array<byte>)
      requires Valid() && (c.minIntraQuant > 0 && c.minNonIntraQuant > 0 ==> Usable(c))
      modifies this`s, bs, bsBuffer
      ensures Valid()
      ensures NothingToDo(bsBuffer.Length) ==> unchanged(this, bs, bsBuffer)
      ensures !NothingToDo(bsBuffer.Length) ==>
        && bs.buffer == bsBuffer && Lawful(StepOf(c))
        && var u := old(bs.reg) + BytesBits(old(bsBuffer[..]));
        && BytesBits(bsBuffer[..]) == Output(c, old(s), u)[|old(bs.reg)|..]
        && (s, bs.Unread()) == End(StepOf(c), old(s), u)
        && (RunsDry(StepOf(c), old(s), u) ==> bs.reg == bs.Unread())
    {
      if NothingToDo(bsBuffer.Length) { return; }
      StepOfLawful(c);
      bs.Attach(bsBuffer);
      Run(s, bs.Unread());
      if bs.bsLen == 0 {
        bs.AllInRegister();
      }
    }

    method Run(ghost s0: Parse, ghost u0: seq<bool>)
      requires Valid() && !bs.bsDone && Usable(c) && Lawful(StepOf(c)) && s0 == s && u0 == bs.Unread() && bs.used == []
      modifies this`s, bs`bsData, bs`bsBits, bs`bsPtr, bs`bsLen, bs`bsDone, bs`reg, bs`used, bs.buffer
      ensures Valid() && (s, bs.Unread()) == End(StepOf(c), s0, u0) && bs.Full() == Rewrite(StepOf(c), s0, u0)
      ensures RunsDry(StepOf(c), s0, u0) ==> bs.bsLen == 0
    {
      hide BitReader.Valid, BitReader.Unread;
      while !bs.bsDone
        invariant Valid() && Underway(StepOf(c), s0, u0, s, bs.used, bs.Unread(), bs.bsDone)
        invariant bs.bsDone && RunsDry(StepOf(c), s0, u0) ==> bs.bsLen == 0
        decreases !bs.bsDone, |bs.Unread()|, Rank(s.state)
      {
        ghost var s1, used, u := s, bs.used, bs.Unread();
        ghost var m := Step();
        UnderwayStep(StepOf(c), s0, u0, s1, used, u, m);
      }
    }
  }
}
