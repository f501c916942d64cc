/** Slices as section 2.4.2 of ISO/IEC 11172-2 has an encoder write them, and what becomes of them: the parser takes
    them bit for bit, and its output is the same slice with the negligible coefficients turned positive. */
module SliceSyntax {
  import opened Options
  import opened Bits
  import opened StartCodes
  import opened VlcCodes
  import opened VlcTable
  import opened HeaderTables
  import opened Parser
  import opened Runs
  import opened Rewriting
  import opened Reparsing
  import opened Soundness
  import opened Resuming
  import opened BlockSyntax
  import B = Blocks

  // ---- syntax ----

  /** A motion code and its residual. */
  datatype Vector = Vector(magnitude: nat, negative: bool, residual: seq<bool>)

  /** The DC size and differential of an intra block, and the run-level items. */
  datatype BlockCode = BlockCode(size: nat, diff: seq<bool>, items: seq<RunLevel>)

  /** One macroblock; before it, an escape or a stuffing each. */
  datatype MacroblockBits = MacroblockBits(
    before: seq<bool>, increment: nat, kind: MbType, scale: nat,
    forward: seq<Vector>, backward: seq<Vector>, pattern: nat, blocks: seq<BlockCode>)

  /** Its vertical position, quantizer scale and extra information. */
  datatype SliceCode = SliceCode(position: nat, scale: nat, extra: seq<seq<bool>>, macroblocks: seq<MacroblockBits>)

  predicate WellVector(v: Vector, size: nat)
  {
    v.magnitude <= 16 && |v.residual| == if v.magnitude == 0 then 0 else size
  }

  predicate WellAll(vs: seq<Vector>, size: nat) { forall i :: 0 <= i < |vs| ==> WellVector(vs[i], size) }

  predicate WellVectors(vs: seq<Vector>, present: bool, size: nat)
  {
    |vs| == (if present then 2 else 0) && WellAll(vs, size)
  }

  /** The index the first run counts from: the DC coefficient of an intra block comes before. */
  function Origin(intra: bool): nat { if intra then 1 else 0 }

  /** A block has at most 64 coefficients, and a non-intra block at least one. */
  predicate WellBlock(b: BlockCode, intra: bool)
  {
    && b.size <= 8 && |b.diff| == b.size && AllWell(b.items) && (!intra ==> b.items != [])
    && B.Below64(Coefs(b.items, Origin(intra)))
  }

  predicate WellBlocks(bs: seq<BlockCode>, intra: bool) { forall i :: 0 <= i < |bs| ==> WellBlock(bs[i], intra) }

  /** How many blocks a macroblock has. */
  function CountsOf(mb: MacroblockBits): Blocks
  {
    if mb.kind.pattern then BlocksOf(mb.pattern) else if mb.kind.intra then Blocks(4, 2) else Blocks(0, 0)
  }

  predicate WellMacroblock(c: Config, mb: MacroblockBits)
  {
    && 1 <= mb.increment <= 33 && TypeVlc(c.picture, mb.kind) != NONE && 1 <= mb.scale <= 31
    && WellVectors(mb.forward, mb.kind.forward, c.forwardRSize)
    && WellVectors(mb.backward, mb.kind.backward, c.backwardRSize)
    && (mb.kind.pattern ==> 1 <= mb.pattern <= 63)
    && |mb.blocks| == CountsOf(mb).luma + CountsOf(mb).chroma && WellBlocks(mb.blocks, mb.kind.intra)
  }

  // ---- bits ----

  function AgainsBits(before: seq<bool>): seq<bool>
  {
    if before == [] then [] else AgainVlc(before[0]) + AgainsBits(before[1..])
  }

  function VectorBits(v: Vector, size: nat): seq<bool>
    requires WellVector(v, size)
  {
    MotionBits(v.magnitude, v.negative) + v.residual
  }

  function VectorsBits(vs: seq<Vector>, size: nat): seq<bool>
    requires WellAll(vs, size)
  {
    if vs == [] then [] else VectorBits(vs[0], size) + VectorsBits(vs[1..], size)
  }

  function SizeBits(size: nat, luma: bool): seq<bool>
    requires size <= 8
  {
    if luma then LumaSizeVlc(size) else ChromaSizeVlc(size)
  }

  function BlockBits(b: BlockCode, luma: bool, intra: bool): seq<bool>
    requires WellBlock(b, intra)
  {
    (if intra then SizeBits(b.size, luma) + b.diff else []) + ItemsCode(b.items, !intra)
  }

  /** The luminance blocks come first. */
  function BlocksBits(bs: seq<BlockCode>, luma: nat, intra: bool): seq<bool>
    requires WellBlocks(bs, intra)
  {
    if bs == [] then []
    else BlockBits(bs[0], luma > 0, intra) + BlocksBits(bs[1..], if luma > 0 then luma - 1 else 0, intra)
  }

  function ScaleBits(mb: MacroblockBits): seq<bool> { if mb.kind.quant then BitsOf(mb.scale, 5) else [] }

  function PatternBits(mb: MacroblockBits): seq<bool>
    requires mb.kind.pattern ==> 1 <= mb.pattern <= 63
  {
    if mb.kind.pattern then PatternVlc(mb.pattern) else []
  }

  function HeaderBits(c: Config, mb: MacroblockBits): seq<bool>
    requires WellMacroblock(c, mb)
  {
    AgainsBits(mb.before) + (IncrementVlc(mb.increment) + (TypeVlc(c.picture, mb.kind) + (ScaleBits(mb) +
      (VectorsBits(mb.forward, c.forwardRSize) + (VectorsBits(mb.backward, c.backwardRSize) + PatternBits(mb))))))
  }

  function CodeOf(c: Config, mb: MacroblockBits): seq<bool>
    requires WellMacroblock(c, mb)
  {
    HeaderBits(c, mb) + BlocksBits(mb.blocks, CountsOf(mb).luma, mb.kind.intra)
  }

  // ---- what becomes of a block ----

  function OptimizedBlock(c: Config, scale: nat, intra: bool, b: BlockCode): BlockCode
    requires Usable(c) && WellBlock(b, intra)
  {
    b.(items := OptimizedItems(c, scale, intra, b.items, Origin(intra)))
  }

  function OptimizedBlocks(c: Config, scale: nat, intra: bool, bs: seq<BlockCode>): (r: seq<BlockCode>)
    requires Usable(c) && WellBlocks(bs, intra)
    ensures |r| == |bs|
  {
    if bs == [] then [] else [OptimizedBlock(c, scale, intra, bs[0])] + OptimizedBlocks(c, scale, intra, bs[1..])
  }

  // ---- parts of a run ----

  /** From state s, bits are taken and w left in their place, and so to state t. */
  ghost predicate Passes(c: Config, s: Parse, bits: seq<bool>, rest: seq<bool>, t: Parse, w: seq<bool>)
    requires Usable(c)
  {
    Lawful(StepOf(c)) && Saved(s) && Saved(t) && |w| == |bits| && Reaches(StepOf(c), s, bits + rest, t, w)
  }

  lemma PassBoth(c: Config, s: Parse, a: seq<bool>, b: seq<bool>, rest: seq<bool>, t: Parse, x: seq<bool>, r: Parse, y: seq<bool>)
    requires Usable(c) && Passes(c, s, a, b + rest, t, x) && Passes(c, t, b, rest, r, y)
    ensures Passes(c, s, a + b, rest, r, x + y)
  {
    hide Reaches, Lawful, StepOf;
    var u := a + (b + rest);
    assert (a + b) + rest == u && u[|x|..] == b + rest;
    ReachesTrans(StepOf(c), s, u, t, x, r, y);
  }

  lemma PassStep(c: Config, s: Parse, bits: seq<bool>, rest: seq<bool>, t: Parse)
    requires Usable(c) && Saved(s) && Next(c, s, bits + rest) == Move(t, |bits|, [], false)
    ensures Passes(c, s, bits, rest, t, bits)
  {
    hide Next;
    StepOfLawful(c);
    var u := bits + rest;
    B.PlainWrites(t, u, |bits|);
    assert u[..|bits|] == bits;
    B.StepTo(StepOf(c), s, u, t, bits);
  }

  /** Nothing to take. */
  lemma PassNone(c: Config, s: Parse, rest: seq<bool>)
    requires Usable(c) && Saved(s)
    ensures Passes(c, s, [], rest, s, [])
  {
    StepOfLawful(c);
  }

  lemma {:induction false} ReachesTuned(c: Config, s: Parse, u: seq<bool>, t: Parse, w: seq<bool>)
    requires Usable(c) && Lawful(StepOf(c)) && Saved(s) && Tuned(c, s) && Reaches(StepOf(c), s, u, t, w)
    ensures Tuned(c, t)
    decreases |u|, Rank(s.state)
  {
    hide Tuned, Next;
    if !(w == [] && t == s) {
      var m := StepOf(c)(s, u);
      StepTuned(c, s, u);
      ReachesTuned(c, m.s, u[m.used..], t, w[m.used..]);
    }
  }

  /** The thresholds stay those of the scale in force. */
  lemma PassTuned(c: Config, s: Parse, bits: seq<bool>, rest: seq<bool>, t: Parse, w: seq<bool>)
    requires Usable(c) && Tuned(c, s) && Passes(c, s, bits, rest, t, w)
    ensures Tuned(c, t)
  {
    ReachesTuned(c, s, bits + rest, t, w);
  }

  lemma StartsWith(code: seq<bool>, rest: seq<bool>)
    ensures Starts(code + rest, code)
  {
  }

  // ---- macroblock header ----

  lemma {:induction false} AgainsPass(c: Config, s: Parse, before: seq<bool>, rest: seq<bool>)
    requires Usable(c) && Saved(s) && s.state.MacroblockStart? && |rest| >= 11
    ensures Passes(c, s, AgainsBits(before), rest, s, AgainsBits(before))
    decreases |before|
  {
    hide AddressCode, AgainVlc, Passes;
    if before == [] {
      PassNone(c, s, rest);
    } else {
      var a, b := AgainVlc(before[0]), AgainsBits(before[1..]);
      StartsWith(a, b + rest);
      AgainDecodes(a + (b + rest), before[0]);
      AgainLength(before[0]);
      PassStep(c, s, a, b + rest, s);
      AgainsPass(c, s, before[1..], rest);
      PassBoth(c, s, a, b, rest, s, a, s, b);
    }
  }

  lemma AgainLength(escape: bool)
    ensures |AgainVlc(escape)| == 11
  {
  }

  lemma IncrementPasses(c: Config, s: Parse, n: nat, rest: seq<bool>) returns (t: Parse)
    requires Usable(c) && Saved(s) && s.state.MacroblockStart? && 1 <= n <= 33 && |rest| >= 11
    ensures t == s.(state := MacroblockType) && Passes(c, s, IncrementVlc(n), rest, t, IncrementVlc(n))
  {
    hide AddressCode, IncrementVlc, Passes;
    StartsWith(IncrementVlc(n), rest);
    IncrementDecodes(IncrementVlc(n) + rest, n);
    t := s.(state := MacroblockType);
    PassStep(c, s, IncrementVlc(n), rest, t);
  }

  lemma TypePasses(c: Config, s: Parse, k: MbType, rest: seq<bool>) returns (t: Parse)
    requires Usable(c) && Saved(s) && s.state.MacroblockType? && TypeVlc(c.picture, k) != NONE && |rest| >= 11
    ensures t == s.(state := MacroblockQuant, mb := s.mb.(kind := k))
    ensures Passes(c, s, TypeVlc(c.picture, k), rest, t, TypeVlc(c.picture, k))
  {
    hide TypeCode, TypeVlc, Passes;
    var code := TypeVlc(c.picture, k);
    StartsWith(code, rest);
    TypeDecodes(c.picture, code + rest, k);
    t := s.(state := MacroblockQuant, mb := s.mb.(kind := k));
    PassStep(c, s, code, rest, t);
  }

  lemma ScaleRead(scale: nat, rest: seq<bool>)
    requires 1 <= scale <= 31
    ensures |BitsOf(scale, 5)| == 5 && ValOf((BitsOf(scale, 5) + rest)[..5]) == scale
  {
    assert (BitsOf(scale, 5) + rest)[..5] == BitsOf(scale, 5);
    assert Pow2(5) == 32;
    ValBits(scale, 5);
  }

  /** Vectors to come for a macroblock of this kind, and nothing else, with this scale in force. */
  predicate AtVectors(s: Parse, kind: MbType, forward: nat, backward: nat, scale: nat)
  {
    s.state.MacroblockCode? && s.mb == Macroblock(kind, forward, backward) && s.q.scale == scale
  }

  lemma ScalePasses(c: Config, s: Parse, mb: MacroblockBits, scale: nat, rest: seq<bool>) returns (t: Parse)
    requires Usable(c) && Saved(s) && s.state.MacroblockQuant? && s.mb.kind == mb.kind && 1 <= mb.scale <= 31 && s.q.scale == scale
    ensures AtVectors(t, mb.kind, if mb.kind.forward then 2 else 0, if mb.kind.backward then 2 else 0,
                      if mb.kind.quant then mb.scale else scale)
    ensures Passes(c, s, ScaleBits(mb), rest, t, ScaleBits(mb))
  {
    hide CheckQuant, Passes;
    var u := ScaleBits(mb) + rest;
    if mb.kind.quant { ScaleRead(mb.scale, rest); }
    t := Next(c, s, u).s;
    PassStep(c, s, ScaleBits(mb), rest, t);
  }

  /** A motion code and its residual; the forward vectors come first. */
  lemma VectorPasses(c: Config, s: Parse, v: Vector, size: nat, kind: MbType, forward: nat, backward: nat, scale: nat, rest: seq<bool>)
    returns (t: Parse)
    requires Usable(c) && Saved(s) && AtVectors(s, kind, forward, backward, scale) && forward + backward > 0
    requires size == (if forward > 0 then c.forwardRSize else c.backwardRSize) && WellVector(v, size) && |rest| >= 11
    ensures AtVectors(t, kind, if forward > 0 then forward - 1 else 0, if forward > 0 then backward else backward - 1, scale)
    ensures Passes(c, s, VectorBits(v, size), rest, t, VectorBits(v, size))
  {
    hide MotionCode, MotionBits, Passes;
    var code := MotionBits(v.magnitude, v.negative);
    StartsWith(code, v.residual + rest);
    MotionDecodes(code + (v.residual + rest), v.magnitude, v.negative);
    t := s.(mb := DropVector(s.mb));
    if v.magnitude == 0 {
      assert v.residual == [] && code + v.residual == code && v.residual + rest == rest;
      PassStep(c, s, code, rest, t);
    } else {
      var m := s.(state := MacroblockRes);
      PassStep(c, s, code, v.residual + rest, m);
      PassStep(c, m, v.residual, rest, t);
      PassBoth(c, s, code, v.residual, rest, m, code, t, v.residual);
    }
  }

  lemma {:induction false} ForwardPass(c: Config, s: Parse, vs: seq<Vector>, kind: MbType, backward: nat, scale: nat, rest: seq<bool>)
    returns (t: Parse)
    requires Usable(c) && Saved(s) && AtVectors(s, kind, |vs|, backward, scale) && |rest| >= 11
    requires WellAll(vs, c.forwardRSize)
    ensures AtVectors(t, kind, 0, backward, scale) && Passes(c, s, VectorsBits(vs, c.forwardRSize), rest, t, VectorsBits(vs, c.forwardRSize))
    decreases |vs|
  {
    hide Passes, VectorBits, AtVectors;
    if vs == [] {
      PassNone(c, s, rest);
      t := s;
    } else {
      var a, b := VectorBits(vs[0], c.forwardRSize), VectorsBits(vs[1..], c.forwardRSize);
      var m := VectorPasses(c, s, vs[0], c.forwardRSize, kind, |vs|, backward, scale, b + rest);
      PassSaved(c, s, a, b + rest, m, a);
      t := ForwardPass(c, m, vs[1..], kind, backward, scale, rest);
      PassBoth(c, s, a, b, rest, m, a, t, b);
    }
  }

  lemma {:induction false} BackwardPass(c: Config, s: Parse, vs: seq<Vector>, kind: MbType, scale: nat, rest: seq<bool>)
    returns (t: Parse)
    requires Usable(c) && Saved(s) && AtVectors(s, kind, 0, |vs|, scale) && |rest| >= 11
    requires WellAll(vs, c.backwardRSize)
    ensures AtVectors(t, kind, 0, 0, scale) && Passes(c, s, VectorsBits(vs, c.backwardRSize), rest, t, VectorsBits(vs, c.backwardRSize))
    decreases |vs|
  {
    hide Passes, VectorBits, AtVectors;
    if vs == [] {
      PassNone(c, s, rest);
      t := s;
    } else {
      var a, b := VectorBits(vs[0], c.backwardRSize), VectorsBits(vs[1..], c.backwardRSize);
      var m := VectorPasses(c, s, vs[0], c.backwardRSize, kind, 0, |vs|, scale, b + rest);
      PassSaved(c, s, a, b + rest, m, a);
      t := BackwardPass(c, m, vs[1..], kind, scale, rest);
      PassBoth(c, s, a, b, rest, m, a, t, b);
    }
  }

  lemma PassSaved(c: Config, s: Parse, bits: seq<bool>, rest: seq<bool>, t: Parse, w: seq<bool>)
    requires Usable(c) && Passes(c, s, bits, rest, t, w)
    ensures Saved(t) && |w| == |bits|
  {
  }

  /** Blocks to come in a macroblock of this kind, with this scale in force. */
  predicate AtBlocks(s: Parse, kind: MbType, luma: nat, chroma: nat, scale: nat)
  {
    s.state.BlockStart? && s.mb == Macroblock(kind, 0, 0) && s.b.luma == luma && s.b.chroma == chroma && s.q.scale == scale
  }

  lemma PatternPasses(c: Config, s: Parse, mb: MacroblockBits, scale: nat, rest: seq<bool>) returns (t: Parse)
    requires Usable(c) && Saved(s) && AtVectors(s, mb.kind, 0, 0, scale) && (mb.kind.pattern ==> 1 <= mb.pattern <= 63) && |rest| >= 9
    ensures AtBlocks(t, mb.kind, CountsOf(mb).luma, CountsOf(mb).chroma, scale)
    ensures Passes(c, s, PatternBits(mb), rest, t, PatternBits(mb))
  {
    hide PatternCode, PatternVlc, Passes, BlocksOf;
    var m := s.(state := MacroblockPattern);
    var u := PatternBits(mb) + rest;
    assert [] + u == u && [] + PatternBits(mb) == PatternBits(mb);
    PassStep(c, s, [], u, m);
    if mb.kind.pattern {
      StartsWith(PatternVlc(mb.pattern), rest);
      PatternDecodes(u, mb.pattern);
    }
    t := Next(c, m, u).s;
    PassStep(c, m, PatternBits(mb), rest, t);
    PassBoth(c, s, [], PatternBits(mb), rest, m, [], t, PatternBits(mb));
  }

  /** The scale in force from a macroblock on. */
  function ScaleOf(mb: MacroblockBits, scale: nat): nat { if mb.kind.quant then mb.scale else scale }

  lemma HeaderPasses(c: Config, s: Parse, mb: MacroblockBits, scale: nat, rest: seq<bool>) returns (t: Parse)
    requires Usable(c) && Saved(s) && s.state.MacroblockStart? && s.q.scale == scale && WellMacroblock(c, mb) && |rest| >= 11
    ensures AtBlocks(t, mb.kind, CountsOf(mb).luma, CountsOf(mb).chroma, ScaleOf(mb, scale))
    ensures Passes(c, s, HeaderBits(c, mb), rest, t, HeaderBits(c, mb))
  {
    hide Passes, AgainsBits, VectorsBits, PatternBits, ScaleBits, TypeVlc, IncrementVlc, Reaches, StepOf;
    var p := PatternBits(mb);
    var b := VectorsBits(mb.backward, c.backwardRSize) + p;
    var f := VectorsBits(mb.forward, c.forwardRSize) + b;
    var q := ScaleBits(mb) + f;
    var k := TypeVlc(c.picture, mb.kind) + q;
    var n := IncrementVlc(mb.increment) + k;
    AgainsPass(c, s, mb.before, n + rest);
    var s1 := IncrementPasses(c, s, mb.increment, k + rest);
    PassSaved(c, s, IncrementVlc(mb.increment), k + rest, s1, IncrementVlc(mb.increment));
    var s2 := TypePasses(c, s1, mb.kind, q + rest);
    PassSaved(c, s1, TypeVlc(c.picture, mb.kind), q + rest, s2, TypeVlc(c.picture, mb.kind));
    var s3 := ScalePasses(c, s2, mb, scale, f + rest);
    PassSaved(c, s2, ScaleBits(mb), f + rest, s3, ScaleBits(mb));
    var s4 := ForwardPass(c, s3, mb.forward, mb.kind, |mb.backward|, ScaleOf(mb, scale), b + rest);
    PassSaved(c, s3, VectorsBits(mb.forward, c.forwardRSize), b + rest, s4, VectorsBits(mb.forward, c.forwardRSize));
    var s5 := BackwardPass(c, s4, mb.backward, mb.kind, ScaleOf(mb, scale), p + rest);
    PassSaved(c, s4, VectorsBits(mb.backward, c.backwardRSize), p + rest, s5, VectorsBits(mb.backward, c.backwardRSize));
    t := PatternPasses(c, s5, mb, ScaleOf(mb, scale), rest);
    PassBoth(c, s4, VectorsBits(mb.backward, c.backwardRSize), p, rest, s5, VectorsBits(mb.backward, c.backwardRSize), t, p);
    PassBoth(c, s3, VectorsBits(mb.forward, c.forwardRSize), b, rest, s4, VectorsBits(mb.forward, c.forwardRSize), t, b);
    PassBoth(c, s2, ScaleBits(mb), f, rest, s3, ScaleBits(mb), t, f);
    PassBoth(c, s1, TypeVlc(c.picture, mb.kind), q, rest, s2, TypeVlc(c.picture, mb.kind), t, q);
    PassBoth(c, s, IncrementVlc(mb.increment), k, rest, s1, IncrementVlc(mb.increment), t, k);
    PassBoth(c, s, AgainsBits(mb.before), n, rest, s, AgainsBits(mb.before), t, n);
  }

  // ---- a block is parsed alike whatever follows it ----

  /** n bits have all of the item. */
  predicate Holds(r: Rlp, n: nat)
  {
    match r
    case EndOfBlock => n >= 2
    case Coef(len, _, _, _) => n >= len
    case Escape => n >= 12
    case SecondTable => n >= 6
    case _ => false
  }

  lemma Stage1Cut(a: seq<bool>, b: seq<bool>, first: bool)
    ensures Holds(CheckStage1(a + b, first), |a|) ==> CheckStage1(a, first) == CheckStage1(a + b, first)
  {
  }

  lemma Stage2Cut(a: seq<bool>, b: seq<bool>)
    ensures CheckStage2(a + b).Coef? && CheckStage2(a + b).len <= |a| ==> CheckStage2(a) == CheckStage2(a + b)
  {
  }

  lemma Stage2Kinds(u: seq<bool>)
    ensures var r := CheckStage2(u); r.Coef? || r.Short? || r.Bad?
  {
  }

  /** An item's own bits are enough to parse it. */
  lemma ItemCut(a: seq<bool>, b: seq<bool>, first: bool)
    requires Holds(Item(a + b, first), |a|)
    ensures Item(a, first) == Item(a + b, first)
  {
    hide CheckStage1, CheckStage2;
    Stage1Cut(a, b, first);
    Stage2Kinds((a + b)[if |a + b| >= 6 then 6 else 0..]);
    if CheckStage1(a + b, first).SecondTable? && |a| >= 6 {
      assert (a + b)[6..] == a[6..] + b;
      Stage2Cut(a[6..], b);
    }
  }

  lemma ItemOn(a: seq<bool>, b: seq<bool>, first: bool)
    requires B.More(Item(a, first)) || Item(a, first).EndOfBlock?
    ensures Item(a + b, first) == Item(a, first)
  {
    hide CheckStage1, CheckStage2;
    CheckStage1On(a, b, first);
    if CheckStage1(a, first).SecondTable? {
      assert (a + b)[6..] == a[6..] + b;
      CheckStage2On(a[6..], b);
    }
  }

  lemma EscapeAlike(a: seq<bool>, b: seq<bool>)
    requires |a| >= 8
    ensures EscapeLen(a + b) == EscapeLen(a)
    ensures |a| >= EscapeLen(a) ==> B.EscapeLevel(a + b) == B.EscapeLevel(a)
  {
    if |a| >= EscapeLen(a) { assert (a + b)[EscapeLen(a) - 8..EscapeLen(a)] == a[EscapeLen(a) - 8..EscapeLen(a)]; }
  }

  lemma EscapeWhole(a: seq<bool>, b: seq<bool>)
    requires |a| >= 12
    ensures (a + b)[12..] == a[12..] + b && (a + b)[6..12] == a[6..12]
  {
  }

  /** The same item is the same coefficient. */
  lemma CoefAlike(a: seq<bool>, b: seq<bool>, first: bool, index: nat)
    requires B.More(Item(a, first)) && Item(a + b, first) == Item(a, first)
    ensures 0 < B.ItemLen(a, first) || 0 < B.ItemLen(a + b, first) <= |a| ==>
            B.ItemLen(a + b, first) == B.ItemLen(a, first) > 0 && B.FirstCoef(a + b, first, index) == B.FirstCoef(a, first, index)
  {
    hide Item, ValOf, B.EscapeLevel;
    if Item(a, first).Escape? {
      EscapeWhole(a, b);
      if |a| >= 20 { EscapeAlike(a[12..], b); }
    }
  }

  lemma {:induction false} ParseOn(a: seq<bool>, b: seq<bool>, first: bool, index: nat)
    requires B.ParseBlock(a, first, index).Whole?
    ensures B.ParseBlock(a + b, first, index) == B.ParseBlock(a, first, index)
    decreases |a|
  {
    hide Item, B.FirstCoef, B.ItemLen;
    ItemOn(a, b, first);
    if B.More(Item(a, first)) {
      var n := B.ItemLen(a, first);
      CoefAlike(a, b, first, index);
      assert (a + b)[n..] == a[n..] + b;
      ParseOn(a[n..], b, false, B.FirstCoef(a, first, index).index + 1);
    }
  }

  lemma {:induction false} ParseCut(a: seq<bool>, b: seq<bool>, first: bool, index: nat)
    requires B.ParseBlock(a + b, first, index).Whole? && B.ParseBlock(a + b, first, index).len <= |a|
    ensures B.ParseBlock(a, first, index) == B.ParseBlock(a + b, first, index)
    decreases |a|
  {
    hide Item, B.FirstCoef, B.ItemLen;
    var u, p := a + b, B.ParseBlock(a + b, first, index);
    ParsedHolds(u, first, index, |a|);
    ItemCut(a, b, first);
    if p.cs != [] {
      hide B.ParseBlock;
      var n, k, p1 := B.BlockRest(u, first, index, p);
      CoefAlike(a, b, first, index);
      assert u[n..] == a[n..] + b;
      ParseCut(a[n..], b, false, k.index + 1);
      B.ParseOnce(a, first, index, n, k, a[n..], k.index + 1, p1);
    }
  }

  lemma ParsedHolds(u: seq<bool>, first: bool, index: nat, n: nat)
    requires B.ParseBlock(u, first, index).Whole? && B.ParseBlock(u, first, index).len <= n
    ensures Holds(Item(u, first), n)
    ensures B.More(Item(u, first)) ==> 0 < B.ItemLen(u, first) <= n
  {
    hide Item, B.FirstCoef;
  }

  // ---- blocks ----

  /** The items of a block are about to be parsed. */
  ghost predicate AtItems(c: Config, s: Parse, intra: bool, scale: nat)
    requires Usable(c)
  {
    && Saved(s) && Tuned(c, s) && B.AtBlock(s) && B.Ready(s, if intra then 1 else 0) && Counts(s.b)
    && s.b.coefFirst == !intra && s.mb.kind.intra == intra && s.q.scale == scale
  }

  /** What a run leaves in place of a block's items is the optimized block's items. */
  lemma OptimizedIs(c: Config, s: Parse, b: BlockCode, w: seq<bool>, rest: seq<bool>)
    requires Usable(c) && AtItems(c, s, s.mb.kind.intra, s.q.scale) && WellBlock(b, s.mb.kind.intra) && |rest| >= 4
    requires var code := ItemsCode(b.items, !s.mb.kind.intra);
             |w| == |code| && Output(c, s, code + rest)[..|w|] == w
    ensures var r := OptimizedBlock(c, s.q.scale, s.mb.kind.intra, b);
            WellBlock(r, s.mb.kind.intra) && w == ItemsCode(r.items, !s.mb.kind.intra)
  {
    hide B.ParseBlock, Output, Tuned, B.Flipped, B.Turned, B.Negligible, B.Blinds, B.AtBlock, ItemsCode, Coefs, OptimizedItems, WellItem;
    var intra := s.mb.kind.intra;
    var index, first, code, cs := Origin(intra), !intra, ItemsCode(b.items, !intra), Coefs(b.items, Origin(intra));
    var rs := OptimizedItems(c, s.q.scale, intra, b.items, index);
    var v, p := Output(c, s, code + rest), B.Whole(cs, |code|);
    ItemsParse(b.items, first, index);
    ParseOn(code, rest, first, index);
    B.OutputBlock(c, s, code + rest, index, p, v);
    assert v == w + v[|w|..];
    ParseCut(w, v[|w|..], first, index);
    var q := B.ParseBlock(w, first, index);
    TunedScale(c, s);
    forall k | 0 <= k < |cs|
      ensures WellItem(rs[k]) && q.cs[k] == Coefs(rs, index)[k] && Coefs(rs, index)[k].index == cs[k].index
    {
      B.BlockFlips(c, s, code + rest, index, p, k);
      OptimizedCoefs(c, s.q.scale, intra, b.items, index, k);
      TurnedIndex(cs[k], Turns(c, s.q.scale, intra, cs, k) && !cs[k].coding.Long?);
    }
    assert q.cs == Coefs(rs, index);
    ItemsParse(rs, first, index);
    SameBits(w, ItemsCode(rs, first), first, index);
  }

  lemma TurnedIndex(k: B.Coefficient, flip: bool)
    ensures B.Turned(k, flip).index == k.index
  {
  }

  lemma TunedScale(c: Config, s: Parse)
    requires Usable(c) && Tuned(c, s) && B.AtBlock(s)
    ensures s.q.scale > 0
  {
  }

  lemma ItemsPass(c: Config, s: Parse, b: BlockCode, rest: seq<bool>) returns (t: Parse)
    requires Usable(c) && AtItems(c, s, s.mb.kind.intra, s.q.scale) && WellBlock(b, s.mb.kind.intra) && |rest| >= 4
    ensures var r := OptimizedBlock(c, s.q.scale, s.mb.kind.intra, b);
            && WellBlock(r, s.mb.kind.intra) && B.Ended(s, t, true)
            && Passes(c, s, ItemsCode(b.items, !s.mb.kind.intra), rest, t, ItemsCode(r.items, !s.mb.kind.intra))
  {
    hide B.ParseBlock, Tuned, Reaches, B.RunsBlocks, B.Below64, Rewrite, ItemsCode, Coefs, OptimizedItems;
    var intra := s.mb.kind.intra;
    var code := ItemsCode(b.items, !intra);
    ItemsParse(b.items, !intra, Origin(intra));
    ParseOn(code, rest, !intra, Origin(intra));
    B.StepOfRunsBlocks(c);
    var w;
    t, w := B.BlockRun(c, StepOf(c), s, code + rest, Origin(intra), B.ParseBlock(code + rest, !intra, Origin(intra)));
    ReachesOutput(StepOf(c), s, code + rest, t, w);
    OptimizedIs(c, s, b, w, rest);
  }

  lemma SizePasses(c: Config, s: Parse, size: nat, rest: seq<bool>) returns (t: Parse)
    requires Usable(c) && Saved(s) && s.state.DcSize? && s.mb.kind.intra && size <= 8 && |rest| >= 8
    ensures t.state.DcDiff? && t.b.dcSize == size && !t.b.coefFirst && t.mb == s.mb && t.q == s.q
    ensures t.b.luma == s.b.luma && t.b.chroma == s.b.chroma
    ensures Passes(c, s, SizeBits(size, s.b.luma > 0), rest, t, SizeBits(size, s.b.luma > 0))
  {
    hide LumaDcSize, ChromaDcSize, LumaSizeVlc, ChromaSizeVlc, Passes;
    var code := SizeBits(size, s.b.luma > 0);
    StartsWith(code, rest);
    if s.b.luma > 0 { LumaSizeDecodes(code + rest, size); } else { ChromaSizeDecodes(code + rest, size); }
    t := Next(c, s, code + rest).s;
    PassStep(c, s, code, rest, t);
  }

  /** Up to the items of a block. */
  lemma BlockOpens(c: Config, s: Parse, b: BlockCode, rest: seq<bool>) returns (t: Parse)
    requires Usable(c) && Saved(s) && Tuned(c, s) && s.state.BlockStart? && Counts(s.b) && |rest| >= 8
    requires b.size <= 8 && |b.diff| == b.size
    ensures AtItems(c, t, s.mb.kind.intra, s.q.scale) && t.mb == s.mb && t.q == s.q
    ensures t.b.luma == s.b.luma && t.b.chroma == s.b.chroma
    ensures var opening := if s.mb.kind.intra then SizeBits(b.size, s.b.luma > 0) + b.diff else [];
            Passes(c, s, opening, rest, t, opening)
  {
    hide Passes, Tuned, Thresholds, LumaDcSize, ChromaDcSize;
    var opening := if s.mb.kind.intra then SizeBits(b.size, s.b.luma > 0) + b.diff else [];
    var d := s.(state := DcSize);
    PassStep(c, s, [], opening + rest, d);
    PassTuned(c, s, [], opening + rest, d, []);
    if s.mb.kind.intra {
      t := IntraOpens(c, d, b, rest);
    } else {
      t := Next(c, d, rest).s;
      PassStep(c, d, [], rest, t);
      B.BlockBegins(c, d, [] + rest);
    }
    assert [] + opening == opening && [] + rest == rest;
    PassBoth(c, s, [], opening, rest, d, [], t, opening);
  }

  lemma IntraOpens(c: Config, s: Parse, b: BlockCode, rest: seq<bool>) returns (t: Parse)
    requires Usable(c) && Saved(s) && Tuned(c, s) && s.state.DcSize? && Counts(s.b) && s.mb.kind.intra && |rest| >= 8
    requires b.size <= 8 && |b.diff| == b.size
    ensures AtItems(c, t, true, s.q.scale) && t.mb == s.mb && t.q == s.q && t.b.luma == s.b.luma && t.b.chroma == s.b.chroma
    ensures var opening := SizeBits(b.size, s.b.luma > 0) + b.diff; Passes(c, s, opening, rest, t, opening)
  {
    hide Passes, Tuned, LumaDcSize, ChromaDcSize, SizeBits;
    var code := SizeBits(b.size, s.b.luma > 0);
    var m := SizePasses(c, s, b.size, b.diff + rest);
    PassTuned(c, s, code, b.diff + rest, m, code);
    PassSaved(c, s, code, b.diff + rest, m, code);
    t := Next(c, m, b.diff + rest).s;
    PassStep(c, m, b.diff, rest, t);
    B.BlockBegins(c, m, b.diff + rest);
    PassBoth(c, s, code, b.diff, rest, m, code, t, b.diff);
  }

  lemma BlockPasses(c: Config, s: Parse, b: BlockCode, kind: MbType, luma: nat, chroma: nat, scale: nat, rest: seq<bool>)
    returns (t: Parse)
    requires Usable(c) && Saved(s) && Tuned(c, s) && AtBlocks(s, kind, luma, chroma, scale) && luma + chroma > 0
    requires WellBlock(b, kind.intra) && |rest| >= 8
    ensures AtBlocks(t, kind, if luma > 0 then luma - 1 else 0, if luma > 0 then chroma else chroma - 1, scale)
    ensures var r := OptimizedBlock(c, scale, kind.intra, b);
            WellBlock(r, kind.intra) &&
            Passes(c, s, BlockBits(b, luma > 0, kind.intra), rest, t, BlockBits(r, luma > 0, kind.intra))
  {
    hide Passes, Tuned, SizeBits, AtItems, ItemsCode, Coefs, AllWell, OptimizedItems;
    var opening := if kind.intra then SizeBits(b.size, luma > 0) + b.diff else [];
    var code, r := ItemsCode(b.items, !kind.intra), OptimizedBlock(c, scale, kind.intra, b);
    var m := BlockOpens(c, s, b, code + rest);
    PassSaved(c, s, opening, code + rest, m, opening);
    AtItemsCounts(c, m, kind.intra, scale);
    t := ItemsPass(c, m, b, rest);
    PassBoth(c, s, opening, code, rest, m, opening, t, ItemsCode(r.items, !kind.intra));
  }

  lemma AtItemsCounts(c: Config, s: Parse, intra: bool, scale: nat)
    requires Usable(c) && AtItems(c, s, intra, scale)
    ensures Saved(s) && Counts(s.b)
  {
  }

  lemma {:induction false} BlocksPass(c: Config, s: Parse, bs: seq<BlockCode>, kind: MbType, luma: nat, chroma: nat, scale: nat, rest: seq<bool>)
    returns (t: Parse)
    requires Usable(c) && Saved(s) && Tuned(c, s) && AtBlocks(s, kind, luma, chroma, scale)
    requires |bs| == luma + chroma && WellBlocks(bs, kind.intra) && |rest| >= 8
    ensures AtBlocks(t, kind, 0, 0, scale)
    ensures var rs := OptimizedBlocks(c, scale, kind.intra, bs);
            WellBlocks(rs, kind.intra) &&
            Passes(c, s, BlocksBits(bs, luma, kind.intra), rest, t, BlocksBits(rs, luma, kind.intra))
    decreases |bs|
  {
    hide Passes, Tuned, BlockBits, AtBlocks, WellBlock, OptimizedBlock;
    if bs == [] {
      PassNone(c, s, rest);
      t := s;
    } else {
      var luma1, chroma1 := if luma > 0 then luma - 1 else 0, if luma > 0 then chroma else chroma - 1;
      var a, b := BlockBits(bs[0], luma > 0, kind.intra), BlocksBits(bs[1..], luma1, kind.intra);
      var m := BlockPasses(c, s, bs[0], kind, luma, chroma, scale, b + rest);
      var r, tail := OptimizedBlock(c, scale, kind.intra, bs[0]), OptimizedBlocks(c, scale, kind.intra, bs[1..]);
      var x := BlockBits(r, luma > 0, kind.intra);
      PassSaved(c, s, a, b + rest, m, x);
      PassTuned(c, s, a, b + rest, m, x);
      t := BlocksPass(c, m, bs[1..], kind, luma1, chroma1, scale, rest);
      PassBoth(c, s, a, b, rest, m, x, t, BlocksBits(tail, luma1, kind.intra));
      assert ([r] + tail)[1..] == tail;
    }
  }

  // ---- macroblocks ----

  /** The same macroblock, its blocks optimized for the scale in force. */
  function OptimizedMacroblock(c: Config, scale: nat, mb: MacroblockBits): MacroblockBits
    requires Usable(c) && WellMacroblock(c, mb)
  {
    mb.(blocks := OptimizedBlocks(c, ScaleOf(mb, scale), mb.kind.intra, mb.blocks))
  }

  predicate AtMacroblock(s: Parse, scale: nat) { s.state.MacroblockStart? && s.q.scale == scale }

  /** A macroblock is taken whole, and left as the same one with its blocks optimized. */
  lemma MacroblockPasses(c: Config, s: Parse, mb: MacroblockBits, scale: nat, rest: seq<bool>) returns (t: Parse)
    requires Usable(c) && Saved(s) && Tuned(c, s) && AtMacroblock(s, scale) && WellMacroblock(c, mb) && |rest| >= 24
    ensures t.state.MacroblockEnd? && t.q.scale == ScaleOf(mb, scale)
    ensures var r := OptimizedMacroblock(c, scale, mb);
            WellMacroblock(c, r) && Passes(c, s, CodeOf(c, mb), rest, t, CodeOf(c, r))
  {
    hide Passes, Tuned, HeaderBits, BlocksBits, OptimizedBlocks, TypeVlc, WellVectors, WellBlocks;
    var n, r := CountsOf(mb), OptimizedMacroblock(c, scale, mb);
    var h, b := HeaderBits(c, mb), BlocksBits(mb.blocks, n.luma, mb.kind.intra);
    var m := HeaderPasses(c, s, mb, scale, b + rest);
    PassSaved(c, s, h, b + rest, m, h);
    PassTuned(c, s, h, b + rest, m, h);
    var e := BlocksPass(c, m, mb.blocks, mb.kind, n.luma, n.chroma, ScaleOf(mb, scale), rest);
    assert WellMacroblock(c, r);
    SameHeader(c, mb, r);
    PassBoth(c, s, h, b, rest, m, h, e, BlocksBits(r.blocks, n.luma, mb.kind.intra));
    PassSaved(c, m, b, rest, e, BlocksBits(r.blocks, n.luma, mb.kind.intra));
    t := e.(state := MacroblockEnd);
    PassStep(c, e, [], rest, t);
    assert [] + rest == rest && CodeOf(c, mb) + [] == CodeOf(c, mb) && CodeOf(c, r) + [] == CodeOf(c, r);
    PassBoth(c, s, CodeOf(c, mb), [], rest, e, CodeOf(c, r), t, []);
  }

  lemma SameHeader(c: Config, mb: MacroblockBits, r: MacroblockBits)
    requires WellMacroblock(c, mb) && WellMacroblock(c, r) && r == mb.(blocks := r.blocks)
    ensures HeaderBits(c, r) == HeaderBits(c, mb)
  {
  }

  predicate AllMacroblocks(c: Config, mbs: seq<MacroblockBits>) { forall i :: 0 <= i < |mbs| ==> WellMacroblock(c, mbs[i]) }

  function CodesOf(c: Config, mbs: seq<MacroblockBits>): seq<bool>
    requires AllMacroblocks(c, mbs)
  {
    if mbs == [] then [] else CodeOf(c, mbs[0]) + CodesOf(c, mbs[1..])
  }

  /** A macroblock's scale stays in force for those behind it. */
  function OptimizedMacroblocks(c: Config, scale: nat, mbs: seq<MacroblockBits>): (r: seq<MacroblockBits>)
    requires Usable(c) && AllMacroblocks(c, mbs)
    ensures |r| == |mbs|
    decreases |mbs|
  {
    if mbs == [] then []
    else [OptimizedMacroblock(c, scale, mbs[0])] + OptimizedMacroblocks(c, ScaleOf(mbs[0], scale), mbs[1..])
  }

  /** What follows a slice: bits that are no macroblock, 23 zeros. */
  predicate NoMacroblock(u: seq<bool>) { |u| >= 24 && All(u[..23], false) }

  /** A macroblock's first code is not all zeros. */
  lemma OneSoon(c: Config, mb: MacroblockBits, rest: seq<bool>)
    requires WellMacroblock(c, mb) && |rest| >= 24
    ensures |CodeOf(c, mb) + rest| >= 24 && !All((CodeOf(c, mb) + rest)[..23], false)
  {
    hide TypeVlc, VectorsBits, BlocksBits, PatternBits, ScaleBits;
    var code := if mb.before != [] then AgainVlc(mb.before[0]) else IncrementVlc(mb.increment);
    var i := FirstOne(mb.before != [] && mb.before[0], mb.before != [], if mb.before == [] then mb.increment else 1);
    var u := CodeOf(c, mb) + rest;
    assert u[i] == HeaderBits(c, mb)[i] == code[i];
    assert u[..23][i] == u[i];
  }

  /** The place of the first one in a code that begins a macroblock. */
  lemma FirstOne(escape: bool, again: bool, n: nat) returns (i: nat)
    requires 1 <= n <= 33
    ensures var code := if again then AgainVlc(escape) else IncrementVlc(n); i < |code| <= 11 && code[i]
  {
    var code := if again then AgainVlc(escape) else IncrementVlc(n);
    i := if code[0] then 0 else if code[1] then 1 else if code[2] then 2 else if code[3] then 3 else
         if code[4] then 4 else if code[5] then 5 else if code[6] then 6 else 7;
  }

  lemma {:induction false} MacroblocksPass(c: Config, s: Parse, mbs: seq<MacroblockBits>, scale: nat, rest: seq<bool>)
    returns (t: Parse)
    requires Usable(c) && Saved(s) && Tuned(c, s) && AtMacroblock(s, scale) && mbs != [] && AllMacroblocks(c, mbs) && NoMacroblock(rest)
    ensures t.state.SliceStart?
    ensures var rs := OptimizedMacroblocks(c, scale, mbs);
            AllMacroblocks(c, rs) && Passes(c, s, CodesOf(c, mbs), rest, t, CodesOf(c, rs))
    decreases |mbs|
  {
    hide Passes, Tuned, CodeOf, WellMacroblock, OptimizedMacroblock;
    var mb, a, b := mbs[0], CodeOf(c, mbs[0]), CodesOf(c, mbs[1..]);
    var e := MacroblockPasses(c, s, mb, scale, b + rest);
    var r, tail := OptimizedMacroblock(c, scale, mb), OptimizedMacroblocks(c, ScaleOf(mb, scale), mbs[1..]);
    var x := CodeOf(c, r);
    PassSaved(c, s, a, b + rest, e, x);
    PassTuned(c, s, a, b + rest, e, x);
    var n := e.(state := if mbs[1..] == [] then SliceStart else MacroblockStart);
    AfterMacroblock(c, e, mbs[1..], rest);
    PassTuned(c, e, [], b + rest, n, []);
    assert a + [] == a && x + [] == x && [] + (b + rest) == b + rest && ([r] + tail)[1..] == tail;
    PassBoth(c, s, a, [], b + rest, e, x, n, []);
    if mbs[1..] == [] {
      t := n;
      assert a + b == a && b + rest == rest && x + CodesOf(c, []) == x && tail == [];
    } else {
      PassSaved(c, e, [], b + rest, n, []);
      t := MacroblocksPass(c, n, mbs[1..], ScaleOf(mb, scale), rest);
      PassBoth(c, s, a, b, rest, n, x, t, CodesOf(c, tail));
    }
  }

  /** Behind a macroblock comes another, or no macroblock. */
  lemma AfterMacroblock(c: Config, s: Parse, mbs: seq<MacroblockBits>, rest: seq<bool>)
    requires Usable(c) && Saved(s) && s.state.MacroblockEnd? && AllMacroblocks(c, mbs) && NoMacroblock(rest)
    ensures Passes(c, s, [], CodesOf(c, mbs) + rest, s.(state := if mbs == [] then SliceStart else MacroblockStart), [])
  {
    hide CodeOf, Passes;
    var u := CodesOf(c, mbs) + rest;
    if mbs == [] {
      assert u == rest;
    } else {
      var later := CodesOf(c, mbs[1..]) + rest;
      OneSoon(c, mbs[0], later);
      assert u == CodeOf(c, mbs[0]) + later;
    }
    assert [] + u == u;
    PassStep(c, s, [], u, s.(state := if mbs == [] then SliceStart else MacroblockStart));
  }

  // ---- slices ----

  predicate WellSlice(c: Config, sl: SliceCode)
  {
    && FIRST_SLICE_START_CODE <= sl.position <= LAST_SLICE_START_CODE && 1 <= sl.scale <= 31
    && (forall i :: 0 <= i < |sl.extra| ==> |sl.extra[i]| == 8)
    && sl.macroblocks != [] && AllMacroblocks(c, sl.macroblocks)
  }

  function StartBits(position: nat): seq<bool> { seq(23, _ => false) + [true] + BitsOf(position, 8) }

  /** A one before each byte of extra information, and a zero at the end. */
  function ExtraBits(extra: seq<seq<bool>>): seq<bool>
  {
    if extra == [] then [false] else [true] + (extra[0] + ExtraBits(extra[1..]))
  }

  function SliceBits(c: Config, sl: SliceCode): seq<bool>
    requires WellSlice(c, sl)
  {
    StartBits(sl.position) + (BitsOf(sl.scale, 5) + (ExtraBits(sl.extra) + CodesOf(c, sl.macroblocks)))
  }

  /** The same slice, its macroblocks optimized. */
  function OptimizedSlice(c: Config, sl: SliceCode): SliceCode
    requires Usable(c) && WellSlice(c, sl)
  {
    sl.(macroblocks := OptimizedMacroblocks(c, sl.scale, sl.macroblocks))
  }

  lemma StartRead(position: nat, rest: seq<bool>)
    requires FIRST_SLICE_START_CODE <= position <= LAST_SLICE_START_CODE && |StartBits(position) + rest| % 8 == 0
    ensures var u := StartBits(position) + rest;
            |StartBits(position)| == 32 && NextStart(u) == Found(0) && ValOf(u[24..32]) == position
  {
    hide ValOf, BitsOf;
    var u := StartBits(position) + rest;
    assert u[0..] == u && StartAt(u, 0);
    assert u[24..32] == BitsOf(position, 8);
    Pow2Values();
    ValBits(position, 8);
  }

  lemma StartPasses(c: Config, s: Parse, position: nat, rest: seq<bool>) returns (t: Parse)
    requires Usable(c) && Saved(s) && s.state.SliceStart?
    requires FIRST_SLICE_START_CODE <= position <= LAST_SLICE_START_CODE && |StartBits(position) + rest| % 8 == 0
    ensures t == s.(state := SliceQuant) && Passes(c, s, StartBits(position), rest, t, StartBits(position))
  {
    hide StartBits, NextStart, ValOf, Passes;
    StartRead(position, rest);
    t := s.(state := SliceQuant);
    PassStep(c, s, StartBits(position), rest, t);
  }

  lemma SliceScalePasses(c: Config, s: Parse, scale: nat, rest: seq<bool>) returns (t: Parse)
    requires Usable(c) && Saved(s) && s.state.SliceQuant? && 1 <= scale <= 31
    ensures t.state.SliceExtraFlag? && t.q.scale == scale
    ensures Passes(c, s, BitsOf(scale, 5), rest, t, BitsOf(scale, 5))
  {
    hide CheckQuant, Passes;
    ScaleRead(scale, rest);
    t := Next(c, s, BitsOf(scale, 5) + rest).s;
    PassStep(c, s, BitsOf(scale, 5), rest, t);
  }

  lemma {:induction false} ExtraPasses(c: Config, s: Parse, extra: seq<seq<bool>>, rest: seq<bool>) returns (t: Parse)
    requires Usable(c) && Saved(s) && s.state.SliceExtraFlag? && forall i :: 0 <= i < |extra| ==> |extra[i]| == 8
    ensures t == s.(state := MacroblockStart) && Passes(c, s, ExtraBits(extra), rest, t, ExtraBits(extra))
    decreases |extra|
  {
    hide Passes;
    t := s.(state := MacroblockStart);
    if extra == [] {
      PassStep(c, s, [false], rest, t);
    } else {
      var e, b, d := extra[0], ExtraBits(extra[1..]), s.(state := SliceExtraData);
      assert ([true] + (e + b + rest))[0];
      PassStep(c, s, [true], e + b + rest, d);
      PassStep(c, d, e, b + rest, s);
      var t1 := ExtraPasses(c, s, extra[1..], rest);
      PassBoth(c, d, e, b, rest, s, e, t, b);
      assert e + b + rest == (e + b) + rest;
      PassBoth(c, s, [true], e + b, rest, d, [true], t, e + b);
    }
  }

  lemma SliceHeaderPasses(c: Config, s: Parse, sl: SliceCode, rest: seq<bool>) returns (t: Parse)
    requires Usable(c) && Saved(s) && s.state.SliceStart? && WellSlice(c, sl)
    requires |StartBits(sl.position) + (BitsOf(sl.scale, 5) + ExtraBits(sl.extra) + rest)| % 8 == 0
    ensures AtMacroblock(t, sl.scale)
    ensures var h := StartBits(sl.position) + (BitsOf(sl.scale, 5) + ExtraBits(sl.extra)); Passes(c, s, h, rest, t, h)
  {
    hide Passes, StartBits, ExtraBits, AllMacroblocks, BitsOf;
    var a, b, x := StartBits(sl.position), BitsOf(sl.scale, 5), ExtraBits(sl.extra);
    assert b + x + rest == b + (x + rest) == (b + x) + rest;
    var s1 := StartPasses(c, s, sl.position, b + (x + rest));
    PassSaved(c, s, a, b + (x + rest), s1, a);
    var s2 := SliceScalePasses(c, s1, sl.scale, x + rest);
    PassSaved(c, s1, b, x + rest, s2, b);
    t := ExtraPasses(c, s2, sl.extra, rest);
    PassBoth(c, s1, b, x, rest, s2, b, t, x);
    PassBoth(c, s, a, b + x, rest, s1, a, t, b + x);
  }

  lemma JoinSlice(a: seq<bool>, b: seq<bool>, x: seq<bool>, m: seq<bool>)
    ensures a + (b + (x + m)) == a + (b + x) + m
    ensures a + (b + x + m) == a + (b + (x + m))
  {
  }

  /** For any slice an encoder may write, the output of a run over it and whatever follows is the optimized slice,
      bit for bit in the same places, and the output of the run over what follows. */
  lemma SliceOptimized(c: Config, s: Parse, sl: SliceCode, rest: seq<bool>) returns (t: Parse)
    requires Usable(c) && Saved(s) && Tuned(c, s) && s.state.SliceStart? && WellSlice(c, sl) && NoMacroblock(rest)
    requires |SliceBits(c, sl) + rest| % 8 == 0
    ensures Saved(t) && t.state.SliceStart?
    ensures var r := OptimizedSlice(c, sl);
            && WellSlice(c, r) && |SliceBits(c, r)| == |SliceBits(c, sl)|
            && Output(c, s, SliceBits(c, sl) + rest) == SliceBits(c, r) + Output(c, t, rest)
  {
    hide Passes, Tuned, StartBits, ExtraBits, BitsOf, AllMacroblocks, OptimizedMacroblocks, CodesOf, NoMacroblock, Output;
    var a, b, x, m := StartBits(sl.position), BitsOf(sl.scale, 5), ExtraBits(sl.extra), CodesOf(c, sl.macroblocks);
    var h, r := a + (b + x), OptimizedSlice(c, sl);
    JoinSlice(a, b, x, m);
    JoinSlice(a, b, x, m + rest);
    assert a + (b + x + (m + rest)) == SliceBits(c, sl) + rest;
    var s1 := SliceHeaderPasses(c, s, sl, m + rest);
    PassSaved(c, s, h, m + rest, s1, h);
    PassTuned(c, s, h, m + rest, s1, h);
    t := MacroblocksPass(c, s1, sl.macroblocks, sl.scale, rest);
    PassBoth(c, s, h, m, rest, s1, h, t, CodesOf(c, r.macroblocks));
    JoinSlice(a, b, x, CodesOf(c, r.macroblocks));
    PassedOutput(c, s, SliceBits(c, sl), rest, t, SliceBits(c, r));
  }

  lemma PassedOutput(c: Config, s: Parse, bits: seq<bool>, rest: seq<bool>, t: Parse, w: seq<bool>)
    requires Usable(c) && Passes(c, s, bits, rest, t, w)
    ensures Saved(s) && Saved(t) && |w| == |bits| && Output(c, s, bits + rest) == w + Output(c, t, rest)
  {
    ReachesOutput(StepOf(c), s, bits + rest, t, w);
    assert (bits + rest)[|w|..] == rest;
  }
}
