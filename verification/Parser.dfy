/** DoVCDOptimize as a transition function on the unread bits: one state of the big switch per step. */
module Parser {
  import opened Bits
  import opened StartCodes
  import opened VlcCodes

  datatype State =
    | SliceStart | SliceQuant | SliceExtraFlag | SliceExtraData
    | MacroblockStart | MacroblockType | MacroblockQuant | MacroblockCode | MacroblockRes | MacroblockPattern
    | BlockStart | DcSize | DcDiff
    | RlpOkStage1 | RlpOkStage2 | RlpOkEscape
    | RlpCheckStage1 | RlpCheckStage2 | RlpCheckEscape | RlpCheckEscape2
    | MacroblockEnd

  const FIRST_SLICE_START_CODE := 0x01
  const LAST_SLICE_START_CODE := 0xAF

  /** What InitVCDOptimize takes from the stream, and what the picture header says. */
  datatype Config = Config(
    picture: PictureType,
    intraMatrix: seq<nat>, nonIntraMatrix: seq<nat>,
    forwardRSize: nat, backwardRSize: nat,
    minIntraQuant: nat, minNonIntraQuant: nat,
    okIntraMatrix: bool, okNonIntraMatrix: bool,
    beyond: nat -> nat)  // bytes after the two threshold tables, for an index that runs past them

  /** quantizer_scale and what VCDCheckQuant derives from it. */
  datatype Quantizer = Quantizer(
    scale: nat, okIntra: bool, okNonIntra: bool,
    intraThresh: seq<nat>, nonIntraThresh: seq<nat>,
    minIntraIndex: nat, minNonIntraIndex: nat)

  datatype Macroblock = Macroblock(kind: MbType, fvect: nat, bvect: nat)

  /** Blocks left in the macroblock, and the block being parsed. */
  datatype Block = Block(
    luma: nat, chroma: nat,
    dcSize: nat, coefFirst: bool, coefIndex: nat, maxIndex: nat,
    intraTable: bool)  // which table thresh points at

  /** A level split over two buffers. */
  datatype Split = Split(numBits: nat, floor: bool, allZeros: bool, allOnes: bool)

  /** The parser's own fields of VCDOPT_INFO. */
  datatype Parse = Parse(state: State, q: Quantizer, mb: Macroblock, b: Block, split: Split)

  predicate InBlock(st: State)
  {
    st.DcSize? || st.DcDiff? || st.RlpOkStage1? || st.RlpOkStage2? || st.RlpOkEscape? ||
    st.RlpCheckStage1? || st.RlpCheckStage2? || st.RlpCheckEscape? || st.RlpCheckEscape2?
  }

  predicate Checking(st: State)
  {
    st.RlpCheckStage1? || st.RlpCheckStage2? || st.RlpCheckEscape? || st.RlpCheckEscape2?
  }

  predicate Counts(b: Block) { b.luma + b.chroma > 0 }

  predicate Tables(q: Quantizer) { |q.intraThresh| == |q.nonIntraThresh| == 64 }

  /** What every saved state satisfies. */
  predicate Saved(s: Parse)
  {
    && Tables(s.q) && s.b.dcSize <= 8
    && (s.state.MacroblockRes? ==> s.mb.fvect + s.mb.bvect > 0)
    && (InBlock(s.state) ==> Counts(s.b))
    && (s.state.RlpCheckEscape2? ==> 1 <= s.split.numBits <= 7)
  }

  /** What InitVCDOptimize establishes, when neither matrix has a zero entry. */
  predicate Usable(c: Config)
  {
    && |c.intraMatrix| == |c.nonIntraMatrix| == 64
    && (forall i :: 0 <= i < 64 ==> 1 <= c.minIntraQuant <= c.intraMatrix[i])
    && (forall i :: 0 <= i < 64 ==> 1 <= c.minNonIntraQuant <= c.nonIntraMatrix[i])
    && c.okIntraMatrix == (c.minIntraQuant >= 8)
    && c.okNonIntraMatrix == (c.minNonIntraQuant >= 8)
    && c.forwardRSize <= 7 && c.backwardRSize <= 7
  }

  /** One step: the new state, how many bits it consumes, what overwrites the last of them, and
      whether bsDone is set. */
  datatype Move = Move(s: Parse, used: nat, edit: seq<bool>, done: bool)

  function Stall(s: Parse): Move { Move(s, 0, [], true) }

  function Go(s: Parse, used: nat, state: State): Move { Move(s.(state := state), used, [], false) }

  predicate Proper(m: Move, u: seq<bool>)
  {
    |m.edit| <= m.used <= |u| && Saved(m.s) && (m.done && m.edit != [] ==> m.s.state.RlpCheckEscape2?)
  }

  // ---- thresholds ----

  /** No entry is zero. */
  predicate NonZero(matrix: seq<nat>) { forall i :: 0 <= i < |matrix| ==> matrix[i] > 0 }

  /** The largest level a threshold of 7 admits for one matrix entry. */
  function Threshold(entry: nat, scale: nat): nat
    requires entry > 0 && scale > 0
  {
    Positive(entry, scale);
    7 / (entry * scale)
  }

  lemma Positive(a: nat, b: nat)
    requires a > 0 && b > 0
    ensures a * b > 0
  {
  }

  /** 7 / (matrix[i] * scale) for every coefficient. */
  function Thresholds(matrix: seq<nat>, scale: nat): (t: seq<nat>)
    requires scale > 0 && NonZero(matrix)
    ensures |t| == |matrix|
  {
    if matrix == [] then []
    else Thresholds(matrix[..|matrix| - 1], scale) + [Threshold(matrix[|matrix| - 1], scale)]
  }

  /** The last index with a positive threshold, or 0. */
  function LastPositive(t: seq<nat>): (i: nat)
    ensures i == 0 || (i < |t| && t[i] > 0)
    ensures forall j :: i < j < |t| ==> t[j] == 0
  {
    if |t| <= 1 then 0
    else if t[|t| - 1] > 0 then |t| - 1
    else LastPositive(t[..|t| - 1])
  }

  /** VCDCheckQuant for a new scale. */
  function CheckQuant(c: Config, q: Quantizer, scale: nat): (r: Quantizer)
    requires Usable(c) && Tables(q) && scale > 0
    ensures Tables(r) && r.scale == scale
  {
    var q1 :=
      if c.okIntraMatrix || scale * c.minIntraQuant >= 8 then q.(scale := scale, okIntra := true)
      else
        var t := Thresholds(c.intraMatrix, scale);
        q.(scale := scale, okIntra := false, intraThresh := t, minIntraIndex := LastPositive(t));
    if c.okNonIntraMatrix || scale * c.minNonIntraQuant >= 8 then q1.(okNonIntra := true)
    else
      var t := Thresholds(c.nonIntraMatrix, scale);
      q1.(okNonIntra := false, nonIntraThresh := t, minNonIntraIndex := LastPositive(t))
  }

  /** thresh[i]: past the end of the intra table lies the non-intra table. */
  function ThreshAt(c: Config, q: Quantizer, intraTable: bool, i: nat): nat
    requires Tables(q)
  {
    if i < 64 then (if intraTable then q.intraThresh[i] else q.nonIntraThresh[i])
    else if intraTable && i < 128 then q.nonIntraThresh[i - 64]
    else c.beyond(i)
  }

  // ---- slice header ----

  function SliceStartMove(s: Parse, u: seq<bool>): (m: Move)
    requires Saved(s)
    ensures Proper(m, u)
  {
    var r := NextStart(u);
    if r.Found? && FIRST_SLICE_START_CODE <= ValOf(u[r.at + 24..r.Len()]) <= LAST_SLICE_START_CODE then
      Go(s, r.Len(), SliceQuant)
    else Move(s, r.Len(), [], true)
  }

  /** Five bits of quantizer scale; zero means lost. */
  function QuantMove(c: Config, s: Parse, u: seq<bool>, next: State): (m: Move)
    requires Usable(c) && Saved(s) && !InBlock(next) && !next.MacroblockRes?
    ensures Proper(m, u)
  {
    if |u| < 5 then Stall(s)
    else
      var scale := ValOf(u[..5]);
      if scale == 0 then Go(s.(q := s.q.(scale := 0)), 5, SliceStart)
      else Go(s.(q := CheckQuant(c, s.q, scale)), 5, next)
  }

  function ExtraMove(s: Parse, u: seq<bool>): (m: Move)
    requires Saved(s) && (s.state.SliceExtraFlag? || s.state.SliceExtraData?)
    ensures Proper(m, u)
  {
    if |u| < (if s.state.SliceExtraFlag? then 1 else 8) then Stall(s)
    else if s.state.SliceExtraFlag? then Go(s, 1, if u[0] then SliceExtraData else MacroblockStart)
    else Go(s, 8, SliceExtraFlag)
  }

  // ---- macroblock header ----

  function AddressMove(s: Parse, u: seq<bool>): (m: Move)
    requires Saved(s)
    ensures Proper(m, u)
  {
    if |u| < 11 then Stall(s)
    else
      match AddressCode(u)
      case Lost => Go(s, 0, SliceStart)
      case Code(len, a) => Go(s, len, if a.Again? then MacroblockStart else MacroblockType)
  }

  function TypeMove(c: Config, s: Parse, u: seq<bool>): (m: Move)
    requires Saved(s)
    ensures Proper(m, u)
  {
    if |u| < 6 then Stall(s)
    else
      match TypeCode(c.picture, u)
      case Lost => Go(s, 0, SliceStart)
      case Code(len, kind) => Go(s.(mb := s.mb.(kind := kind)), len, MacroblockQuant)
  }

  function Vectors(mb: Macroblock): Macroblock
  {
    mb.(fvect := if mb.kind.forward then 2 else 0, bvect := if mb.kind.backward then 2 else 0)
  }

  /** The vector counts are set only once the quantizer has been read. */
  function MacroblockQuantMove(c: Config, s: Parse, u: seq<bool>): (m: Move)
    requires Usable(c) && Saved(s)
    ensures Proper(m, u)
  {
    var m := if s.mb.kind.quant then QuantMove(c, s, u, MacroblockCode) else Go(s, 0, MacroblockCode);
    if m.s.state.MacroblockCode? && !m.done then m.(s := m.s.(mb := Vectors(s.mb))) else m
  }

  function DropVector(mb: Macroblock): Macroblock
    requires mb.fvect + mb.bvect > 0
  {
    if mb.fvect > 0 then mb.(fvect := mb.fvect - 1) else mb.(bvect := mb.bvect - 1)
  }

  function MotionMove(s: Parse, u: seq<bool>): (m: Move)
    requires Saved(s)
    ensures Proper(m, u)
  {
    if s.mb.fvect == 0 && s.mb.bvect == 0 then Go(s, 0, MacroblockPattern)
    else if |u| < 11 then Stall(s)
    else
      match MotionCode(u)
      case Lost => Go(s, 0, SliceStart)
      case Code(len, residual) =>
        if residual then Go(s, len, MacroblockRes) else Go(s.(mb := DropVector(s.mb)), len, MacroblockCode)
  }

  function ResidualMove(c: Config, s: Parse, u: seq<bool>): (m: Move)
    requires Saved(s) && s.state.MacroblockRes?
    ensures Proper(m, u)
  {
    var size := if s.mb.fvect > 0 then c.forwardRSize else c.backwardRSize;
    if |u| < size then Stall(s) else Go(s.(mb := DropVector(s.mb)), size, MacroblockCode)
  }

  function PatternMove(s: Parse, u: seq<bool>): (m: Move)
    requires Saved(s)
    ensures Proper(m, u)
  {
    if !s.mb.kind.pattern then
      var n := if s.mb.kind.intra then Blocks(4, 2) else Blocks(0, 0);
      Go(s.(b := s.b.(luma := n.luma, chroma := n.chroma)), 0, BlockStart)
    else if |u| < 9 then Stall(s)
    else
      match PatternCode(u)
      case Lost => Go(s, 0, SliceStart)
      case Code(len, n) => Go(s.(b := s.b.(luma := n.luma, chroma := n.chroma)), len, BlockStart)
  }

  // ---- blocks ----

  function BlockStartMove(s: Parse, u: seq<bool>): (m: Move)
    requires Saved(s)
    ensures Proper(m, u)
  {
    Go(s, 0, if s.b.luma == 0 && s.b.chroma == 0 then MacroblockEnd else DcSize)
  }

  function DropBlock(b: Block): Block
    requires Counts(b)
  {
    if b.luma > 0 then b.(luma := b.luma - 1) else b.(chroma := b.chroma - 1)
  }

  function DcSizeMove(s: Parse, u: seq<bool>): (m: Move)
    requires Saved(s) && s.state.DcSize?
    ensures Proper(m, u)
  {
    if !s.mb.kind.intra then
      var b := s.b.(coefFirst := true, intraTable := false, maxIndex := s.q.minNonIntraIndex);
      if s.q.okNonIntra then Go(s.(b := b), 0, RlpOkStage1)
      else Go(s.(b := b.(coefIndex := 0)), 0, RlpCheckStage1)
    else IntraSizeMove(s.(b := s.b.(coefFirst := false, intraTable := true, maxIndex := s.q.minIntraIndex)), u)
  }

  function IntraSizeMove(s: Parse, u: seq<bool>): (m: Move)
    requires Saved(s) && s.state.DcSize?
    ensures Proper(m, u)
  {
    if |u| < (if s.b.luma > 0 then 7 else 8) then Stall(s)
    else
      match if s.b.luma > 0 then LumaDcSize(u) else ChromaDcSize(u)
      case Lost => Go(s, 0, SliceStart)
      case Code(len, size) => Go(s.(b := s.b.(dcSize := size)), len, DcDiff)
  }

  function DcDiffMove(s: Parse, u: seq<bool>): (m: Move)
    requires Saved(s) && s.state.DcDiff?
    ensures Proper(m, u)
  {
    if |u| < s.b.dcSize then Stall(s)
    else if s.q.okIntra then Go(s, s.b.dcSize, RlpOkStage1)
    else Go(s.(b := s.b.(coefIndex := 1)), s.b.dcSize, RlpCheckStage1)
  }

  function OkStage1Move(s: Parse, u: seq<bool>): (m: Move)
    requires Saved(s) && Counts(s.b)
    ensures Proper(m, u)
  {
    var s1 := s.(b := s.b.(coefFirst := false));
    match OkStage1(u, s.b.coefFirst)
    case Short => Stall(s)
    case Cut => Stall(s1)
    case EndOfBlock => Go(s1.(b := DropBlock(s1.b)), 2, BlockStart)
    case Coef(len, _, _, _) => Go(s1, len, RlpOkStage1)
    case Escape => Go(s1, 12, RlpOkEscape)
    case SecondTable => Go(s1, 6, RlpOkStage2)
    case Bad => Go(s1, 0, SliceStart)
  }

  function OkStage2Move(s: Parse, u: seq<bool>): (m: Move)
    requires Saved(s) && Counts(s.b)
    ensures Proper(m, u)
  {
    match OkStage2(u)
    case Coef(len, _, _, _) => Go(s, len, RlpOkStage1)
    case Bad => Go(s, 0, SliceStart)
    case _ => Stall(s)
  }

  function OkEscapeMove(s: Parse, u: seq<bool>): (m: Move)
    requires Saved(s) && Counts(s.b)
    ensures Proper(m, u)
  {
    if |u| < 8 || |u| < EscapeLen(u) then Stall(s) else Go(s, EscapeLen(u), RlpOkStage1)
  }

  /** On to the next coefficient; beyond maxindex nothing needs checking. */
  function NextCoef(s: Parse, index: nat): Parse
  {
    s.(b := s.b.(coefIndex := index + 1),
       state := if index + 1 > s.b.maxIndex then RlpOkStage1 else RlpCheckStage1)
  }

  /** A code of len bits, sign last: negative and not above the threshold turns positive. */
  function CoefMove(c: Config, s: Parse, u: seq<bool>, len: nat, run: nat, level: nat, tested: bool): (m: Move)
    requires Saved(s) && Counts(s.b) && 0 < len <= |u|
    ensures Proper(m, u)
  {
    var index := s.b.coefIndex + run;
    var flip := u[len - 1] && tested && ThreshAt(c, s.q, s.b.intraTable, index) >= level;
    Move(NextCoef(s, index), len, if flip then [false] else [], false)
  }

  function CheckStage1Move(c: Config, s: Parse, u: seq<bool>): (m: Move)
    requires Saved(s) && Counts(s.b)
    ensures Proper(m, u)
  {
    var s1 := s.(b := s.b.(coefFirst := false));
    match CheckStage1(u, s.b.coefFirst)
    case Short | Cut => Stall(s)
    case EndOfBlock => Go(s.(b := DropBlock(s.b)), 2, BlockStart)
    case Coef(len, run, level, tested) => CoefMove(c, s1, u, len, run, level, tested)
    case Escape => CheckRunMove(c, s1, u)
    case SecondTable => Go(s1, 6, RlpCheckStage2)
    case Bad => Go(s1, 0, SliceStart)
  }

  /** Escape code and run; a threshold of 0 there turns checking off. */
  function CheckRunMove(c: Config, s: Parse, u: seq<bool>): (m: Move)
    requires Saved(s) && Counts(s.b) && |u| >= 12
    ensures Proper(m, u)
  {
    var index := s.b.coefIndex + ValOf(u[6..12]);
    Go(s.(b := s.b.(coefIndex := index)), 12,
       if ThreshAt(c, s.q, s.b.intraTable, index) > 0 then RlpCheckEscape else RlpOkEscape)
  }

  function CheckStage2Move(c: Config, s: Parse, u: seq<bool>): (m: Move)
    requires Saved(s) && Counts(s.b)
    ensures Proper(m, u)
  {
    match CheckStage2(u)
    case Coef(len, run, level, tested) => CoefMove(c, s, u, len, run, level, tested)
    case Bad => Go(s, 0, SliceStart)
    case _ => Stall(s)
  }

  /** A level of -8 to -1 whose magnitude the threshold covers. */
  predicate SmallNegative(w: seq<bool>, thresh: nat)
    requires |w| >= 8
  {
    w[0] && w[1] && w[2] && w[3] && w[4] && thresh >= 8 - Three(w[5], w[6], w[7])
  }

  /** (~value + 1) & 0xff */
  function Negated(b: seq<bool>): (r: seq<bool>)
    requires |b| == 8
    ensures |r| == 8
  {
    BitsVal(b);
    Pow2Values();
    BitsOf((256 - ValOf(b)) % 256, 8)
  }

  function EscapeMove(c: Config, s: Parse, u: seq<bool>): (m: Move)
    requires Saved(s) && Counts(s.b)
    ensures Proper(m, u)
  {
    var t := ThreshAt(c, s.q, s.b.intraTable, s.b.coefIndex);
    if |u| < 8 then (if |u| > 0 && u[0] then SplitMove(s, u, t) else Stall(s))
    else if |u| < EscapeLen(u) then Stall(s)
    else
      var flip := EscapeLen(u) == 8 && SmallNegative(u, t);
      Move(NextCoef(s, s.b.coefIndex), EscapeLen(u), if flip then Negated(u[..8]) else [], false)
  }

  predicate All(b: seq<bool>, v: bool) { forall i :: 0 <= i < |b| ==> b[i] == v }

  /** The buffer ends inside a negative level: what can be decided already, and whether to round. */
  function SplitMove(s: Parse, u: seq<bool>, t: nat): (m: Move)
    requires Saved(s) && Counts(s.b) && 0 < |u| < 8
    ensures Proper(m, u)
  {
    var ones := All(if |u| <= 5 then u[1..] else u[1..5], true);
    var e := if ones then SplitNow(u, t) else (false, []);
    Move(s.(state := RlpCheckEscape2, split := Split(|u|, e.0, All(u[1..], false), ones)), |u|, e.1, true)
  }

  function SplitNow(u: seq<bool>, t: nat): (e: (bool, seq<bool>))
    requires 0 < |u| < 8
    ensures |e.1| <= |u|
  {
    if |u| < 6 then (false, [])
    else if |u| == 6 then
      if !u[5] then (t == 7, [])
      else if t == 7 then (true, BitsOf(0x1, 6))
      else (t == 3, [])
    else if !u[5] then
      if t == 7 then (true, BitsOf(0x3, 7)) else (false, [])
    else if !u[6] then
      if t == 7 then (true, BitsOf(0x2, 7)) else (t == 3, [])
    else (true, if t >= 2 then BitsOf(0x1, 7) else [])
  }

  /** The rest of a split level, rounded to what the first half allows. */
  function SplitEdit(t: nat, p: Split, w: seq<bool>): (edit: seq<bool>)
    requires 1 <= p.numBits <= 7 && |w| == 8 - p.numBits
    ensures |edit| <= |w|
  {
    if p.numBits == 7 then (if p.allOnes && p.floor then [false] else [])
    else if p.numBits == 6 then (if p.allOnes && p.floor then [false, false] else [])
    else if (p.numBits > 1 && !p.allOnes) || !All(w[..|w| - 3], true) then []
    else if t == 7 then [false, false, false]
    else if !w[|w| - 3] then []
    else if t >= 2 then [false, false]
    else if w[|w| - 2] && t == 1 then [false]
    else []
  }

  function Escape2Move(c: Config, s: Parse, u: seq<bool>): (m: Move)
    requires Saved(s) && s.state.RlpCheckEscape2?
    ensures Proper(m, u)
  {
    var n := 8 - s.split.numBits;
    if |u| < n then Stall(s)
    else if s.split.allZeros && ValOf(u[..n]) == 0 then
      if |u| < n + 8 then Stall(s) else Move(NextCoef(s, s.b.coefIndex), n + 8, [], false)
    else
      var t := ThreshAt(c, s.q, s.b.intraTable, s.b.coefIndex);
      Move(NextCoef(s, s.b.coefIndex), n, SplitEdit(t, s.split, u[..n]), false)
  }

  function MacroblockEndMove(s: Parse, u: seq<bool>): (m: Move)
    requires Saved(s)
    ensures Proper(m, u)
  {
    if |u| < 24 then Stall(s) else Go(s, 0, if All(u[..23], false) then SliceStart else MacroblockStart)
  }

  /** One trip through the switch, from one state to the next. */
  function Next(c: Config, s: Parse, u: seq<bool>): (m: Move)
    requires Usable(c) && Saved(s)
    ensures Proper(m, u)
  {
    match s.state
    case SliceStart => SliceStartMove(s, u)
    case SliceQuant => QuantMove(c, s, u, SliceExtraFlag)
    case SliceExtraFlag | SliceExtraData => ExtraMove(s, u)
    case MacroblockStart => AddressMove(s, u)
    case MacroblockType => TypeMove(c, s, u)
    case MacroblockQuant => MacroblockQuantMove(c, s, u)
    case MacroblockCode => MotionMove(s, u)
    case MacroblockRes => ResidualMove(c, s, u)
    case MacroblockPattern => PatternMove(s, u)
    case BlockStart => BlockStartMove(s, u)
    case DcSize => DcSizeMove(s, u)
    case DcDiff => DcDiffMove(s, u)
    case RlpOkStage1 => OkStage1Move(s, u)
    case RlpOkStage2 => OkStage2Move(s, u)
    case RlpOkEscape => OkEscapeMove(s, u)
    case RlpCheckStage1 => CheckStage1Move(c, s, u)
    case RlpCheckStage2 => CheckStage2Move(c, s, u)
    case RlpCheckEscape => EscapeMove(c, s, u)
    case RlpCheckEscape2 => Escape2Move(c, s, u)
    case MacroblockEnd => MacroblockEndMove(s, u)
  }
}
