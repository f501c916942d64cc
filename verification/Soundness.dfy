/** Which bits a run changes, and what the changed coefficients mean (ISO/IEC 11172-2). */
module Soundness {
  import opened Bits
  import opened VlcCodes
  import opened Parser
  import opened Runs
  import opened Rewriting
  import opened Reparsing

  // ---- thresholds ----

  lemma {:induction false} ThresholdsAt(matrix: seq<nat>, scale: nat, i: nat)
    requires scale > 0 && NonZero(matrix) && i < |matrix|
    ensures Thresholds(matrix, scale)[i] == Threshold(matrix[i], scale)
  {
    if i < |matrix| - 1 { ThresholdsAt(matrix[..|matrix| - 1], scale, i); }
  }

  /** A level qualifies exactly when its threshold test passes. */
  lemma ThresholdExact(matrix: seq<nat>, scale: nat, i: nat, level: nat)
    requires scale > 0 && NonZero(matrix) && i < |matrix| && level > 0
    ensures Thresholds(matrix, scale)[i] >= level <==> level * (matrix[i] * scale) < 8
  {
    ThresholdsAt(matrix, scale, i);
    Positive(matrix[i], scale);
    DivBound(matrix[i] * scale, level);
  }

  lemma DivBound(d: nat, level: nat)
    requires d > 0 && level > 0
    ensures 7 / d >= level <==> level * d < 8
  {
    var q := 7 / d;
    assert 7 == q * d + 7 % d;
    if q >= level {
      MulMono(level, q, d);
    } else {
      MulMono(q + 1, level, d);
    }
  }

  lemma MulMono(a: nat, b: nat, d: nat)
    requires a <= b
    ensures a * d <= b * d
  {
  }

  /** An ok flag is raised only when no level of any coefficient qualifies. */
  lemma OkMeansNone(matrix: seq<nat>, least: nat, scale: nat, i: nat, level: nat)
    requires i < |matrix| && 0 < least <= matrix[i] && scale > 0 && level > 0
    requires least >= 8 || scale * least >= 8
    ensures level * (matrix[i] * scale) >= 8
  {
    MulMono(1, scale, least);
    MulMono(least, matrix[i], scale);
    MulMono(1, level, matrix[i] * scale);
    assert scale * least == least * scale;
  }

  /** Above maxindex no level qualifies. */
  lemma BeyondMaxIndex(matrix: seq<nat>, scale: nat, i: nat, level: nat)
    requires scale > 0 && NonZero(matrix) && level > 0
    requires LastPositive(Thresholds(matrix, scale)) < i < |matrix|
    ensures level * (matrix[i] * scale) >= 8
  {
    ThresholdExact(matrix, scale, i, level);
  }

  // ---- the quantizer in force ----

  /** What VCDCheckQuant leaves behind for the scale in force. */
  ghost predicate Current(c: Config, q: Quantizer)
    requires Usable(c)
  {
    && q.scale > 0
    && q.okIntra == (c.okIntraMatrix || q.scale * c.minIntraQuant >= 8)
    && q.okNonIntra == (c.okNonIntraMatrix || q.scale * c.minNonIntraQuant >= 8)
    && (!q.okIntra ==>
        q.intraThresh == Thresholds(c.intraMatrix, q.scale) && q.minIntraIndex == LastPositive(q.intraThresh))
    && (!q.okNonIntra ==>
        q.nonIntraThresh == Thresholds(c.nonIntraMatrix, q.scale) && q.minNonIntraIndex == LastPositive(q.nonIntraThresh))
  }

  /** The table in use belongs to the macroblock's kind, and is one that needs checking. */
  predicate RightTable(s: Parse)
  {
    && (s.state.DcDiff? ==> s.mb.kind.intra && s.b.intraTable && s.b.maxIndex == s.q.minIntraIndex)
    && (Checking(s.state) ==>
        && s.b.intraTable == s.mb.kind.intra
        && !(if s.b.intraTable then s.q.okIntra else s.q.okNonIntra)
        && s.b.maxIndex == if s.b.intraTable then s.q.minIntraIndex else s.q.minNonIntraIndex)
  }

  /** Holds at a slice start and from then on. */
  ghost predicate Tuned(c: Config, s: Parse)
    requires Usable(c)
  {
    (!s.state.SliceStart? && !s.state.SliceQuant? ==> Current(c, s.q)) && RightTable(s)
  }

  lemma CheckQuantCurrent(c: Config, q: Quantizer, scale: nat)
    requires Usable(c) && Tables(q) && scale > 0
    ensures Current(c, CheckQuant(c, q, scale))
  {
  }

  lemma QuantTuned(c: Config, s: Parse, u: seq<bool>, next: State)
    requires Usable(c) && Saved(s) && !InBlock(next) && !next.MacroblockRes?
    ensures var m := QuantMove(c, s, u, next);
            m.done || m.s.state.SliceStart? || (m.s.state == next && Current(c, m.s.q))
    ensures QuantMove(c, s, u, next).done ==> QuantMove(c, s, u, next) == Stall(s)
  {
    if |u| >= 5 && ValOf(u[..5]) > 0 { CheckQuantCurrent(c, s.q, ValOf(u[..5])); }
  }

  /** What every other step keeps. */
  predicate KeepsTable(s: Parse, m: Move) { m.s.q == s.q && RightTable(m.s) }

  lemma HeaderTuned(c: Config, s: Parse, u: seq<bool>)
    requires Saved(s) && RightTable(s)
    ensures s.state.MacroblockStart? ==> KeepsTable(s, AddressMove(s, u))
    ensures s.state.MacroblockType? ==> KeepsTable(s, TypeMove(c, s, u))
    ensures s.state.MacroblockCode? ==> KeepsTable(s, MotionMove(s, u))
    ensures s.state.MacroblockRes? ==> KeepsTable(s, ResidualMove(c, s, u))
    ensures s.state.MacroblockPattern? ==> KeepsTable(s, PatternMove(s, u))
  {
  }

  lemma DcTuned(s: Parse, u: seq<bool>)
    requires Saved(s) && RightTable(s)
    ensures s.state.DcSize? ==> KeepsTable(s, DcSizeMove(s, u))
    ensures s.state.DcDiff? ==> KeepsTable(s, DcDiffMove(s, u))
  {
  }

  lemma OkTuned(s: Parse, u: seq<bool>)
    requires Saved(s) && RightTable(s) && Counts(s.b)
    ensures s.state.RlpOkStage1? ==> KeepsTable(s, OkStage1Move(s, u))
    ensures s.state.RlpOkStage2? ==> KeepsTable(s, OkStage2Move(s, u))
    ensures s.state.RlpOkEscape? ==> KeepsTable(s, OkEscapeMove(s, u))
  {
  }

  lemma CheckTuned(c: Config, s: Parse, u: seq<bool>)
    requires Saved(s) && RightTable(s) && Counts(s.b)
    ensures s.state.RlpCheckStage1? ==> KeepsTable(s, CheckStage1Move(c, s, u))
    ensures s.state.RlpCheckStage2? ==> KeepsTable(s, CheckStage2Move(c, s, u))
    ensures s.state.RlpCheckEscape? ==> KeepsTable(s, EscapeMove(c, s, u))
    ensures s.state.RlpCheckEscape2? ==> KeepsTable(s, Escape2Move(c, s, u))
  {
  }

  /** Every step keeps the tables right. */
  lemma StepTuned(c: Config, s: Parse, u: seq<bool>)
    requires Usable(c) && Saved(s) && Tuned(c, s)
    ensures Tuned(c, Next(c, s, u).s)
  {
    hide AddressCode, TypeCode, MotionCode, PatternCode, LumaDcSize, ChromaDcSize, CheckStage1, OkStage1, CheckStage2, OkStage2, CheckQuant, ThreshAt, SplitNow, SplitEdit;
    match s.state
    case SliceQuant => QuantTuned(c, s, u, SliceExtraFlag);
    case MacroblockQuant => QuantTuned(c, s, u, MacroblockCode);
    case MacroblockStart | MacroblockType | MacroblockCode | MacroblockRes | MacroblockPattern => HeaderTuned(c, s, u);
    case DcSize | DcDiff => DcTuned(s, u);
    case RlpOkStage1 | RlpOkStage2 | RlpOkEscape => OkTuned(s, u);
    case RlpCheckStage1 | RlpCheckStage2 | RlpCheckEscape | RlpCheckEscape2 => CheckTuned(c, s, u);
    case _ =>
  }

  // ---- reconstruction ----

  /** Division truncating towards zero. */
  function Trunc(a: int, b: int): int
    requires b > 0
  {
    if a >= 0 then a / b else -(-a / b)
  }

  function Sign(a: int): int { if a > 0 then 1 else if a < 0 then -1 else 0 }

  /** Mismatch control and saturation of section 2.4.4.1. */
  function Saturated(r: int): int
  {
    var odd := if r % 2 == 0 then r - Sign(r) else r;
    if odd > 2047 then 2047 else if odd < -2048 then -2048 else odd
  }

  function Recon(x: int): int { Saturated(Trunc(x, 16)) }

  /** An intra coefficient, section 2.4.4.1 of ISO/IEC 11172-2. */
  function IntraRecon(level: int, matrix: nat, scale: nat): int
  {
    Recon(2 * level * (matrix * scale))
  }

  /** A non-intra coefficient, section 2.4.4.2 of ISO/IEC 11172-2. */
  function NonIntraRecon(level: int, matrix: nat, scale: nat): int
  {
    Recon((2 * level + Sign(level)) * (matrix * scale))
  }

  lemma ReconSame(x: int)
    requires x >= 0
    ensures x < 16 <==> Recon(-x) == Recon(x)
    ensures x < 16 ==> Recon(x) == 0
  {
  }

  lemma MulNeg(a: int, b: nat)
    ensures (-a) * b == -(a * b)
    ensures a >= 0 ==> a * b >= 0
  {
  }

  lemma MulTwice(a: int, b: nat)
    ensures (2 * a) * b == 2 * (a * b)
  {
  }

  /** A level and its negation are the same intra coefficient exactly when the level qualifies. */
  lemma IntraSame(level: int, matrix: nat, scale: nat)
    requires level > 0
    ensures level * (matrix * scale) < 8 <==> IntraRecon(-level, matrix, scale) == IntraRecon(level, matrix, scale)
    ensures level * (matrix * scale) < 8 ==> IntraRecon(level, matrix, scale) == 0
  {
    var d := matrix * scale;
    MulTwice(level, d);
    MulNeg(2 * level, d);
    ReconSame(2 * level * d);
    assert 2 * -level == -(2 * level);
  }

  /** For a non-intra coefficient the condition is another, stricter one. */
  lemma NonIntraSame(level: int, matrix: nat, scale: nat)
    requires level > 0
    ensures (2 * level + 1) * (matrix * scale) < 16 <==>
            NonIntraRecon(-level, matrix, scale) == NonIntraRecon(level, matrix, scale)
  {
    var d := matrix * scale;
    MulNeg(2 * level + 1, d);
    ReconSame((2 * level + 1) * d);
    assert 2 * -level + Sign(-level) == -(2 * level + 1);
  }

  /** So a qualifying non-intra coefficient can change: level 1 with matrix entry 7 at scale 1. */
  lemma NonIntraCanChange()
    ensures 1 * (7 * 1) < 8 && NonIntraRecon(-1, 7, 1) == -1 && NonIntraRecon(1, 7, 1) == 1
  {
  }

  // ---- what a run changes ----

  /** The magnitude a step has just parsed, in one of the checking states. */
  function StepLevel(s: Parse, u: seq<bool>): nat
  {
    match s.state
    case RlpCheckStage1 => (match CheckStage1(u, s.b.coefFirst) case Coef(_, _, level, _) => level case _ => 0)
    case RlpCheckStage2 => (match CheckStage2(u) case Coef(_, _, level, _) => level case _ => 0)
    case RlpCheckEscape => if |u| >= 8 && ValOf(u[..8]) <= 256 then 256 - ValOf(u[..8]) else 0
    case _ => 0
  }

  function Matrix(c: Config, intra: bool): seq<nat> { if intra then c.intraMatrix else c.nonIntraMatrix }

  /** A sign bit cleared, or an escape level byte negated; and below index 64 the level qualifies. */
  ghost predicate Harmless(c: Config, len: nat, index: nat, level: nat, intra: bool, scale: nat,
                           before: seq<bool>, after: seq<bool>)
    requires Usable(c)
  {
    && level > 0
    && ((len == 1 && before == [true] && after == [false]) ||
        (len == 8 == |before| == |after| && ValOf(before) == 256 - level && ValOf(after) == level))
    && (index < 64 ==> level * (Matrix(c, intra)[index] * scale) < 8)
  }

  lemma LevelQualifies(c: Config, s: Parse, i: nat, level: nat, t: nat)
    requires Usable(c) && Saved(s) && Tuned(c, s) && Checking(s.state) && level > 0
    requires t == ThreshAt(c, s.q, s.b.intraTable, i) && t >= level
    ensures i < 64 ==> level * (Matrix(c, s.b.intraTable)[i] * s.q.scale) < 8
  {
    if i < 64 { ThresholdExact(Matrix(c, s.b.intraTable), s.q.scale, i, level); }
  }

  /** A tested coefficient code: what its threshold test guarantees when the sign is cleared. */
  lemma CoefHarmless(c: Config, s: Parse, u: seq<bool>, len: nat, run: nat, level: nat, tested: bool)
    requires Usable(c) && Saved(s) && Tuned(c, s) && Checking(s.state) && Counts(s.b) && 0 < len <= |u| && level > 0
    ensures var m := CoefMove(c, s, u, len, run, level, tested);
            && m.s.b.coefIndex > 0 && m.used == len
            && (m.edit != [] ==>
                && |m.edit| == 1
                && Harmless(c, 1, m.s.b.coefIndex - 1, level, s.b.intraTable, s.q.scale, u[len - 1..len], m.edit))
  {
    var i := s.b.coefIndex + run;
    var t := ThreshAt(c, s.q, s.b.intraTable, i);
    if t >= level { LevelQualifies(c, s, i, level, t); }
  }

  /** Some edit of a checking step, seen from before the step. */
  ghost predicate EditHarmless(c: Config, s: Parse, u: seq<bool>, m: Move)
    requires Usable(c) && Proper(m, u)
  {
    && m.s.b.coefIndex > 0
    && Harmless(c, |m.edit|, m.s.b.coefIndex - 1, StepLevel(s, u), s.b.intraTable, s.q.scale,
                u[m.used - |m.edit|..m.used], m.edit)
  }

  lemma EscapeHarmless(c: Config, s: Parse, u: seq<bool>)
    requires Usable(c) && Saved(s) && Tuned(c, s) && s.state.RlpCheckEscape?
    requires !EscapeMove(c, s, u).done && EscapeMove(c, s, u).edit != []
    ensures EditHarmless(c, s, u, EscapeMove(c, s, u))
  {
    var i, t := s.b.coefIndex, ThreshAt(c, s.q, s.b.intraTable, s.b.coefIndex);
    var w := u[..8];
    NegatedBits(w, t);
    EscapeEdit(c, s, u, w);
    LevelQualifies(c, s, i, 256 - ValOf(w), t);
    assert Harmless(c, 8, i, 256 - ValOf(w), s.b.intraTable, s.q.scale, w, Negated(w));
  }

  lemma EscapeEdit(c: Config, s: Parse, u: seq<bool>, w: seq<bool>)
    requires Saved(s) && s.state.RlpCheckEscape? && !EscapeMove(c, s, u).done && EscapeMove(c, s, u).edit != []
    requires |u| >= 8 && w == u[..8] && ValOf(w) <= 256
    ensures var m := EscapeMove(c, s, u);
            && m.used == 8 && m.edit == Negated(w) && m.s.b.coefIndex == s.b.coefIndex + 1
            && u[m.used - |m.edit|..m.used] == w && StepLevel(s, u) == 256 - ValOf(w)
  {
  }

  lemma Stage1Harmless(c: Config, s: Parse, u: seq<bool>)
    requires Usable(c) && Saved(s) && Tuned(c, s) && s.state.RlpCheckStage1? && CheckStage1Move(c, s, u).edit != []
    ensures EditHarmless(c, s, u, CheckStage1Move(c, s, u))
  {
    var r := CheckStage1(u, s.b.coefFirst);
    if r.Coef? && r.level > 0 { CoefHarmless(c, s.(b := s.b.(coefFirst := false)), u, r.len, r.run, r.level, r.tested); }
  }

  lemma Stage2Harmless(c: Config, s: Parse, u: seq<bool>)
    requires Usable(c) && Saved(s) && Tuned(c, s) && s.state.RlpCheckStage2? && CheckStage2Move(c, s, u).edit != []
    ensures EditHarmless(c, s, u, CheckStage2Move(c, s, u))
  {
    var r := CheckStage2(u);
    if r.Coef? && r.level > 0 { CoefHarmless(c, s, u, r.len, r.run, r.level, r.tested); }
  }

  /** What a step overwrites. */
  lemma StepHarmless(c: Config, s: Parse, u: seq<bool>)
    requires Usable(c) && Saved(s) && Tuned(c, s)
    requires !s.state.RlpCheckEscape2? && !Next(c, s, u).s.state.RlpCheckEscape2? && Next(c, s, u).edit != []
    ensures EditHarmless(c, s, u, Next(c, s, u))
  {
    match s.state
    case RlpCheckStage1 => Stage1Harmless(c, s, u);
    case RlpCheckStage2 => Stage2Harmless(c, s, u);
    case RlpCheckEscape => EscapeHarmless(c, s, u);
    case _ =>
  }

  ghost function Judge(c: Config): Verdict
    requires Usable(c)
  {
    (ch: Change, before, after) => Harmless(c, ch.len, ch.index, ch.level, ch.intra, ch.scale, before, after)
  }

  /** Everything a run changes is harmless: sign bits of codes and level bytes of escapes, and a
      changed coefficient below index 64 qualifies, so an intra one is reconstructed as 0 both ways. */
  lemma ChangesHarmless(c: Config, s: Parse, u: seq<bool>, p: nat, ch: Change)
    requires Usable(c) && Saved(s) && Tuned(c, s) && Lawful(StepOf(c)) && Unsplit(StepOf(c), s, u)
    requires Makes(StepOf(c), StepLevel, s, u, p, ch)
    ensures Passes(ch, u, Output(c, s, u), p, Judge(c))
  {
    hide Next, StepLevel, Harmless;
    var next := StepOf(c);
    var inv := s => Tuned(c, s);
    var fine := Judge(c);
    forall s, u | Saved(s) && inv(s)
      ensures inv(next(s, u).s)
    {
      StepTuned(c, s, u);
    }
    forall s, u, p: nat | Saved(s) && inv(s) && !s.state.RlpCheckEscape2? && !next(s, u).s.state.RlpCheckEscape2? && next(s, u).edit != []
      ensures var m := next(s, u); fine(StepChange(StepLevel, s, u, m, p), u[m.used - |m.edit|..m.used], m.edit)
    {
      StepHarmless(c, s, u);
    }
    RunPasses(next, StepLevel, inv, fine, s, u, p, ch);
  }

  /** A harmless change of an intra coefficient does not show: 0 before, 0 after. */
  lemma IntraUnseen(c: Config, ch: Change, before: seq<bool>, after: seq<bool>)
    requires Usable(c) && Judge(c)(ch, before, after) && ch.intra && ch.index < 64
    ensures IntraRecon(0 - ch.level, c.intraMatrix[ch.index], ch.scale) == 0
    ensures IntraRecon(ch.level, c.intraMatrix[ch.index], ch.scale) == 0
  {
    IntraSame(ch.level, c.intraMatrix[ch.index], ch.scale);
  }
}
