/** Parsing what a run has written visits the same states at the same places and changes nothing. */
module Reparsing {
  import opened Bits
  import opened StartCodes
  import opened VlcCodes
  import opened Parser
  import opened Runs
  import opened Rewriting

  /** v has the length of u and its first n bits. */
  ghost predicate Agree(u: seq<bool>, v: seq<bool>, n: nat)
  {
    |u| == |v| && n <= |u| && forall i :: 0 <= i < n ==> v[i] == u[i]
  }

  // ---- codes are known by their own bits ----

  lemma {:induction false} ScanAgree(a: seq<bool>, b: seq<bool>)
    requires Scan(a).Found? && Agree(a, b, Scan(a).Len())
    ensures Scan(b) == Scan(a)
    decreases |a|
  {
    if !StartAt(a, 0) {
      ScanAgree(a[SkipLen(a)..], b[SkipLen(a)..]);
    }
  }

  lemma AddressAgree(u: seq<bool>, v: seq<bool>)
    requires |u| >= 11 && AddressCode(u).Code? && Agree(u, v, AddressCode(u).len)
    ensures AddressCode(v) == AddressCode(u)
  {
  }

  lemma TypeAgree(p: PictureType, u: seq<bool>, v: seq<bool>)
    requires |u| >= 6 && TypeCode(p, u).Code? && Agree(u, v, TypeCode(p, u).len)
    ensures TypeCode(p, v) == TypeCode(p, u)
  {
  }

  lemma MotionAgree(u: seq<bool>, v: seq<bool>)
    requires |u| >= 11 && MotionCode(u).Code? && Agree(u, v, MotionCode(u).len)
    ensures MotionCode(v) == MotionCode(u)
  {
  }

  lemma PatternAgree(u: seq<bool>, v: seq<bool>)
    requires |u| >= 9 && PatternCode(u).Code? && Agree(u, v, PatternCode(u).len)
    ensures PatternCode(v) == PatternCode(u)
  {
  }

  lemma DcSizeAgree(u: seq<bool>, v: seq<bool>)
    ensures |u| >= 7 && LumaDcSize(u).Code? && Agree(u, v, LumaDcSize(u).len) ==> LumaDcSize(v) == LumaDcSize(u)
    ensures |u| >= 8 && ChromaDcSize(u).Code? && Agree(u, v, ChromaDcSize(u).len) ==> ChromaDcSize(v) == ChromaDcSize(u)
  {
  }

  /** How many bits decide a run-level step: all of a code but its sign. */
  function Deciding(r: Rlp): nat
  {
    match r
    case EndOfBlock => 2
    case Coef(len, _, _, _) => if len > 0 then len - 1 else 0
    case Escape | SecondTable => 6
    case _ => 0
  }

  predicate Decides(r: Rlp) { r.EndOfBlock? || r.Coef? || r.Escape? || r.SecondTable? }

  lemma OkStage1Agree(u: seq<bool>, v: seq<bool>, first: bool)
    requires Decides(OkStage1(u, first)) && Agree(u, v, Deciding(OkStage1(u, first)))
    ensures OkStage1(v, first) == OkStage1(u, first)
  {
  }

  lemma OkStage2Agree(u: seq<bool>, v: seq<bool>)
    requires OkStage2(u).Coef? && Agree(u, v, Deciding(OkStage2(u)))
    ensures OkStage2(v) == OkStage2(u)
  {
  }

  lemma CheckStage1Agree(u: seq<bool>, v: seq<bool>, first: bool)
    requires Decides(CheckStage1(u, first)) && Agree(u, v, Deciding(CheckStage1(u, first)))
    ensures CheckStage1(v, first) == CheckStage1(u, first)
  {
  }

  lemma CheckStage2Agree(u: seq<bool>, v: seq<bool>)
    requires CheckStage2(u).Coef? && Agree(u, v, Deciding(CheckStage2(u)))
    ensures CheckStage2(v) == CheckStage2(u)
  {
  }

  // ---- steps that consume bits, seen again ----

  ghost predicate Consumes(m: Move) { !m.done && m.used > 0 }

  lemma NextStartAgree(u: seq<bool>, v: seq<bool>)
    requires NextStart(u).Found? && Agree(u, v, NextStart(u).Len())
    ensures NextStart(v) == NextStart(u)
  {
    ScanAgree(u[|u| % 8..], v[|u| % 8..]);
  }

  lemma SliceStartAgain(s: Parse, u: seq<bool>, v: seq<bool>)
    requires Saved(s) && Consumes(SliceStartMove(s, u)) && Agree(u, v, SliceStartMove(s, u).used)
    ensures SliceStartMove(s, v) == SliceStartMove(s, u)
  {
    var r := NextStart(u);
    NextStartAgree(u, v);
    assert u[r.at + 24..r.Len()] == v[r.at + 24..r.Len()];
  }

  lemma QuantAgain(c: Config, s: Parse, u: seq<bool>, v: seq<bool>, next: State)
    requires Usable(c) && Saved(s) && !InBlock(next) && !next.MacroblockRes?
    requires Consumes(QuantMove(c, s, u, next)) && Agree(u, v, QuantMove(c, s, u, next).used)
    ensures QuantMove(c, s, v, next) == QuantMove(c, s, u, next)
  {
    assert u[..5] == v[..5];
  }

  lemma MacroblockAgain(c: Config, s: Parse, u: seq<bool>, v: seq<bool>)
    requires Usable(c) && Saved(s)
    ensures Consumes(AddressMove(s, u)) && Agree(u, v, AddressMove(s, u).used) ==> AddressMove(s, v) == AddressMove(s, u)
    ensures Consumes(TypeMove(c, s, u)) && Agree(u, v, TypeMove(c, s, u).used) ==> TypeMove(c, s, v) == TypeMove(c, s, u)
    ensures Consumes(MotionMove(s, u)) && Agree(u, v, MotionMove(s, u).used) ==> MotionMove(s, v) == MotionMove(s, u)
    ensures Consumes(PatternMove(s, u)) && Agree(u, v, PatternMove(s, u).used) ==> PatternMove(s, v) == PatternMove(s, u)
  {
    hide AddressCode, TypeCode, MotionCode, PatternCode, LumaDcSize, ChromaDcSize;
    if Consumes(AddressMove(s, u)) && Agree(u, v, AddressMove(s, u).used) { AddressAgree(u, v); }
    if Consumes(TypeMove(c, s, u)) && Agree(u, v, TypeMove(c, s, u).used) { TypeAgree(c.picture, u, v); }
    if Consumes(MotionMove(s, u)) && Agree(u, v, MotionMove(s, u).used) { MotionAgree(u, v); }
    if Consumes(PatternMove(s, u)) && Agree(u, v, PatternMove(s, u).used) { PatternAgree(u, v); }
  }

  lemma DcSizeAgain(s: Parse, u: seq<bool>, v: seq<bool>)
    requires Saved(s) && s.state.DcSize? && Consumes(DcSizeMove(s, u)) && Agree(u, v, DcSizeMove(s, u).used)
    ensures DcSizeMove(s, v) == DcSizeMove(s, u)
  {
    DcSizeAgree(u, v);
  }

  lemma OkAgain(s: Parse, u: seq<bool>, v: seq<bool>)
    requires Saved(s) && Counts(s.b)
    ensures Consumes(OkStage1Move(s, u)) && Agree(u, v, OkStage1Move(s, u).used) ==> OkStage1Move(s, v) == OkStage1Move(s, u)
    ensures Consumes(OkStage2Move(s, u)) && Agree(u, v, OkStage2Move(s, u).used) ==> OkStage2Move(s, v) == OkStage2Move(s, u)
    ensures Consumes(OkEscapeMove(s, u)) && Agree(u, v, OkEscapeMove(s, u).used) ==> OkEscapeMove(s, v) == OkEscapeMove(s, u)
  {
    hide OkStage1, OkStage2;
    if Consumes(OkStage1Move(s, u)) && Agree(u, v, OkStage1Move(s, u).used) { OkStage1Agree(u, v, s.b.coefFirst); }
    if Consumes(OkStage2Move(s, u)) && Agree(u, v, OkStage2Move(s, u).used) { OkStage2Agree(u, v); }
  }

  /** A flipped sign reads as positive and is left alone. */
  lemma CoefAgain(c: Config, s: Parse, u: seq<bool>, v: seq<bool>, len: nat, run: nat, level: nat, tested: bool)
    requires Saved(s) && Counts(s.b) && 0 < len <= |u| == |v|
    requires v[..len] == Written(CoefMove(c, s, u, len, run, level, tested), u)
    ensures CoefMove(c, s, v, len, run, level, tested) == CoefMove(c, s, u, len, run, level, tested).(edit := [])
  {
    assert v[len - 1] == v[..len][len - 1];
  }

  lemma CheckStage1Again(c: Config, s: Parse, u: seq<bool>, v: seq<bool>)
    requires Saved(s) && Counts(s.b) && |u| == |v| && Consumes(CheckStage1Move(c, s, u))
    requires v[..CheckStage1Move(c, s, u).used] == Written(CheckStage1Move(c, s, u), u)
    ensures CheckStage1Move(c, s, v) == CheckStage1Move(c, s, u).(edit := [])
  {
    var m, r := CheckStage1Move(c, s, u), CheckStage1(u, s.b.coefFirst);
    WrittenAgrees(m, u, v, Deciding(r));
    CheckStage1Agree(u, v, s.b.coefFirst);
    match r
    case Coef(len, run, level, tested) =>
      CoefAgain(c, s.(b := s.b.(coefFirst := false)), u, v, len, run, level, tested);
    case Escape =>
      WrittenAgrees(m, u, v, 12);
      assert u[6..12] == v[6..12];
    case _ =>
  }

  lemma CheckStage2Again(c: Config, s: Parse, u: seq<bool>, v: seq<bool>)
    requires Saved(s) && Counts(s.b) && |u| == |v| && Consumes(CheckStage2Move(c, s, u))
    requires v[..CheckStage2Move(c, s, u).used] == Written(CheckStage2Move(c, s, u), u)
    ensures CheckStage2Move(c, s, v) == CheckStage2Move(c, s, u).(edit := [])
  {
    var m, r := CheckStage2Move(c, s, u), CheckStage2(u);
    WrittenAgrees(m, u, v, Deciding(r));
    CheckStage2Agree(u, v);
    CoefAgain(c, s, u, v, r.len, r.run, r.level, r.tested);
  }

  /** What a step does not overwrite it leaves. */
  lemma WrittenAgrees(m: Move, u: seq<bool>, v: seq<bool>, n: nat)
    requires Proper(m, u) && |u| == |v| && v[..m.used] == Written(m, u) && n <= m.used - |m.edit|
    ensures Agree(u, v, n)
  {
    forall i | 0 <= i < n
      ensures v[i] == u[i]
    {
      assert v[i] == v[..m.used][i];
    }
  }

  /** A negated small level is a short positive one. */
  lemma NegatedBits(w: seq<bool>, t: nat)
    requires |w| == 8 && SmallNegative(w, t)
    ensures var r := Negated(w); !r[0] && EscapeLen(r) == 8
    ensures ValOf(Negated(w)) == 256 - ValOf(w) == 8 - Three(w[5], w[6], w[7])
  {
    SmallValue(w);
    Pow2Values();
    ValBits(256 - ValOf(w), 8);
    SmallBits(256 - ValOf(w));
  }

  lemma SmallBits(n: nat)
    requires 1 <= n <= 8
    ensures var r := BitsOf(n, 8); !r[0] && (r[4] || r[5] || r[6] || r[7])
  {
    hide BitsOf;
    var r := BitsOf(n, 8);
    BitsLast(n, 7);
    BitsLast(n / 2, 6);
    BitsLast(n / 4, 5);
    BitsLast(n / 8, 4);
    ZeroBits(4);
    SmallHalves(n);
    assert r[..4] == BitsOf(n / 16, 4);
  }

  lemma SmallHalves(n: nat)
    requires 1 <= n <= 8
    ensures n / 2 / 2 == n / 4 && n / 4 / 2 == n / 8 && n / 8 / 2 == n / 16 == 0
    ensures n % 2 == 1 || n / 2 % 2 == 1 || n / 4 % 2 == 1 || n / 8 % 2 == 1
  {
  }

  lemma BitsLast(v: nat, n: nat)
    ensures BitsOf(v, n + 1)[..n] == BitsOf(v / 2, n) && BitsOf(v, n + 1)[n] == (v % 2 == 1)
  {
  }

  lemma SmallValue(w: seq<bool>)
    requires |w| == 8 && w[0] && w[1] && w[2] && w[3] && w[4]
    ensures ValOf(w) == 248 + Three(w[5], w[6], w[7])
  {
    ValLast(w, 0);
    ValLast(w, 1);
    ValLast(w, 2);
    ValLast(w, 3);
    ValLast(w, 4);
    ValLast(w, 5);
    ValLast(w, 6);
    ValLast(w, 7);
    assert w[..8] == w;
  }

  lemma ValLast(w: seq<bool>, n: nat)
    requires n < |w|
    ensures ValOf(w[..n + 1]) == 2 * ValOf(w[..n]) + (if w[n] then 1 else 0)
  {
    assert w[..n + 1][..n] == w[..n];
  }

  lemma EscapeAgain(c: Config, s: Parse, u: seq<bool>, v: seq<bool>)
    requires Saved(s) && Counts(s.b) && |u| == |v| && Consumes(EscapeMove(c, s, u))
    requires v[..EscapeMove(c, s, u).used] == Written(EscapeMove(c, s, u), u)
    ensures EscapeMove(c, s, v) == EscapeMove(c, s, u).(edit := [])
  {
    var m := EscapeMove(c, s, u);
    var t := ThreshAt(c, s.q, s.b.intraTable, s.b.coefIndex);
    assert v[..8] == v[..m.used][..8];
    if m.edit == [] {
      WrittenAgrees(m, u, v, m.used);
    } else {
      NegatedBits(u[..8], t);
      assert v[..8] == Negated(u[..8]);
    }
  }

  lemma StepAgain(c: Config, s: Parse, u: seq<bool>, v: seq<bool>)
    requires Usable(c) && Saved(s) && !s.state.RlpCheckEscape2? && |u| == |v| && Consumes(Next(c, s, u))
    requires v[..Next(c, s, u).used] == Written(Next(c, s, u), u)
    ensures Next(c, s, v) == Next(c, s, u).(edit := [])
  {
    hide AddressCode, TypeCode, MotionCode, PatternCode, LumaDcSize, ChromaDcSize, CheckStage1, OkStage1, CheckStage2, OkStage2, CheckQuant, ThreshAt, NextStart;
    var m := Next(c, s, u);
    if !(s.state.RlpCheckStage1? || s.state.RlpCheckStage2? || s.state.RlpCheckEscape?) {
      WrittenAgrees(m, u, v, m.used);
    }
    match s.state
    case SliceStart => SliceStartAgain(s, u, v);
    case SliceQuant => QuantAgain(c, s, u, v, SliceExtraFlag);
    case MacroblockQuant => QuantAgain(c, s, u, v, MacroblockCode);
    case MacroblockStart | MacroblockType | MacroblockCode | MacroblockPattern => MacroblockAgain(c, s, u, v);
    case DcSize => DcSizeAgain(s, u, v);
    case RlpOkStage1 | RlpOkStage2 | RlpOkEscape => OkAgain(s, u, v);
    case RlpCheckStage1 => CheckStage1Again(c, s, u, v);
    case RlpCheckStage2 => CheckStage2Again(c, s, u, v);
    case RlpCheckEscape => EscapeAgain(c, s, u, v);
    case _ =>
  }

  // ---- steps that only look ----

  function Least(a: nat, b: nat): nat { if a < b then a else b }

  /** A step that consumes nothing goes the same way again if what it looked at is still there: the
      next 32 bits when it heads for a start code, a one among the next 23 when it heads for a macroblock. */
  lemma LookAgain(c: Config, s: Parse, u: seq<bool>, v: seq<bool>)
    requires Usable(c) && Saved(s) && !s.state.RlpCheckEscape2? && |u| == |v|
    requires !Next(c, s, u).done && Next(c, s, u).used == 0
    requires Next(c, s, u).s.state.SliceStart? ==> Agree(u, v, Least(|u|, 32))
    requires Next(c, s, u).s.state.MacroblockStart? ==> |v| >= 24 && !All(v[..23], false)
    ensures Next(c, s, v) == Next(c, s, u)
  {
    hide AddressCode, TypeCode, MotionCode, PatternCode, LumaDcSize, ChromaDcSize, CheckQuant, ThreshAt, SplitNow, SplitEdit, NextStart;
    hide CheckStage1, CheckStage2, OkStage1, OkStage2;
    match s.state
    case SliceStart | MacroblockStart | MacroblockType | MacroblockQuant => HeaderAdvances(c, s, u); LostAgain(c, s, u, v);
    case MacroblockCode | MacroblockPattern => LostAgain(c, s, u, v);
    case DcSize => if s.mb.kind.intra { LostSizeAgain(s, u, v); }
    case RlpOkStage1 | RlpCheckStage1 => NeverBad(u, s.b.coefFirst);
    case RlpOkStage2 | RlpCheckStage2 => BadAgain(u, v);
    case MacroblockEnd => if |u| >= 32 || Next(c, s, u).s.state.SliceStart? { assert All(u[..23], false) ==> v[..23] == u[..23]; }
    case _ =>
  }

  lemma LostAgain(c: Config, s: Parse, u: seq<bool>, v: seq<bool>)
    requires Saved(s) && |u| == |v|
    ensures |u| >= 11 && Agree(u, v, 11) ==> AddressMove(s, v) == AddressMove(s, u)
    ensures |u| >= 11 && Agree(u, v, 11) ==> MotionMove(s, v) == MotionMove(s, u)
    ensures |u| >= 9 && Agree(u, v, 9) ==> PatternMove(s, v) == PatternMove(s, u)
    ensures |u| >= 6 && Agree(u, v, 6) ==> TypeMove(c, s, v) == TypeMove(c, s, u)
  {
    hide AddressCode, TypeCode, MotionCode, PatternCode;
    LostCodes(c, u, v);
  }

  lemma LostCodes(c: Config, u: seq<bool>, v: seq<bool>)
    requires |u| == |v|
    ensures |u| >= 11 && Agree(u, v, 11) ==> AddressCode(v) == AddressCode(u)
    ensures |u| >= 11 && Agree(u, v, 11) ==> MotionCode(v) == MotionCode(u)
    ensures |u| >= 9 && Agree(u, v, 9) ==> PatternCode(v) == PatternCode(u)
    ensures |u| >= 6 && Agree(u, v, 6) ==> TypeCode(c.picture, v) == TypeCode(c.picture, u)
  {
  }

  lemma LostSizeAgain(s: Parse, u: seq<bool>, v: seq<bool>)
    requires Saved(s) && s.state.DcSize? && |u| == |v| && (|u| >= 8 ==> Agree(u, v, 8)) && (|u| < 8 ==> u == v)
    ensures DcSizeMove(s, v) == DcSizeMove(s, u)
  {
  }

  lemma NeverBad(u: seq<bool>, first: bool)
    ensures !OkStage1(u, first).Bad? && !CheckStage1(u, first).Bad?
  {
  }

  lemma BadAgain(u: seq<bool>, v: seq<bool>)
    ensures OkStage2(u).Bad? ==> |u| >= 11 && (Agree(u, v, 11) ==> OkStage2(v).Bad?)
    ensures CheckStage2(u).Bad? ==> |u| >= 11 && (Agree(u, v, 11) ==> CheckStage2(v).Bad?)
  {
  }

  // ---- what stays for a step that only looked ----

  /** The run of DoVCDOptimize over u. */
  ghost function Output(c: Config, s: Parse, u: seq<bool>): (v: seq<bool>)
    requires Usable(c) && Saved(s)
    ensures |v| == |u|
  {
    StepOfLawful(c);
    Rewrite(StepOf(c), s, u)
  }

  lemma OutputParts(c: Config, s: Parse, u: seq<bool>)
    requires Usable(c) && Saved(s)
    ensures var m, v := Next(c, s, u), Output(c, s, u);
            && v[..m.used] == Written(m, u)
            && v[m.used..] == if m.done then u[m.used..] else Output(c, m.s, u[m.used..])
  {
    StepOfLawful(c);
    OutputFrom(StepOf(c), s, u);
  }

  /** Heading for a start code keeps the next 32 bits: there is none, or it is further on. */
  lemma SliceStartKeeps(c: Config, s: Parse, u: seq<bool>)
    requires Usable(c) && Saved(s) && s.state.SliceStart?
    ensures Agree(u, Output(c, s, u), Least(|u|, 32))
  {
    var m, v := Next(c, s, u), Output(c, s, u);
    OutputParts(c, s, u);
    HeaderAdvances(c, s, u);
    AgreeFrom(u, v, m.used, m.done);
  }

  lemma AgreeFrom(u: seq<bool>, v: seq<bool>, n: nat, whole: bool)
    requires |u| == |v| && n <= |u| && v[..n] == u[..n] && if whole then v[n..] == u[n..] else n >= 32
    ensures Agree(u, v, Least(|u|, 32))
  {
    assert v == v[..n] + v[n..] && u == u[..n] + u[n..];
    assert forall i :: 0 <= i < n ==> v[i] == v[..n][i] == u[i];
  }

  /** Heading for a macroblock keeps a one among the next 23 bits. */
  lemma MacroblockStartKeeps(c: Config, s: Parse, u: seq<bool>)
    requires Usable(c) && Saved(s) && s.state.MacroblockStart? && |u| >= 24 && !All(u[..23], false)
    ensures !All(Output(c, s, u)[..23], false)
  {
    var m, v := Next(c, s, u), Output(c, s, u);
    OutputParts(c, s, u);
    match AddressCode(u)
    case Code(len, _) =>
      var i := FirstOne(u);
      assert v[i] == v[..m.used][i] && v[..23][i];
    case Lost =>
      assert u[0..] == u && v[0..] == v;
      SliceStartKeeps(c, m.s, u);
      assert v[..23] == u[..23];
  }

  lemma FirstOne(u: seq<bool>) returns (i: nat)
    requires |u| >= 11 && AddressCode(u).Code?
    ensures i < AddressCode(u).len && u[i]
  {
    i := if u[0] then 0 else if u[1] then 1 else if u[2] then 2 else if u[3] then 3
         else if u[4] then 4 else if u[5] then 5 else if u[6] then 6 else 7;
  }

  // ---- whole runs ----

  lemma EndOfMacroblock(c: Config, s: Parse, u: seq<bool>)
    requires Usable(c) && Saved(s) && !Next(c, s, u).done && Next(c, s, u).used == 0
    requires Next(c, s, u).s.state.MacroblockStart?
    ensures |u| >= 24 && !All(u[..23], false)
  {
    hide AddressCode, TypeCode, MotionCode, PatternCode, LumaDcSize, ChromaDcSize, CheckStage1, OkStage1, CheckStage2, OkStage2, CheckQuant, ThreshAt, SplitNow, SplitEdit;
    match s.state
    case SliceStart => HeaderAdvances(c, s, u);
    case MacroblockStart | MacroblockType | MacroblockQuant | MacroblockCode =>
    case DcSize | DcDiff | RlpOkStage1 | RlpCheckStage1 | RlpCheckEscape | RlpCheckEscape2 =>
    case _ =>
  }

  lemma LookedAtOutput(c: Config, s: Parse, u: seq<bool>)
    requires Usable(c) && Saved(s) && !s.state.RlpCheckEscape2? && !Next(c, s, u).done && Next(c, s, u).used == 0
    ensures Next(c, s, Output(c, s, u)) == Next(c, s, u)
  {
    var m, v := Next(c, s, u), Output(c, s, u);
    OutputParts(c, s, u);
    assert v[0..] == v && u[0..] == u;
    if m.s.state.SliceStart? { SliceStartKeeps(c, m.s, u); }
    if m.s.state.MacroblockStart? { EndOfMacroblock(c, s, u); MacroblockStartKeeps(c, m.s, u); }
    LookAgain(c, s, u, v);
  }

  /** A step of the run, taken again on the run's output. */
  lemma OutputStep(c: Config, s: Parse, u: seq<bool>)
    requires Usable(c) && Saved(s) && !s.state.RlpCheckEscape2? && !Next(c, s, u).done
    ensures Next(c, s, Output(c, s, u)) == Next(c, s, u).(edit := [])
  {
    if Next(c, s, u).used > 0 {
      OutputParts(c, s, u);
      StepAgain(c, s, u, Output(c, s, u));
    } else {
      LookedAtOutput(c, s, u);
    }
  }

  /** Parsing the output of a run goes through the same states at the same positions and writes
      what is already there, so a second pass changes nothing. */
  lemma Reparse(c: Config, s: Parse, u: seq<bool>)
    requires Usable(c) && Saved(s) && Lawful(StepOf(c)) && Unsplit(StepOf(c), s, u)
    ensures Trace(StepOf(c), s, Output(c, s, u)) == Trace(StepOf(c), s, u)
    ensures Output(c, s, Output(c, s, u)) == Output(c, s, u)
  {
    var next := StepOf(c);
    forall s, u | Saved(s) && !s.state.RlpCheckEscape2? && !next(s, u).done
      ensures next(s, Rewrite(next, s, u)) == next(s, u).(edit := [])
    {
      OutputStep(c, s, u);
    }
    RunRepeats(next, s, u);
  }
}
