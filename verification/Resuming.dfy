/** The parser taken up again: how a stream is cut into buffers does not matter to it. */
module Resuming {
  import opened Bits
  import opened StartCodes
  import opened VlcCodes
  import opened Parser
  import opened Runs
  import opened Rewriting

  // ---- steps that have the bits they need ----

  lemma HeaderCodesOn(c: Config, a: seq<bool>, b: seq<bool>)
    ensures |a| >= 11 ==> AddressCode(a + b) == AddressCode(a) && MotionCode(a + b) == MotionCode(a)
    ensures |a| >= 9 ==> PatternCode(a + b) == PatternCode(a)
    ensures |a| >= 6 ==> TypeCode(c.picture, a + b) == TypeCode(c.picture, a)
  {
  }

  lemma SizeCodesOn(a: seq<bool>, b: seq<bool>)
    ensures |a| >= 7 ==> LumaDcSize(a + b) == LumaDcSize(a)
    ensures |a| >= 8 ==> ChromaDcSize(a + b) == ChromaDcSize(a)
  {
  }

  predicate Lacks(r: Rlp) { r.Short? || r.Cut? }

  lemma OkStage1On(a: seq<bool>, b: seq<bool>, first: bool)
    ensures !Lacks(OkStage1(a, first)) ==> OkStage1(a + b, first) == OkStage1(a, first)
  {
  }

  lemma OkStage2On(a: seq<bool>, b: seq<bool>)
    ensures !Lacks(OkStage2(a)) ==> OkStage2(a + b) == OkStage2(a)
  {
  }

  lemma CheckStage1On(a: seq<bool>, b: seq<bool>, first: bool)
    ensures !Lacks(CheckStage1(a, first)) ==> CheckStage1(a + b, first) == CheckStage1(a, first)
  {
  }

  lemma CheckStage2On(a: seq<bool>, b: seq<bool>)
    ensures !Lacks(CheckStage2(a)) ==> CheckStage2(a + b) == CheckStage2(a)
  {
  }

  /** A start code that is found is found whatever follows. */
  lemma StartOn(a: seq<bool>, b: seq<bool>)
    requires |b| % 8 == 0
    ensures NextStart(a).Found? ==> NextStart(a + b) == NextStart(a)
    ensures NextStart(a).Exhausted? ==>
      NextStart(a).at <= |a| && NextStart(a + b) == NextStart(a[NextStart(a).at..] + b).Shift(NextStart(a).at)
  {
    hide Scan, StartAt;
    var odd := |a| % 8;
    var u := a[odd..];
    assert (a + b)[odd..] == u + b && |a + b| % 8 == odd;
    ScanResumes(u, b);
    if Scan(u).Exhausted? {
      var k := Scan(u).at;
      ScanExact(u, b);
      assert u[k..] == a[odd + k..];
      BytesLeft(|a|, k);
      AtByte(u[k..] + b);
    }
  }

  lemma BytesLeft(n: nat, k: nat)
    requires k % 8 == 0 && n % 8 + k <= n
    ensures (n - n % 8 - k) % 8 == 0
  {
  }

  lemma AtByte(u: seq<bool>)
    requires |u| % 8 == 0
    ensures NextStart(u) == Scan(u)
  {
    assert u[0..] == u;
  }

  lemma HeaderOn(c: Config, s: Parse, a: seq<bool>, b: seq<bool>)
    requires Usable(c) && Saved(s) && |b| % 8 == 0
    ensures s.state.SliceStart? && !SliceStartMove(s, a).done ==> SliceStartMove(s, a + b) == SliceStartMove(s, a)
    ensures !AddressMove(s, a).done ==> AddressMove(s, a + b) == AddressMove(s, a)
    ensures !MotionMove(s, a).done ==> MotionMove(s, a + b) == MotionMove(s, a)
    ensures !PatternMove(s, a).done ==> PatternMove(s, a + b) == PatternMove(s, a)
    ensures !TypeMove(c, s, a).done ==> TypeMove(c, s, a + b) == TypeMove(c, s, a)
  {
    hide AddressCode, MotionCode, PatternCode, TypeCode, NextStart, ValOf;
    HeaderCodesOn(c, a, b);
    StartOn(a, b);
    var r := NextStart(a);
    if r.Found? { assert (a + b)[r.at + 24..r.Len()] == a[r.at + 24..r.Len()]; }
  }

  lemma QuantOn(c: Config, s: Parse, a: seq<bool>, b: seq<bool>, next: State)
    requires Usable(c) && Saved(s) && !InBlock(next) && !next.MacroblockRes?
    ensures !QuantMove(c, s, a, next).done ==> QuantMove(c, s, a + b, next) == QuantMove(c, s, a, next)
  {
    hide CheckQuant;
    if |a| >= 5 { assert (a + b)[..5] == a[..5]; }
  }

  lemma SizesOn(s: Parse, a: seq<bool>, b: seq<bool>)
    requires Saved(s) && s.state.DcSize? && !DcSizeMove(s, a).done
    ensures DcSizeMove(s, a + b) == DcSizeMove(s, a)
  {
    hide LumaDcSize, ChromaDcSize;
    SizeCodesOn(a, b);
  }

  lemma CoefOn(c: Config, s: Parse, a: seq<bool>, b: seq<bool>, len: nat, run: nat, level: nat, tested: bool)
    requires Saved(s) && Counts(s.b) && 0 < len <= |a|
    ensures CoefMove(c, s, a + b, len, run, level, tested) == CoefMove(c, s, a, len, run, level, tested)
  {
  }

  lemma FastOn(c: Config, s: Parse, a: seq<bool>, b: seq<bool>)
    requires Saved(s) && Counts(s.b)
    ensures s.state.RlpOkStage1? && !OkStage1Move(s, a).done ==> OkStage1Move(s, a + b) == OkStage1Move(s, a)
    ensures s.state.RlpOkStage2? && !OkStage2Move(s, a).done ==> OkStage2Move(s, a + b) == OkStage2Move(s, a)
    ensures s.state.RlpOkEscape? && !OkEscapeMove(s, a).done ==> OkEscapeMove(s, a + b) == OkEscapeMove(s, a)
  {
    hide OkStage1, OkStage2;
    OkStage1On(a, b, s.b.coefFirst);
    OkStage2On(a, b);
    EscapeLenOn(a, b);
  }

  lemma EscapeLenOn(a: seq<bool>, b: seq<bool>)
    ensures |a| >= 8 ==> EscapeLen(a + b) == EscapeLen(a)
  {
  }

  lemma CheckStage1MoveOn(c: Config, s: Parse, a: seq<bool>, b: seq<bool>)
    requires Saved(s) && Counts(s.b) && !CheckStage1Move(c, s, a).done
    ensures CheckStage1Move(c, s, a + b) == CheckStage1Move(c, s, a)
  {
    hide CheckStage1, ThreshAt;
    CheckStage1On(a, b, s.b.coefFirst);
    var r := CheckStage1(a, s.b.coefFirst);
    if r.Coef? { CoefOn(c, s.(b := s.b.(coefFirst := false)), a, b, r.len, r.run, r.level, r.tested); }
    if r.Escape? { assert (a + b)[6..12] == a[6..12]; }
  }

  lemma CheckStage2MoveOn(c: Config, s: Parse, a: seq<bool>, b: seq<bool>)
    requires Saved(s) && Counts(s.b) && !CheckStage2Move(c, s, a).done
    ensures CheckStage2Move(c, s, a + b) == CheckStage2Move(c, s, a)
  {
    hide CheckStage2, ThreshAt;
    CheckStage2On(a, b);
    var r := CheckStage2(a);
    if r.Coef? { CoefOn(c, s, a, b, r.len, r.run, r.level, r.tested); }
  }

  lemma EscapeOn(c: Config, s: Parse, a: seq<bool>, b: seq<bool>)
    requires Saved(s) && Counts(s.b) && !EscapeMove(c, s, a).done
    ensures EscapeMove(c, s, a + b) == EscapeMove(c, s, a)
  {
    hide ThreshAt, Negated;
    EscapeLenOn(a, b);
    assert (a + b)[..8] == a[..8];
  }

  /** A step that does not end the run does not depend on what follows. */
  lemma StepOn(c: Config, s: Parse, a: seq<bool>, b: seq<bool>)
    requires Usable(c) && Saved(s) && !s.state.RlpCheckEscape2? && |b| % 8 == 0 && !Next(c, s, a).done
    ensures Next(c, s, a + b) == Next(c, s, a)
  {
    hide SliceStartMove, AddressMove, TypeMove, QuantMove, MotionMove, PatternMove, DcSizeMove;
    hide OkStage1Move, OkStage2Move, OkEscapeMove, CheckStage1Move, CheckStage2Move, EscapeMove;
    match s.state
    case SliceQuant => QuantOn(c, s, a, b, SliceExtraFlag);
    case MacroblockQuant => QuantOn(c, s, a, b, MacroblockCode);
    case SliceStart | MacroblockStart | MacroblockType | MacroblockCode | MacroblockPattern => HeaderOn(c, s, a, b);
    case DcSize => SizesOn(s, a, b);
    case RlpOkStage1 | RlpOkStage2 | RlpOkEscape => FastOn(c, s, a, b);
    case RlpCheckStage1 => CheckStage1MoveOn(c, s, a, b);
    case RlpCheckStage2 => CheckStage2MoveOn(c, s, a, b);
    case RlpCheckEscape => EscapeOn(c, s, a, b);
    case MacroblockEnd => assert (a + b)[..23] == a[..23];
    case _ =>
  }

  // ---- steps that end a run for want of bits ----

  /** The step ends the run neither at a start code that begins no slice nor inside a negative escape level. */
  predicate Starved(s: Parse, u: seq<bool>, m: Move)
  {
    m.done && !m.s.state.RlpCheckEscape2? && (s.state.SliceStart? ==> NextStart(u).Exhausted?)
  }

  /** What is set for an intra block before its size is read. */
  function IntraBlock(s: Parse): Block { s.b.(coefFirst := false, intraTable := true, maxIndex := s.q.minIntraIndex) }

  lemma SizeSame(s: Parse, u: seq<bool>)
    requires Saved(s) && s.state.DcSize? && s.mb.kind.intra
    ensures DcSizeMove(s.(b := IntraBlock(s)), u) == DcSizeMove(s, u)
  {
  }

  lemma StalledStays(c: Config, s: Parse, a: seq<bool>)
    requires Usable(c) && Saved(s) && !s.state.RlpCheckEscape2? && !s.state.SliceStart? && Starved(s, a, Next(c, s, a))
    ensures var m := Next(c, s, a);
            && m.used == 0 && m.edit == []
            && (|| m.s == s
                || (s.state.DcSize? && s.mb.kind.intra && m.s == s.(b := IntraBlock(s)))
                || (s.state.RlpOkStage1? && OkStage1(a, s.b.coefFirst).Cut? && m.s == s.(b := s.b.(coefFirst := false))))
  {
    hide OkStage1Move, OkStage2Move, OkEscapeMove, CheckStage1Move, CheckStage2Move, EscapeMove;
    hide QuantMove, AddressMove, TypeMove, MotionMove, PatternMove, DcSizeMove;
    match s.state
    case RlpOkStage1 | RlpOkStage2 | RlpOkEscape | RlpCheckStage1 | RlpCheckStage2 | RlpCheckEscape => BlockStalled(c, s, a);
    case _ => HeaderStalled(c, s, a);
  }

  lemma HeaderStalled(c: Config, s: Parse, a: seq<bool>)
    requires Usable(c) && Saved(s)
    ensures AddressMove(s, a).done ==> AddressMove(s, a) == Stall(s)
    ensures TypeMove(c, s, a).done ==> TypeMove(c, s, a) == Stall(s)
    ensures MotionMove(s, a).done ==> MotionMove(s, a) == Stall(s)
    ensures PatternMove(s, a).done ==> PatternMove(s, a) == Stall(s)
    ensures QuantMove(c, s, a, SliceExtraFlag).done ==> QuantMove(c, s, a, SliceExtraFlag) == Stall(s)
    ensures QuantMove(c, s, a, MacroblockCode).done ==> QuantMove(c, s, a, MacroblockCode) == Stall(s)
    ensures s.state.DcSize? && DcSizeMove(s, a).done ==> s.mb.kind.intra && DcSizeMove(s, a) == Stall(s.(b := IntraBlock(s)))
  {
    hide AddressCode, TypeCode, MotionCode, PatternCode, LumaDcSize, ChromaDcSize, CheckQuant;
  }

  lemma BlockStalled(c: Config, s: Parse, a: seq<bool>)
    requires Saved(s) && Counts(s.b)
    ensures OkStage1Move(s, a).done ==>
      OkStage1Move(s, a) == Stall(if OkStage1(a, s.b.coefFirst).Cut? then s.(b := s.b.(coefFirst := false)) else s)
    ensures OkStage2Move(s, a).done ==> OkStage2Move(s, a) == Stall(s)
    ensures OkEscapeMove(s, a).done ==> OkEscapeMove(s, a) == Stall(s)
    ensures CheckStage1Move(c, s, a).done ==> CheckStage1Move(c, s, a) == Stall(s)
    ensures CheckStage2Move(c, s, a).done ==> CheckStage2Move(c, s, a) == Stall(s)
    ensures EscapeMove(c, s, a).done && !EscapeMove(c, s, a).s.state.RlpCheckEscape2? ==> EscapeMove(c, s, a) == Stall(s)
  {
    hide OkStage1, OkStage2, CheckStage1, CheckStage2, ThreshAt;
  }

  /** A look-ahead cut short has dropped the mark of the first coefficient, which its bits do not depend on. */
  lemma CutSame(s: Parse, a: seq<bool>, b: seq<bool>)
    requires Saved(s) && Counts(s.b) && OkStage1(a, s.b.coefFirst).Cut?
    ensures OkStage1Move(s.(b := s.b.(coefFirst := false)), a + b) == OkStage1Move(s, a + b)
  {
  }

  /** A starved step is taken again when more bits have come, as if they had been there before. */
  lemma StepResumes(c: Config, s: Parse, a: seq<bool>, b: seq<bool>) returns (m: Move, n: Move)
    requires Usable(c) && Saved(s) && !s.state.RlpCheckEscape2? && |b| % 8 == 0 && Starved(s, a, Next(c, s, a))
    ensures m == Next(c, s, a) && m.edit == [] && !m.s.state.RlpCheckEscape2?
    ensures n == Next(c, m.s, a[m.used..] + b) && Next(c, s, a + b) == n.(used := n.used + m.used)
    ensures m.used > 0 ==> n.edit == []
  {
    m := Next(c, s, a);
    n := Next(c, m.s, a[m.used..] + b);
    if s.state.SliceStart? {
      SearchResumes(s, a, b);
    } else {
      StalledStays(c, s, a);
      assert a[0..] == a;
      if m.s != s {
        if s.state.DcSize? { SizeSame(s, a + b); } else { CutSame(s, a, b); }
      }
    }
  }

  lemma SearchResumes(s: Parse, a: seq<bool>, b: seq<bool>)
    requires Saved(s) && s.state.SliceStart? && |b| % 8 == 0 && NextStart(a).Exhausted?
    ensures var m := SliceStartMove(s, a);
            var n := SliceStartMove(s, a[m.used..] + b);
            SliceStartMove(s, a + b) == n.(used := n.used + m.used) && n.edit == [] && m.edit == []
  {
    hide NextStart, ValOf;
    StartOn(a, b);
    var k := NextStart(a).at;
    var r := NextStart(a[k..] + b);
    if r.Found? { assert (a + b)[r.at + k + 24..r.Len() + k] == (a[k..] + b)[r.at + 24..r.Len()]; }
  }

  // ---- runs ----

  /** The run ends for want of bits. */
  ghost predicate RunsDry(next: Stepper, s: Parse, u: seq<bool>)
    requires Lawful(next) && Saved(s)
    decreases |u|, Rank(s.state)
  {
    var m := next(s, u);
    !s.state.RlpCheckEscape2? && if m.done then Starved(s, u, m) else RunsDry(next, m.s, u[m.used..])
  }

  /** One more buffer of whole bytes b makes of a run over a and a run over what a has left and b one run. */
  ghost predicate GoesOn(next: Stepper, s: Parse, a: seq<bool>, b: seq<bool>)
    requires Lawful(next) && Saved(s)
  {
    var e := End(next, s, a);
    && |e.1| <= |a| && End(next, s, a + b) == End(next, e.0, e.1 + b)
    && Rewrite(next, s, a + b) == Rewrite(next, s, a)[..|a| - |e.1|] + Rewrite(next, e.0, e.1 + b)
  }

  /** The parts of a run's output and end, over a first step that goes on. */
  lemma StepOutput(next: Stepper, s: Parse, u: seq<bool>, m: Move, rest: seq<bool>)
    requires Lawful(next) && Saved(s) && m == next(s, u) && !m.done && rest == u[m.used..]
    ensures Rewrite(next, s, u) == Written(m, u) + Rewrite(next, m.s, rest) && End(next, s, u) == End(next, m.s, rest)
  {
  }

  lemma DoneOutput(next: Stepper, s: Parse, u: seq<bool>, m: Move, rest: seq<bool>)
    requires Lawful(next) && Saved(s) && m == next(s, u) && m.done && rest == u[m.used..]
    ensures Rewrite(next, s, u) == Written(m, u) + rest && End(next, s, u) == (m.s, rest)
  {
  }

  lemma LaterGoesOn(next: Stepper, s: Parse, a: seq<bool>, b: seq<bool>)
    requires Lawful(next) && Saved(s) && !next(s, a).done && next(s, a + b) == next(s, a)
    requires var m := next(s, a); GoesOn(next, m.s, a[m.used..], b)
    ensures GoesOn(next, s, a, b)
  {
    hide Lawful, Rewrite, End;
    LawfulHere(next, s, a);
    var m := next(s, a);
    var a1 := a[m.used..];
    assert (a + b)[m.used..] == a1 + b && Written(m, a + b) == Written(m, a);
    StepOutput(next, s, a, m, a1);
    StepOutput(next, s, a + b, m, a1 + b);
    var v, e := Rewrite(next, m.s, a1), End(next, m.s, a1);
    Front(Written(m, a), v, v[..|a1| - |e.1|], Rewrite(next, e.0, e.1 + b), |e.1|);
  }

  lemma LawfulHere(next: Stepper, s: Parse, u: seq<bool>)
    requires Lawful(next) && Saved(s)
    ensures Proper(next(s, u), u)
  {
  }

  lemma Front(w: seq<bool>, v: seq<bool>, x: seq<bool>, y: seq<bool>, k: nat)
    requires k <= |v| && x == v[..|v| - k]
    ensures (w + v)[..|w| + |v| - k] + y == w + (x + y)
  {
  }

  lemma LastGoesOn(next: Stepper, s: Parse, a: seq<bool>, b: seq<bool>, m: Move, n: Move)
    requires Lawful(next) && Saved(s) && m == next(s, a) && m.done && m.edit == []
    requires n == next(m.s, a[m.used..] + b) && next(s, a + b) == n.(used := n.used + m.used) && (m.used > 0 ==> n.edit == [])
    ensures GoesOn(next, s, a, b)
  {
    hide Lawful, Rewrite, End;
    LawfulHere(next, s, a);
    LawfulHere(next, s, a + b);
    LawfulHere(next, m.s, a[m.used..] + b);
    var k, w, n1 := m.used, a[m.used..] + b, next(s, a + b);
    var rest := w[n.used..];
    assert (a + b)[n1.used..] == rest;
    LastWritten(a, b, m, n, n1);
    DoneOutput(next, s, a, m, a[k..]);
    Kept(a, k);
    if n.done {
      DoneOutput(next, m.s, w, n, rest);
      DoneOutput(next, s, a + b, n1, rest);
      Regroup(a[..k], Written(n, w), rest);
    } else {
      StepOutput(next, m.s, w, n, rest);
      StepOutput(next, s, a + b, n1, rest);
      Regroup(a[..k], Written(n, w), Rewrite(next, n.s, rest));
    }
  }

  lemma LastWritten(a: seq<bool>, b: seq<bool>, m: Move, n: Move, n1: Move)
    requires Proper(m, a) && Proper(n, a[m.used..] + b) && m.edit == [] && (m.used > 0 ==> n.edit == [])
    requires n1 == n.(used := n.used + m.used) && Proper(n1, a + b)
    ensures Written(n1, a + b) == a[..m.used] + Written(n, a[m.used..] + b) && Written(m, a) == a[..m.used]
  {
  }

  lemma Kept(a: seq<bool>, k: nat)
    requires k <= |a|
    ensures (a[..k] + a[k..])[..k] == a[..k] && |a| - |a[k..]| == k
  {
  }

  lemma Regroup(x: seq<bool>, y: seq<bool>, z: seq<bool>)
    ensures (x + y) + z == x + (y + z)
  {
  }

  lemma {:induction false} RunGoesOn(c: Config, next: Stepper, s: Parse, a: seq<bool>, b: seq<bool>)
    requires Usable(c) && next == StepOf(c) && Lawful(next) && Saved(s) && |b| % 8 == 0 && RunsDry(next, s, a)
    ensures GoesOn(next, s, a, b)
    decreases |a|, Rank(s.state)
  {
    hide Next, GoesOn, Starved;
    var m := next(s, a);
    if m.done {
      var m1, n := StepResumes(c, s, a, b);
      LastGoesOn(next, s, a, b, m, n);
    } else {
      StepOn(c, s, a, b);
      RunGoesOn(c, next, m.s, a[m.used..], b);
      LaterGoesOn(next, s, a, b);
    }
  }

  // ---- a stream in buffers ----

  function Flat(bs: seq<seq<bool>>): seq<bool>
  {
    if bs == [] then [] else bs[0] + Flat(bs[1..])
  }

  /** DoVCDOptimize for one buffer after another, with left the bits handed on by the one before. */
  ghost function RunAll(next: Stepper, s: Parse, left: seq<bool>, bs: seq<seq<bool>>): (Parse, seq<bool>)
    requires Lawful(next) && Saved(s)
    decreases |bs|
  {
    if bs == [] then (s, left)
    else
      var e := End(next, s, left + bs[0]);
      RunAll(next, e.0, e.1, bs[1..])
  }

  /** Every buffer is used up. */
  ghost predicate AllDry(next: Stepper, s: Parse, left: seq<bool>, bs: seq<seq<bool>>)
    requires Lawful(next) && Saved(s)
    decreases |bs|
  {
    bs == [] ||
    (RunsDry(next, s, left + bs[0]) && var e := End(next, s, left + bs[0]); AllDry(next, e.0, e.1, bs[1..]))
  }

  /** However a stream is cut into buffers of whole bytes, the parser ends in the same state with the same bits left. */
  lemma {:induction false} CutsAgree(c: Config, next: Stepper, s: Parse, left: seq<bool>, bs: seq<seq<bool>>)
    requires Usable(c) && next == StepOf(c) && Lawful(next) && Saved(s) && bs != []
    requires (forall b :: b in bs ==> |b| % 8 == 0) && AllDry(next, s, left, bs)
    ensures RunAll(next, s, left, bs) == End(next, s, left + Flat(bs))
    decreases |bs|
  {
    hide StepOf, RunsDry, End, Lawful;
    var a, rest := left + bs[0], bs[1..];
    var e := End(next, s, a);
    if rest == [] {
      assert left + (bs[0] + []) == a;
    } else {
      CutsAgree(c, next, e.0, e.1, rest);
      FlatBytes(rest);
      RunGoesOn(c, next, s, a, Flat(rest));
      assert left + (bs[0] + Flat(rest)) == a + Flat(rest);
    }
  }

  lemma {:induction false} FlatBytes(bs: seq<seq<bool>>)
    requires forall b :: b in bs ==> |b| % 8 == 0
    ensures |Flat(bs)| % 8 == 0
  {
    if bs != [] {
      assert bs[0] in bs;
      FlatBytes(bs[1..]);
      BothBytes(|bs[0]|, |Flat(bs[1..])|);
    }
  }

  lemma BothBytes(m: nat, n: nat)
    requires m % 8 == 0 && n % 8 == 0
    ensures (m + n) % 8 == 0
  {
  }
}
