/** What the run-level parser does to a whole block of coefficients, on the checking path and on the fast one. */
module Blocks {
  import opened Bits
  import opened VlcCodes
  import opened VlcTable
  import opened Parser
  import opened Runs
  import opened Rewriting
  import opened Reparsing
  import opened Soundness

  // ---- the coefficients of a block ----

  /** How a level is written: as a code of the table, or after an escape in 8 or 16 bits. */
  datatype Coding = Code | Short | Long

  datatype Coefficient = Coefficient(index: nat, level: int, coding: Coding)

  /** The level after an escape and its run: 8 bits, or 16 when the low seven of them are zero. */
  function EscapeLevel(w: seq<bool>): int
    requires |w| >= 8 && |w| >= EscapeLen(w)
  {
    var n := EscapeLen(w);
    if w[0] then ValOf(w[n - 8..n]) - 256 else ValOf(w[n - 8..n])
  }

  function ItemLen(u: seq<bool>, first: bool): (n: nat)
    ensures n <= |u|
  {
    match Item(u, first)
    case EndOfBlock => 2
    case Coef(len, _, _, _) => len
    case Escape => if |u| >= 20 && |u| >= 12 + EscapeLen(u[12..]) then 12 + EscapeLen(u[12..]) else 0
    case _ => 0
  }

  /** The coefficient at the front of u, the index having reached index. */
  function FirstCoef(u: seq<bool>, first: bool, index: nat): Coefficient
    requires (Item(u, first).Coef? || Item(u, first).Escape?) && ItemLen(u, first) > 0
  {
    match Item(u, first)
    case Coef(len, run, level, _) => Coefficient(index + run, if u[len - 1] then 0 - level else level, Coding.Code)
    case Escape =>
      Coefficient(index + ValOf(u[6..12]), EscapeLevel(u[12..]), if EscapeLen(u[12..]) == 8 then Coding.Short else Long)
  }

  /** How a block ends: its coefficients and length, or a pattern that is no code, or no end in sight. */
  datatype Parsed = Whole(cs: seq<Coefficient>, len: nat) | LostAt(at: nat) | Unfinished

  function ParseBlock(u: seq<bool>, first: bool, index: nat): (r: Parsed)
    ensures r.Whole? ==> 2 <= r.len <= |u|
    ensures r.LostAt? ==> r.at + 17 <= |u|
    decreases |u|
  {
    var n := ItemLen(u, first);
    match Item(u, first)
    case EndOfBlock => Whole([], 2)
    case Bad => LostAt(0)
    case Coef(_, _, _, _) | Escape =>
      if n == 0 then Unfinished
      else
        var c := FirstCoef(u, first, index);
        (match ParseBlock(u[n..], false, c.index + 1)
         case Whole(cs, len) => Whole([c] + cs, n + len)
         case LostAt(at) => LostAt(n + at)
         case Unfinished => Unfinished)
    case _ => Unfinished
  }

  // ---- the fast path ----

  /** The look-ahead of the fast path is there when an item is followed by six more bits. */
  lemma FastReady(u: seq<bool>, first: bool)
    ensures var r := Item(u, first);
            || (r.Coef? && |u| >= r.len + 6)
            || (r.EndOfBlock? && |u| >= 6)
            || r.Escape?
            || (r.Bad? && |u| >= 17)
            ==> !FastItem(u, first).Short? && !FastItem(u, first).Cut?
  {
    ReadyStage1(u, first);
    if CheckStage1(u, first).SecondTable? { ReadyStage2(u[6..]); }
  }

  lemma ReadyStage1(u: seq<bool>, first: bool)
    ensures var r := CheckStage1(u, first);
            (r.Coef? && |u| >= r.len + 6) || (r.EndOfBlock? && |u| >= 6) || r.Escape? || r.SecondTable? ==>
            !OkStage1(u, first).Short? && !OkStage1(u, first).Cut?
  {
  }

  lemma ReadyStage2(u: seq<bool>)
    ensures var r := CheckStage2(u);
            (r.Coef? && |u| >= r.len + 6) || r.Bad? ==> !OkStage2(u).Short?
  {
  }

  /** The level bits of an escape, negated or not. */
  function LevelSet(w: seq<bool>, flip: bool): (r: seq<bool>)
    requires |w| >= 8 && |w| >= EscapeLen(w) && (flip ==> EscapeLen(w) == 8)
    ensures |r| == EscapeLen(w)
  {
    if flip then Negated(w[..8]) else w[..EscapeLen(w)]
  }

  /** A short level is negated exactly when it is from -8 to -1 and its threshold covers it. */
  lemma SmallIsNegative(w: seq<bool>, t: nat)
    requires |w| >= 8 && EscapeLen(w) == 8
    ensures SmallNegative(w, t) <==> -8 <= EscapeLevel(w) < 0 && t >= -EscapeLevel(w)
  {
    var b := w[..8];
    assert w[0..8] == b;
    if w[0] && w[1] && w[2] && w[3] && w[4] {
      SmallValue(b);
    } else {
      BelowSmall(b);
    }
  }

  lemma BelowSmall(b: seq<bool>)
    requires |b| == 8
    ensures !(b[0] && b[1] && b[2] && b[3] && b[4]) ==> ValOf(b) < 248
    ensures !b[0] ==> ValOf(b) < 128
    ensures ValOf(b) < 256
  {
    ValLast(b, 0);
    ValLast(b, 1);
    ValLast(b, 2);
    ValLast(b, 3);
    ValLast(b, 4);
    ValLast(b, 5);
    ValLast(b, 6);
    ValLast(b, 7);
    assert b[..8] == b;
  }


  // ---- one item, taken in one step or two ----

  /** Writes w over the first |w| bits and goes to t. */
  predicate Writes(m: Move, u: seq<bool>, t: Parse, w: seq<bool>)
    requires Proper(m, u)
  {
    !m.done && m.s == t && Written(m, u) == w
  }

  lemma StepTo(next: Stepper, s: Parse, u: seq<bool>, t: Parse, w: seq<bool>)
    requires Lawful(next) && Saved(s) && Writes(next(s, u), u, t, w)
    ensures Reaches(next, s, u, t, w)
  {
    OneStep(next, s, u);
  }

  lemma TwoSteps(next: Stepper, s: Parse, u: seq<bool>, t: Parse, n: nat, r: Parse, w: seq<bool>)
    requires Lawful(next) && Saved(s) && Saved(t) && n <= |u|
    requires Writes(next(s, u), u, t, u[..n]) && Writes(next(t, u[n..]), u[n..], r, w)
    ensures Reaches(next, s, u, r, u[..n] + w)
  {
    StepTo(next, s, u, t, u[..n]);
    StepTo(next, t, u[n..], r, w);
    ReachesTrans(next, s, u, t, u[..n], r, w);
  }

  lemma PlainWrites(t: Parse, u: seq<bool>, n: nat)
    requires n <= |u| && Saved(t)
    ensures Writes(Move(t, n, [], false), u, t, u[..n])
  {
  }

  // ---- what becomes of a coefficient ----

  /** The test a negative coefficient has to pass: codes up to level 7, short levels up to 8, against the threshold. */
  predicate Qualifies(c: Config, q: Quantizer, intra: bool, k: Coefficient)
    requires Tables(q)
  {
    && -(match k.coding case Code => 7 case Short => 8 case Long => 0) <= k.level < 0
    && ThreshAt(c, q, intra, k.index) >= -k.level
  }

  predicate Flips(c: Config, s: Parse, k: Coefficient)
    requires Saved(s)
  {
    s.state.RlpCheckStage1? && Qualifies(c, s.q, s.b.intraTable, k)
  }

  /** An escape whose threshold is 0: past it the rest of the block goes unchecked. */
  predicate EndsChecking(c: Config, q: Quantizer, intra: bool, k: Coefficient)
    requires Tables(q)
  {
    !k.coding.Code? && ThreshAt(c, q, intra, k.index) == 0
  }

  function Unfirst(s: Parse): Parse { s.(b := s.b.(coefFirst := false)) }

  /** The state after a coefficient. */
  function After(c: Config, s: Parse, k: Coefficient): (t: Parse)
    requires Saved(s) && (s.state.RlpOkStage1? || s.state.RlpCheckStage1?)
    ensures Saved(t) && (t.state.RlpOkStage1? || t.state.RlpCheckStage1?) && !t.b.coefFirst && t.q == s.q
  {
    var s1 := Unfirst(s);
    if s.state.RlpOkStage1? then s1
    else if EndsChecking(c, s.q, s.b.intraTable, k) then s1.(b := s1.b.(coefIndex := k.index), state := RlpOkStage1)
    else NextCoef(s1, k.index)
  }

  /** The bits of a code with its sign bit cleared or not. */
  function SignSet(u: seq<bool>, len: nat, clear: bool): (w: seq<bool>)
    requires 0 < len <= |u|
    ensures |w| == len
  {
    u[..len - 1] + [u[len - 1] && !clear]
  }

  /** The bits of an item, its level negated or not. */
  function ItemBits(u: seq<bool>, first: bool, flip: bool): (w: seq<bool>)
    requires (Item(u, first).Coef? || Item(u, first).Escape?) && ItemLen(u, first) > 0
    requires flip && Item(u, first).Escape? ==> EscapeLen(u[12..]) == 8
    ensures |w| == ItemLen(u, first)
  {
    var r := Item(u, first);
    if r.Coef? then SignSet(u, r.len, flip) else u[..12] + LevelSet(u[12..], flip)
  }

  // ---- the fast path ----

  /** The fast path leaves a coefficient as it is. */
  lemma OkSingle(next: Stepper, s: Parse, u: seq<bool>)
    requires Lawful(next) && Saved(s) && s.state.RlpOkStage1? && next(s, u) == OkStage1Move(s, u)
    requires OkStage1(u, s.b.coefFirst).Coef?
    ensures Reaches(next, s, u, Unfirst(s), u[..OkStage1(u, s.b.coefFirst).len])
  {
    var n := OkStage1(u, s.b.coefFirst).len;
    PlainWrites(Unfirst(s), u, n);
    StepTo(next, s, u, Unfirst(s), u[..n]);
  }

  lemma OkDouble(next: Stepper, s: Parse, u: seq<bool>)
    requires Lawful(next) && Saved(s) && s.state.RlpOkStage1? && next(s, u) == OkStage1Move(s, u)
    requires OkStage1(u, s.b.coefFirst).SecondTable? && OkStage2(u[6..]).Coef?
    requires var t := Unfirst(s).(state := RlpOkStage2); next(t, u[6..]) == OkStage2Move(t, u[6..])
    ensures Reaches(next, s, u, Unfirst(s), u[..OkStage2(u[6..]).len + 6])
  {
    var t, n := Unfirst(s).(state := RlpOkStage2), OkStage2(u[6..]).len;
    PlainWrites(t, u, 6);
    PlainWrites(Unfirst(s), u[6..], n);
    TwoSteps(next, s, u, t, 6, Unfirst(s), u[6..][..n]);
    assert u[..6] + u[6..][..n] == u[..n + 6];
  }

  lemma OkEscaped(next: Stepper, s: Parse, u: seq<bool>, n: nat)
    requires Lawful(next) && Saved(s) && s.state.RlpOkStage1? && next(s, u) == OkStage1Move(s, u)
    requires OkStage1(u, s.b.coefFirst).Escape? && |u| >= 20 && n == EscapeLen(u[12..]) && |u| >= 12 + n
    requires var t := Unfirst(s).(state := RlpOkEscape); next(t, u[12..]) == OkEscapeMove(t, u[12..])
    ensures Reaches(next, s, u, Unfirst(s), u[..12] + u[12..][..n])
  {
    var t := Unfirst(s).(state := RlpOkEscape);
    PlainWrites(t, u, 12);
    PlainWrites(Unfirst(s), u[12..], n);
    TwoSteps(next, s, u, t, 12, Unfirst(s), u[12..][..n]);
  }

  // ---- the checking path ----

  lemma CoefWritten(c: Config, s: Parse, u: seq<bool>, len: nat, run: nat, level: nat, tested: bool)
    requires Saved(s) && Counts(s.b) && 0 < len <= |u|
    ensures var clear := tested && ThreshAt(c, s.q, s.b.intraTable, s.b.coefIndex + run) >= level;
            Writes(CoefMove(c, s, u, len, run, level, tested), u, NextCoef(s, s.b.coefIndex + run), SignSet(u, len, clear))
  {
  }

  lemma CheckSingle(next: Stepper, c: Config, s: Parse, u: seq<bool>, n: nat, index: nat, clear: bool)
    requires Lawful(next) && Saved(s) && s.state.RlpCheckStage1? && next(s, u) == CheckStage1Move(c, s, u)
    requires CheckStage1(u, s.b.coefFirst).Coef?
    requires var r := CheckStage1(u, s.b.coefFirst);
             && n == r.len && index == s.b.coefIndex + r.run
             && clear == (r.tested && ThreshAt(c, s.q, s.b.intraTable, index) >= r.level)
    ensures Reaches(next, s, u, NextCoef(Unfirst(s), index), SignSet(u, n, clear))
  {
    var r := CheckStage1(u, s.b.coefFirst);
    CoefWritten(c, Unfirst(s), u, r.len, r.run, r.level, r.tested);
    StepTo(next, s, u, NextCoef(Unfirst(s), index), SignSet(u, n, clear));
  }

  lemma SignSetLater(u: seq<bool>, len: nat, clear: bool)
    requires 0 < len && len + 6 <= |u|
    ensures u[..6] + SignSet(u[6..], len, clear) == SignSet(u, len + 6, clear)
  {
    assert u[6..][..len - 1] == u[6..len + 5];
  }

  lemma CheckDouble(next: Stepper, c: Config, s: Parse, u: seq<bool>, n: nat, index: nat, clear: bool)
    requires Lawful(next) && Saved(s) && s.state.RlpCheckStage1? && next(s, u) == CheckStage1Move(c, s, u)
    requires CheckStage1(u, s.b.coefFirst).SecondTable? && CheckStage2(u[6..]).Coef?
    requires var t := Unfirst(s).(state := RlpCheckStage2); next(t, u[6..]) == CheckStage2Move(c, t, u[6..])
    requires var r := CheckStage2(u[6..]);
             && n == r.len + 6 && index == s.b.coefIndex + r.run
             && clear == (r.tested && ThreshAt(c, s.q, s.b.intraTable, index) >= r.level)
    ensures Reaches(next, s, u, NextCoef(Unfirst(s), index), SignSet(u, n, clear))
  {
    hide CheckStage1Move, CheckStage1, CheckStage2Move, Writes, SignSet, Reaches;
    var t, r := Unfirst(s).(state := RlpCheckStage2), CheckStage2(u[6..]);
    FirstStage(c, s, u);
    SecondStage(c, t, u[6..]);
    TwoSteps(next, s, u, t, 6, NextCoef(t, index), SignSet(u[6..], r.len, clear));
    SignSetLater(u, r.len, clear);
  }

  lemma FirstStage(c: Config, s: Parse, u: seq<bool>)
    requires Saved(s) && s.state.RlpCheckStage1? && CheckStage1(u, s.b.coefFirst).SecondTable?
    ensures var t := Unfirst(s).(state := RlpCheckStage2); Saved(t) && Writes(CheckStage1Move(c, s, u), u, t, u[..6])
  {
    PlainWrites(Unfirst(s).(state := RlpCheckStage2), u, 6);
  }

  lemma SecondStage(c: Config, t: Parse, w: seq<bool>)
    requires Saved(t) && t.state.RlpCheckStage2? && CheckStage2(w).Coef?
    ensures var r := CheckStage2(w);
            var index := t.b.coefIndex + r.run;
            Writes(CheckStage2Move(c, t, w), w, NextCoef(t, index),
                   SignSet(w, r.len, r.tested && ThreshAt(c, t.q, t.b.intraTable, index) >= r.level))
  {
    var r := CheckStage2(w);
    CoefWritten(c, t, w, r.len, r.run, r.level, r.tested);
  }

  lemma EscapeWritten(c: Config, s: Parse, w: seq<bool>)
    requires Saved(s) && Counts(s.b) && |w| >= 8 && |w| >= EscapeLen(w)
    ensures var t := ThreshAt(c, s.q, s.b.intraTable, s.b.coefIndex);
            Writes(EscapeMove(c, s, w), w, NextCoef(s, s.b.coefIndex), LevelSet(w, EscapeLen(w) == 8 && SmallNegative(w, t)))
  {
  }

  lemma CheckEscaped(next: Stepper, c: Config, s: Parse, u: seq<bool>, index: nat, thresh: nat, flip: bool)
    requires Lawful(next) && Saved(s) && s.state.RlpCheckStage1? && next(s, u) == CheckStage1Move(c, s, u)
    requires CheckStage1(u, s.b.coefFirst).Escape? && |u| >= 20 && |u| >= 12 + EscapeLen(u[12..])
    requires index == s.b.coefIndex + ValOf(u[6..12]) && thresh == ThreshAt(c, s.q, s.b.intraTable, index) > 0
    requires var t := Unfirst(s).(b := Unfirst(s).b.(coefIndex := index), state := RlpCheckEscape);
             next(t, u[12..]) == EscapeMove(c, t, u[12..])
    requires flip == (EscapeLen(u[12..]) == 8 && SmallNegative(u[12..], thresh))
    ensures Reaches(next, s, u, NextCoef(Unfirst(s), index), u[..12] + LevelSet(u[12..], flip))
  {
    var t := Unfirst(s).(b := Unfirst(s).b.(coefIndex := index), state := RlpCheckEscape);
    var w := u[12..];
    PlainWrites(t, u, 12);
    EscapeWritten(c, t, w);
    TwoSteps(next, s, u, t, 12, NextCoef(t, index), LevelSet(w, flip));
  }

  lemma CheckSkipped(next: Stepper, c: Config, s: Parse, u: seq<bool>, index: nat)
    requires Lawful(next) && Saved(s) && s.state.RlpCheckStage1? && next(s, u) == CheckStage1Move(c, s, u)
    requires CheckStage1(u, s.b.coefFirst).Escape? && |u| >= 20 && |u| >= 12 + EscapeLen(u[12..])
    requires index == s.b.coefIndex + ValOf(u[6..12]) && ThreshAt(c, s.q, s.b.intraTable, index) == 0
    requires var t := Unfirst(s).(b := Unfirst(s).b.(coefIndex := index), state := RlpOkEscape);
             next(t, u[12..]) == OkEscapeMove(t, u[12..])
    ensures var w := u[12..];
            Reaches(next, s, u, Unfirst(s).(b := Unfirst(s).b.(coefIndex := index), state := RlpOkStage1),
                    u[..12] + w[..EscapeLen(w)])
  {
    var t := Unfirst(s).(b := Unfirst(s).b.(coefIndex := index), state := RlpOkEscape);
    var w := u[12..];
    PlainWrites(t, u, 12);
    PlainWrites(t.(state := RlpOkStage1), w, EscapeLen(w));
    TwoSteps(next, s, u, t, 12, t.(state := RlpOkStage1), w[..EscapeLen(w)]);
  }

  // ---- any item ----

  /** In the run-level states, next is DoVCDOptimize's step. */
  ghost predicate RunsBlocks(c: Config, next: Stepper)
  {
    forall s, u :: Saved(s) ==>
      && (s.state.RlpOkStage1? ==> next(s, u) == OkStage1Move(s, u))
      && (s.state.RlpOkStage2? ==> next(s, u) == OkStage2Move(s, u))
      && (s.state.RlpOkEscape? ==> next(s, u) == OkEscapeMove(s, u))
      && (s.state.RlpCheckStage1? ==> next(s, u) == CheckStage1Move(c, s, u))
      && (s.state.RlpCheckStage2? ==> next(s, u) == CheckStage2Move(c, s, u))
      && (s.state.RlpCheckEscape? ==> next(s, u) == EscapeMove(c, s, u))
  }

  lemma StepOfIs(c: Config, s: Parse, u: seq<bool>)
    requires Usable(c) && Saved(s)
    ensures s.state.RlpOkStage1? ==> StepOf(c)(s, u) == OkStage1Move(s, u)
    ensures s.state.RlpOkStage2? ==> StepOf(c)(s, u) == OkStage2Move(s, u)
    ensures s.state.RlpOkEscape? ==> StepOf(c)(s, u) == OkEscapeMove(s, u)
    ensures s.state.RlpCheckStage1? ==> StepOf(c)(s, u) == CheckStage1Move(c, s, u)
    ensures s.state.RlpCheckStage2? ==> StepOf(c)(s, u) == CheckStage2Move(c, s, u)
    ensures s.state.RlpCheckEscape? ==> StepOf(c)(s, u) == EscapeMove(c, s, u)
  {
  }

  lemma StepOfRunsBlocks(c: Config)
    requires Usable(c)
    ensures Lawful(StepOf(c)) && RunsBlocks(c, StepOf(c))
  {
    StepOfLawful(c);
    forall s, u | Saved(s)
      ensures s.state.RlpOkStage1? ==> StepOf(c)(s, u) == OkStage1Move(s, u)
      ensures s.state.RlpOkStage2? ==> StepOf(c)(s, u) == OkStage2Move(s, u)
      ensures s.state.RlpOkEscape? ==> StepOf(c)(s, u) == OkEscapeMove(s, u)
      ensures s.state.RlpCheckStage1? ==> StepOf(c)(s, u) == CheckStage1Move(c, s, u)
      ensures s.state.RlpCheckStage2? ==> StepOf(c)(s, u) == CheckStage2Move(c, s, u)
      ensures s.state.RlpCheckEscape? ==> StepOf(c)(s, u) == EscapeMove(c, s, u)
    {
      StepOfIs(c, s, u);
    }
  }

  lemma Stage1Levels(u: seq<bool>, first: bool)
    ensures CheckStage1(u, first).Coef? ==> var r := CheckStage1(u, first); r.tested && 0 < r.level <= 7
  {
  }

  lemma Stage2Levels(u: seq<bool>)
    ensures CheckStage2(u).Coef? ==> var r := CheckStage2(u); r.level > 0 && (r.tested <==> r.level <= 7)
  {
  }

  /** Codes are tested when their level is at most 7, and no level is 0. */
  lemma TestedLevels(u: seq<bool>, first: bool)
    ensures Item(u, first).Coef? ==> Item(u, first).level > 0 && (Item(u, first).tested <==> Item(u, first).level <= 7)
  {
    Stage1Levels(u, first);
    if |u| >= 6 { Stage2Levels(u[6..]); }
  }

  lemma OkCode(c: Config, next: Stepper, s: Parse, u: seq<bool>, n: nat)
    requires Lawful(next) && RunsBlocks(c, next) && Saved(s) && s.state.RlpOkStage1?
    requires FastItem(u, s.b.coefFirst).Coef? && n == FastItem(u, s.b.coefFirst).len
    ensures Reaches(next, s, u, Unfirst(s), SignSet(u, n, false))
  {
    WholeCode(u, n);
    if OkStage1(u, s.b.coefFirst).Coef? {
      OkSingle(next, s, u);
    } else {
      OkDouble(next, s, u);
    }
  }

  lemma OkItem(c: Config, next: Stepper, s: Parse, u: seq<bool>)
    requires Lawful(next) && RunsBlocks(c, next) && Saved(s) && s.state.RlpOkStage1?
    requires (Item(u, s.b.coefFirst).Coef? || Item(u, s.b.coefFirst).Escape?) && ItemLen(u, s.b.coefFirst) > 0
    requires |u| >= ItemLen(u, s.b.coefFirst) + 6
    ensures Reaches(next, s, u, Unfirst(s), ItemBits(u, s.b.coefFirst, false))
  {
    hide Item, FastItem, OkStage1, Reaches, RunsBlocks, SignSet, OkStage1Move, OkEscapeMove;
    FastReady(u, s.b.coefFirst);
    FastItemIsItem(u, s.b.coefFirst);
    if Item(u, s.b.coefFirst).Coef? {
      OkCode(c, next, s, u, Item(u, s.b.coefFirst).len);
    } else {
      EscapeAlone(u, s.b.coefFirst);
      FastSteps(c, next, s, u);
      OkEscaped(next, s, u, EscapeLen(u[12..]));
    }
  }

  /** An escape is found by the first stage. */
  lemma EscapeAlone(u: seq<bool>, first: bool)
    ensures FastItem(u, first).Escape? ==> OkStage1(u, first).Escape?
  {
  }

  lemma FastSteps(c: Config, next: Stepper, s: Parse, u: seq<bool>)
    requires RunsBlocks(c, next) && Saved(s) && s.state.RlpOkStage1? && |u| >= 12
    ensures next(s, u) == OkStage1Move(s, u)
    ensures var t := Unfirst(s).(state := RlpOkEscape); next(t, u[12..]) == OkEscapeMove(t, u[12..])
  {
  }

  lemma WholeCode(u: seq<bool>, n: nat)
    requires 0 < n <= |u|
    ensures SignSet(u, n, false) == u[..n]
  {
  }

  /** What a code's sign bit becomes. */
  lemma CodeCleared(c: Config, q: Quantizer, intra: bool, u: seq<bool>, first: bool, k: Coefficient, index: nat)
    requires Tables(q) && Item(u, first).Coef? && k == FirstCoef(u, first, index)
    ensures var r := Item(u, first);
            SignSet(u, r.len, r.tested && ThreshAt(c, q, intra, k.index) >= r.level) == SignSet(u, r.len, Qualifies(c, q, intra, k))
  {
    TestedLevels(u, first);
  }

  lemma CheckCode(c: Config, next: Stepper, s: Parse, u: seq<bool>, k: Coefficient)
    requires Lawful(next) && RunsBlocks(c, next) && Saved(s) && s.state.RlpCheckStage1?
    requires Item(u, s.b.coefFirst).Coef? && k == FirstCoef(u, s.b.coefFirst, s.b.coefIndex)
    ensures Reaches(next, s, u, NextCoef(Unfirst(s), k.index),
                    SignSet(u, Item(u, s.b.coefFirst).len, Qualifies(c, s.q, s.b.intraTable, k)))
  {
    var first := s.b.coefFirst;
    var r := Item(u, first);
    var clear := r.tested && ThreshAt(c, s.q, s.b.intraTable, k.index) >= r.level;
    CodeCleared(c, s.q, s.b.intraTable, u, first, k, s.b.coefIndex);
    if CheckStage1(u, first).Coef? {
      CheckSingle(next, c, s, u, r.len, k.index, clear);
    } else {
      CheckDouble(next, c, s, u, r.len, k.index, clear);
    }
  }

  /** Which escaped levels are negated. */
  lemma EscapeFlips(c: Config, q: Quantizer, intra: bool, w: seq<bool>, k: Coefficient)
    requires Tables(q) && |w| >= 8 && |w| >= EscapeLen(w) && k.level == EscapeLevel(w)
    requires k.coding == if EscapeLen(w) == 8 then Coding.Short else Long
    ensures var t := ThreshAt(c, q, intra, k.index);
            Qualifies(c, q, intra, k) == (EscapeLen(w) == 8 && SmallNegative(w, t))
    ensures Qualifies(c, q, intra, k) ==> ThreshAt(c, q, intra, k.index) > 0
  {
    if EscapeLen(w) == 8 { SmallIsNegative(w, ThreshAt(c, q, intra, k.index)); }
  }

  lemma CheckEscape(c: Config, next: Stepper, s: Parse, u: seq<bool>, k: Coefficient, flip: bool)
    requires Lawful(next) && RunsBlocks(c, next) && Saved(s) && s.state.RlpCheckStage1?
    requires Item(u, s.b.coefFirst).Escape? && ItemLen(u, s.b.coefFirst) > 0 && k == FirstCoef(u, s.b.coefFirst, s.b.coefIndex)
    requires flip == Qualifies(c, s.q, s.b.intraTable, k)
    ensures Reaches(next, s, u, After(c, s, k), u[..12] + LevelSet(u[12..], flip))
  {
    var thresh := ThreshAt(c, s.q, s.b.intraTable, k.index);
    EscapeFlips(c, s.q, s.b.intraTable, u[12..], k);
    if thresh > 0 {
      CheckEscaped(next, c, s, u, k.index, thresh, flip);
    } else {
      CheckSkipped(next, c, s, u, k.index);
    }
  }

  /** The index the next run counts from, as far as the path knows it. */
  predicate Ready(s: Parse, index: nat)
  {
    Saved(s) && (s.state.RlpOkStage1? || (s.state.RlpCheckStage1? && s.b.coefIndex == index))
  }

  /** An item followed by six more bits, on either path. */
  lemma ItemStep(c: Config, next: Stepper, s: Parse, u: seq<bool>, index: nat, k: Coefficient)
    requires Lawful(next) && RunsBlocks(c, next) && Ready(s, index)
    requires (Item(u, s.b.coefFirst).Coef? || Item(u, s.b.coefFirst).Escape?) && ItemLen(u, s.b.coefFirst) > 0
    requires |u| >= ItemLen(u, s.b.coefFirst) + 6 && k == FirstCoef(u, s.b.coefFirst, index)
    ensures Ready(After(c, s, k), k.index + 1)
    ensures Reaches(next, s, u, After(c, s, k), ItemBits(u, s.b.coefFirst, Flips(c, s, k)))
  {
    if s.state.RlpOkStage1? {
      OkItem(c, next, s, u);
    } else if k.coding.Code? {
      CheckCode(c, next, s, u, k);
    } else {
      CheckEscape(c, next, s, u, k, Flips(c, s, k));
    }
  }

  // ---- whole blocks ----

  /** Where the last item of a block leads: on to the next block, or off to look for a slice. */
  function EndState(s: Parse, whole: bool): (t: Parse)
    requires Saved(s) && (s.state.RlpOkStage1? || s.state.RlpCheckStage1?)
    ensures Saved(t)
  {
    if !whole then Unfirst(s).(state := SliceStart)
    else
      var b := if s.state.RlpOkStage1? then Unfirst(s).b else s.b;
      s.(b := DropBlock(b), state := BlockStart)
  }

  lemma EndOfBlockStep(c: Config, next: Stepper, s: Parse, u: seq<bool>)
    requires Lawful(next) && RunsBlocks(c, next) && Saved(s) && (s.state.RlpOkStage1? || s.state.RlpCheckStage1?)
    requires Item(u, s.b.coefFirst).EndOfBlock? && |u| >= 6
    ensures Reaches(next, s, u, EndState(s, true), u[..2])
  {
    FastReady(u, s.b.coefFirst);
    FastItemIsItem(u, s.b.coefFirst);
    PlainWrites(EndState(s, true), u, 2);
    StepTo(next, s, u, EndState(s, true), u[..2]);
  }

  lemma BadStep(c: Config, next: Stepper, s: Parse, u: seq<bool>)
    requires Lawful(next) && RunsBlocks(c, next) && Saved(s) && (s.state.RlpOkStage1? || s.state.RlpCheckStage1?)
    requires Item(u, s.b.coefFirst).Bad? && |u| >= 17
    ensures Reaches(next, s, u, EndState(s, false), u[..6])
  {
    FastReady(u, s.b.coefFirst);
    FastItemIsItem(u, s.b.coefFirst);
    var t := EndState(s, false);
    var t2 := t.(state := if s.state.RlpOkStage1? then RlpOkStage2 else RlpCheckStage2);
    PlainWrites(t2, u, 6);
    PlainWrites(t, u[6..], 0);
    TwoSteps(next, s, u, t2, 6, t, []);
    assert u[..6] + [] == u[..6];
  }

  predicate More(r: Rlp) { r.Coef? || r.Escape? }

  predicate Nothing(p: Parsed)
    requires !p.Unfinished?
  {
    if p.Whole? then p.cs == [] else p.at == 0
  }

  /** A block that ends is an item and a block that ends. */
  lemma BlockRest(u: seq<bool>, first: bool, index: nat, p: Parsed) returns (n: nat, k: Coefficient, p1: Parsed)
    requires p == ParseBlock(u, first, index) && !p.Unfinished? && !Nothing(p)
    ensures More(Item(u, first)) && 0 < n == ItemLen(u, first) && k == FirstCoef(u, first, index)
    ensures p1 == ParseBlock(u[n..], false, k.index + 1) && !p1.Unfinished? && p1.Whole? == p.Whole?
    ensures if p.Whole? then p == Whole([k] + p1.cs, n + p1.len) else p == LostAt(n + p1.at)
    ensures Margin(p, u) ==> Margin(p1, u[n..]) && |u| >= n + 6
  {
    n, k := ItemLen(u, first), FirstCoef(u, first, index);
    p1 := ParseBlock(u[n..], false, k.index + 1);
  }

  lemma BlockEnds(u: seq<bool>, first: bool, index: nat, p: Parsed)
    requires p == ParseBlock(u, first, index) && !p.Unfinished? && Nothing(p)
    ensures if Item(u, first).EndOfBlock? then p == Whole([], 2) else Item(u, first).Bad? && p == LostAt(0) && |u| >= 17
  {
  }

  function Taken(p: Parsed): nat
    requires !p.Unfinished?
  {
    if p.Whole? then p.len else p.at + 6
  }

  predicate Margin(p: Parsed, u: seq<bool>) { !p.Unfinished? && (p.Whole? ==> |u| >= p.len + 4) }

  predicate SameBlock(s: Parse, t: Parse)
  {
    t.q == s.q && t.mb == s.mb && t.b.luma == s.b.luma && t.b.chroma == s.b.chroma
  }

  /** Where a block that began in state s leaves off. */
  predicate Ended(s: Parse, t: Parse, whole: bool)
    requires Saved(s) && Counts(s.b)
  {
    && t.q == s.q && t.mb == s.mb
    && t.state == (if whole then BlockStart else SliceStart)
    && t.b.luma == (if whole then DropBlock(s.b) else s.b).luma
    && t.b.chroma == (if whole then DropBlock(s.b) else s.b).chroma
  }

  /** Across one item. */
  lemma BlockStep(c: Config, next: Stepper, s: Parse, u: seq<bool>, index: nat, p: Parsed)
    returns (t: Parse, x: seq<bool>, i: nat, p1: Parsed)
    requires Lawful(next) && RunsBlocks(c, next) && Ready(s, index)
    requires p == ParseBlock(u, s.b.coefFirst, index) && Margin(p, u) && !Nothing(p)
    ensures Ready(t, i) && SameBlock(s, t) && 0 < |x| <= |u| && Reaches(next, s, u, t, x)
    ensures p1 == ParseBlock(u[|x|..], t.b.coefFirst, i) && Margin(p1, u[|x|..])
    ensures s.state.RlpOkStage1? ==> t.state.RlpOkStage1? && x == u[..|x|]
    ensures p1.Whole? == p.Whole? && Taken(p) == |x| + Taken(p1)
  {
    var n, k, p2 := BlockRest(u, s.b.coefFirst, index, p);
    t, x := ItemGoes(c, next, s, u, index, k, n);
    i, p1 := k.index + 1, p2;
  }

  lemma WholeItem(u: seq<bool>, first: bool)
    requires More(Item(u, first)) && ItemLen(u, first) > 0
    ensures ItemBits(u, first, false) == u[..ItemLen(u, first)]
  {
    if Item(u, first).Coef? {
      WholeCode(u, Item(u, first).len);
    } else {
      assert u[..12] + u[12..][..EscapeLen(u[12..])] == u[..12 + EscapeLen(u[12..])];
    }
  }

  lemma ItemGoes(c: Config, next: Stepper, s: Parse, u: seq<bool>, index: nat, k: Coefficient, n: nat)
    returns (t: Parse, x: seq<bool>)
    requires Lawful(next) && RunsBlocks(c, next) && Ready(s, index)
    requires More(Item(u, s.b.coefFirst)) && 0 < n == ItemLen(u, s.b.coefFirst) && |u| >= n + 6
    requires k == FirstCoef(u, s.b.coefFirst, index)
    ensures Ready(t, k.index + 1) && SameBlock(s, t) && !t.b.coefFirst && |x| == n && Reaches(next, s, u, t, x)
    ensures s.state.RlpOkStage1? ==> t.state.RlpOkStage1? && x == u[..n]
  {
    WholeItem(u, s.b.coefFirst);
    ItemStep(c, next, s, u, index, k);
    t, x := After(c, s, k), ItemBits(u, s.b.coefFirst, Flips(c, s, k));
  }

  /** Across the end. */
  lemma EndStep(c: Config, next: Stepper, s: Parse, u: seq<bool>, index: nat, p: Parsed)
    returns (t: Parse, x: seq<bool>)
    requires Lawful(next) && RunsBlocks(c, next) && Ready(s, index)
    requires p == ParseBlock(u, s.b.coefFirst, index) && Margin(p, u) && Nothing(p)
    ensures Saved(t) && Ended(s, t, p.Whole?) && |x| == Taken(p) && Reaches(next, s, u, t, x)
    ensures x == u[..|x|]
  {
    BlockEnds(u, s.b.coefFirst, index, p);
    if p.Whole? { EndOfBlockStep(c, next, s, u); } else { BadStep(c, next, s, u); }
    t, x := EndState(s, p.Whole?), u[..Taken(p)];
  }

  lemma PrefixSum(u: seq<bool>, x: seq<bool>, w: seq<bool>)
    requires |x| <= |u| && x == u[..|x|] && |w| <= |u[|x|..]| && w == u[|x|..][..|w|]
    ensures |x + w| <= |u| && x + w == u[..|x + w|]
  {
  }

  /** Either path takes exactly the bits of the block's items and ends as the block ends. */
  lemma {:induction false} BlockRun(c: Config, next: Stepper, s: Parse, u: seq<bool>, index: nat, p: Parsed)
    returns (t: Parse, w: seq<bool>)
    requires Lawful(next) && RunsBlocks(c, next) && Ready(s, index)
    requires p == ParseBlock(u, s.b.coefFirst, index) && Margin(p, u)
    ensures Saved(t) && Ended(s, t, p.Whole?) && |w| == Taken(p) && Reaches(next, s, u, t, w)
    ensures s.state.RlpOkStage1? ==> |w| <= |u| && w == u[..|w|]
    decreases |u|
  {
    if Nothing(p) {
      t, w := EndStep(c, next, s, u, index, p);
    } else {
      var s1, x, i, p1 := BlockStep(c, next, s, u, index, p);
      t, w := BlockRun(c, next, s1, u[|x|..], i, p1);
      ReachesTrans(next, s, u, s1, x, t, w);
      if s.state.RlpOkStage1? { PrefixSum(u, x, w); }
      w := x + w;
    }
  }

  /** The fast path and the checking path, from the same point of the same block: both take exactly
      the bits of the block, end in the same state, and the fast path leaves the bits as they were. */
  lemma FastIsSlow(c: Config, fast: Parse, slow: Parse, u: seq<bool>, index: nat)
    returns (f: Parse, g: Parse, w: seq<bool>, x: seq<bool>)
    requires Usable(c) && Saved(fast) && fast.state.RlpOkStage1? && Ready(slow, index) && slow.state.RlpCheckStage1?
    requires SameBlock(fast, slow) && fast.b.coefFirst == slow.b.coefFirst
    requires Margin(ParseBlock(u, fast.b.coefFirst, index), u)
    ensures Lawful(StepOf(c)) && Saved(f) && Saved(g)
    ensures Reaches(StepOf(c), fast, u, f, w) && Reaches(StepOf(c), slow, u, g, x)
    ensures |w| == |x| == Taken(ParseBlock(u, fast.b.coefFirst, index)) <= |u| && w == u[..|w|]
    ensures SameBlock(f, g) && f.state == g.state
    ensures f.state == if ParseBlock(u, fast.b.coefFirst, index).Whole? then BlockStart else SliceStart
  {
    var p := ParseBlock(u, fast.b.coefFirst, index);
    StepOfRunsBlocks(c);
    f, w := BlockRun(c, StepOf(c), fast, u, index, p);
    g, x := BlockRun(c, StepOf(c), slow, u, index, p);
  }

  // ---- what the output says ----

  function Turned(k: Coefficient, flip: bool): Coefficient { if flip then k.(level := -k.level) else k }

  lemma CodeSeen(u: seq<bool>, v: seq<bool>, first: bool, flip: bool)
    requires |u| == |v| && Item(u, first).Coef? && v[..Item(u, first).len] == SignSet(u, Item(u, first).len, flip)
    ensures Item(v, first) == Item(u, first)
  {
    var r, n := CheckStage1(u, first), Item(u, first).len;
    assert forall i :: 0 <= i < n - 1 ==> v[i] == v[..n][i] == u[i];
    CheckStage1Agree(u, v, first);
    if r.SecondTable? {
      assert Agree(u[6..], v[6..], n - 7);
      CheckStage2Agree(u[6..], v[6..]);
    }
  }

  lemma EscapeSeen(u: seq<bool>, v: seq<bool>, first: bool)
    requires |u| == |v| && Item(u, first).Escape? && v[..12] == u[..12]
    ensures Item(v, first).Escape? && v[6..12] == u[6..12]
  {
    assert forall i :: 0 <= i < 6 ==> v[i] == v[..12][i] == u[i];
    CheckStage1Agree(u, v, first);
    assert v[6..12] == v[..12][6..] == u[..12][6..] == u[6..12];
  }

  lemma LevelSeen(w: seq<bool>, x: seq<bool>, flip: bool)
    requires |w| == |x| >= 8 && |w| >= EscapeLen(w)
    requires flip ==> EscapeLen(w) == 8 && -8 <= EscapeLevel(w) < 0
    requires x[..EscapeLen(w)] == LevelSet(w, flip)
    ensures EscapeLen(x) == EscapeLen(w) && EscapeLevel(x) == if flip then -EscapeLevel(w) else EscapeLevel(w)
  {
    var n := EscapeLen(w);
    assert x[..8] == x[..n][..8] && w[..8] == w[..n][..8];
    if flip {
      SmallIsNegative(w, 8);
      NegatedBits(w[..8], 8);
      assert x[0..8] == x[..8] == Negated(w[..8]) && w[0..8] == w[..8];
      assert forall i :: 0 <= i < 8 ==> x[i] == x[..8][i];
    } else {
      assert forall i :: 0 <= i < n ==> x[i] == x[..n][i] == w[i];
      assert x[n - 8..n] == w[n - 8..n];
    }
  }

  /** What is written over an item reads as the same item, its level turned when it flips. */
  lemma ItemSeen(u: seq<bool>, v: seq<bool>, first: bool, index: nat, k: Coefficient, n: nat, flip: bool)
    requires |u| == |v| && More(Item(u, first)) && n == ItemLen(u, first) > 0 && k == FirstCoef(u, first, index)
    requires flip ==> k.level < 0 && (!k.coding.Code? ==> k.coding.Short? && k.level >= -8)
    requires v[..n] == ItemBits(u, first, flip)
    ensures More(Item(v, first)) && ItemLen(v, first) == n && FirstCoef(v, first, index) == Turned(k, flip)
  {
    if Item(u, first).Coef? {
      CodeSeen(u, v, first, flip);
      assert v[n - 1] == v[..n][n - 1];
    } else {
      var m := EscapeLen(u[12..]);
      assert v[..12] == v[..n][..12] == u[..12];
      EscapeSeen(u, v, first);
      assert v[12..][..m] == v[..n][12..] == LevelSet(u[12..], flip);
      LevelSeen(u[12..], v[12..], flip);
    }
  }

  /** The coefficients of a block as a run that starts in state s leaves them. */
  function Flipped(c: Config, s: Parse, cs: seq<Coefficient>): (r: seq<Coefficient>)
    requires Saved(s) && (s.state.RlpOkStage1? || s.state.RlpCheckStage1?)
    ensures |r| == |cs|
    decreases |cs|
  {
    if cs == [] then [] else [Turned(cs[0], Flips(c, s, cs[0]))] + Flipped(c, After(c, s, cs[0]), cs[1..])
  }

  lemma ParseOnce(v: seq<bool>, first: bool, index: nat, n: nat, k: Coefficient, rest: seq<bool>, i: nat, p: Parsed)
    requires More(Item(v, first)) && 0 < n == ItemLen(v, first) && k == FirstCoef(v, first, index)
    requires rest == v[n..] && i == k.index + 1 && ParseBlock(rest, false, i) == p && p.Whole?
    ensures ParseBlock(v, first, index) == Whole([k] + p.cs, n + p.len)
  {
  }

  lemma OutputEnd(c: Config, s: Parse, u: seq<bool>, index: nat)
    requires Usable(c) && Ready(s, index) && Item(u, s.b.coefFirst).EndOfBlock? && |u| >= 6
    ensures ParseBlock(Output(c, s, u), s.b.coefFirst, index) == Whole([], 2)
  {
    var next, v := StepOf(c), Output(c, s, u);
    StepOfRunsBlocks(c);
    EndOfBlockStep(c, next, s, u);
    ReachesOutput(next, s, u, EndState(s, true), u[..2]);
    EndSeen(u, v, s.b.coefFirst, index);
  }

  lemma EndSeen(u: seq<bool>, v: seq<bool>, first: bool, index: nat)
    requires |u| == |v| && Item(u, first).EndOfBlock? && v[..2] == u[..2]
    ensures ParseBlock(v, first, index) == Whole([], 2)
  {
    assert v[0] == v[..2][0] && v[1] == v[..2][1] && u[0] == u[..2][0] && u[1] == u[..2][1];
    CheckStage1Agree(u, v, first);
  }

  lemma FlippedOnce(c: Config, s: Parse, k: Coefficient, cs: seq<Coefficient>)
    requires Saved(s) && (s.state.RlpOkStage1? || s.state.RlpCheckStage1?)
    ensures Flipped(c, s, [k] + cs) == [Turned(k, Flips(c, s, k))] + Flipped(c, After(c, s, k), cs)
  {
    assert ([k] + cs)[1..] == cs;
  }

  /** The output across one item. */
  lemma OutputItem(c: Config, s: Parse, u: seq<bool>, index: nat, k: Coefficient, n: nat, t: Parse, v: seq<bool>, x: Coefficient)
    returns (rest: seq<bool>)
    requires Usable(c) && Ready(s, index) && v == Output(c, s, u)
    requires More(Item(u, s.b.coefFirst)) && 0 < n == ItemLen(u, s.b.coefFirst) && |u| >= n + 6
    requires k == FirstCoef(u, s.b.coefFirst, index) && t == After(c, s, k) && x == Turned(k, Flips(c, s, k))
    ensures More(Item(v, s.b.coefFirst)) && ItemLen(v, s.b.coefFirst) == n
    ensures Ready(t, k.index + 1) && FirstCoef(v, s.b.coefFirst, index) == x && v[n..] == rest == Output(c, t, u[n..])
  {
    var next, w := StepOf(c), ItemBits(u, s.b.coefFirst, Flips(c, s, k));
    StepOfRunsBlocks(c);
    ItemStep(c, next, s, u, index, k);
    ReachesOutput(next, s, u, t, w);
    rest := Output(c, t, u[n..]);
    assert v[..n] == w && v[n..] == rest;
    ItemSeen(u, v, s.b.coefFirst, index, k, n, Flips(c, s, k));
  }

  /** What the output holds in place of one item and of the rest of the block. */
  ghost predicate OutputGoesOn(c: Config, s: Parse, p: Parsed, v: seq<bool>, index: nat,
                               t: Parse, p1: Parsed, rest: seq<bool>, i: nat)
    requires Saved(s) && (s.state.RlpOkStage1? || s.state.RlpCheckStage1?)
    requires Saved(t) && (t.state.RlpOkStage1? || t.state.RlpCheckStage1?) && p.Whole? && p1.Whole?
  {
    ParseBlock(rest, t.b.coefFirst, i) == Whole(Flipped(c, t, p1.cs), p1.len) ==>
      ParseBlock(v, s.b.coefFirst, index) == Whole(Flipped(c, s, p.cs), p.len)
  }

  lemma ItemGoesOn(c: Config, s: Parse, k: Coefficient, n: nat, v: seq<bool>, index: nat, p1: Parsed, rest: seq<bool>)
    requires Saved(s) && (s.state.RlpOkStage1? || s.state.RlpCheckStage1?) && p1.Whole?
    requires More(Item(v, s.b.coefFirst)) && 0 < n == ItemLen(v, s.b.coefFirst)
    requires FirstCoef(v, s.b.coefFirst, index) == Turned(k, Flips(c, s, k)) && rest == v[n..]
    ensures OutputGoesOn(c, s, Whole([k] + p1.cs, n + p1.len), v, index, After(c, s, k), p1, rest, k.index + 1)
  {
    var t, i, x := After(c, s, k), k.index + 1, Turned(k, Flips(c, s, k));
    if ParseBlock(rest, false, i) == Whole(Flipped(c, t, p1.cs), p1.len) {
      ParseOnce(v, s.b.coefFirst, index, n, x, rest, i, Whole(Flipped(c, t, p1.cs), p1.len));
      FlippedOnce(c, s, k, p1.cs);
    }
  }

  lemma OutputMore(c: Config, s: Parse, u: seq<bool>, index: nat, p: Parsed, v: seq<bool>)
    returns (t: Parse, u1: seq<bool>, i: nat, p1: Parsed, rest: seq<bool>)
    requires Usable(c) && Ready(s, index) && p == ParseBlock(u, s.b.coefFirst, index) && p.Whole? && Margin(p, u)
    requires v == Output(c, s, u) && p.cs != []
    ensures Ready(t, i) && |u1| < |u| && p1 == ParseBlock(u1, t.b.coefFirst, i) && p1.Whole? && Margin(p1, u1)
    ensures rest == Output(c, t, u1)
    ensures OutputGoesOn(c, s, p, v, index, t, p1, rest, i)
  {
    var n, k, p2 := BlockRest(u, s.b.coefFirst, index, p);
    var x := Turned(k, Flips(c, s, k));
    t, u1, i, p1 := After(c, s, k), u[n..], k.index + 1, p2;
    rest := OutputItem(c, s, u, index, k, n, t, v, x);
    ItemGoesOn(c, s, k, n, v, index, p1, rest);
  }

  /** The block read from the output of a run: the same items, with the flipped coefficients turned positive. */
  lemma {:induction false} OutputBlock(c: Config, s: Parse, u: seq<bool>, index: nat, p: Parsed, v: seq<bool>)
    requires Usable(c) && Ready(s, index) && p == ParseBlock(u, s.b.coefFirst, index) && p.Whole? && Margin(p, u)
    requires v == Output(c, s, u)
    ensures ParseBlock(v, s.b.coefFirst, index) == Whole(Flipped(c, s, p.cs), p.len)
    decreases |u|
  {
    if p.cs == [] {
      BlockEnds(u, s.b.coefFirst, index, p);
      OutputEnd(c, s, u, index);
    } else {
      var t, u1, i, p1, rest := OutputMore(c, s, u, index, p, v);
      OutputBlock(c, t, u1, i, p1, rest);
    }
  }

  // ---- which coefficients flip ----

  /** Indices along the scan, from index on. */
  predicate Ordered(cs: seq<Coefficient>, index: nat)
    decreases |cs|
  {
    cs == [] || (index <= cs[0].index < 64 && Ordered(cs[1..], cs[0].index + 1))
  }

  lemma {:induction false} OrderedAt(cs: seq<Coefficient>, index: nat, k: nat)
    requires Ordered(cs, index) && k < |cs|
    ensures index <= cs[k].index < 64
    ensures forall j :: 0 <= j < k ==> cs[j].index < cs[k].index
    decreases |cs|
  {
    if k > 0 {
      OrderedAt(cs[1..], cs[0].index + 1, k - 1);
      forall j | 0 <= j < k
        ensures cs[j].index < cs[k].index
      {
        if j > 0 { assert cs[1..][j - 1].index < cs[1..][k - 1].index; }
      }
    }
  }

  predicate Below64(cs: seq<Coefficient>) { forall k :: 0 <= k < |cs| ==> cs[k].index < 64 }

  lemma BelowLater(k: Coefficient, cs: seq<Coefficient>)
    requires Below64([k] + cs)
    ensures k.index < 64 && Below64(cs)
  {
    assert ([k] + cs)[0] == k;
    assert forall j :: 0 <= j < |cs| ==> cs[j] == ([k] + cs)[j + 1];
  }

  lemma OrderedOnce(k: Coefficient, cs: seq<Coefficient>, index: nat)
    requires index <= k.index < 64 && Ordered(cs, k.index + 1)
    ensures Ordered([k] + cs, index)
  {
    assert ([k] + cs)[1..] == cs;
  }

  lemma FirstIndex(u: seq<bool>, first: bool, index: nat)
    requires More(Item(u, first)) && ItemLen(u, first) > 0
    ensures FirstCoef(u, first, index).index >= index
  {
  }

  /** Blocks that stay below index 64 are in order. */
  lemma {:induction false} ParsedInOrder(u: seq<bool>, first: bool, index: nat, p: Parsed)
    requires p == ParseBlock(u, first, index) && p.Whole? && Below64(p.cs)
    ensures Ordered(p.cs, index)
    decreases |u|
  {
    if p.cs != [] {
      var n, k, p1 := BlockRest(u, first, index, p);
      BelowLater(k, p1.cs);
      FirstIndex(u, first, index);
      ParsedInOrder(u[n..], false, k.index + 1, p1);
      OrderedOnce(k, p1.cs, index);
    }
  }

  lemma {:induction false} OkKeeps(c: Config, s: Parse, cs: seq<Coefficient>)
    requires Saved(s) && s.state.RlpOkStage1?
    ensures Flipped(c, s, cs) == cs
    decreases |cs|
  {
    if cs != [] { OkKeeps(c, After(c, s, cs[0]), cs[1..]); }
  }

  /** The thresholds the parser compares with in a checking state end at its maxindex. */
  lemma CheckedThreshold(c: Config, s: Parse, i: nat)
    requires Usable(c) && Saved(s) && Tuned(c, s) && s.state.RlpCheckStage1? && s.b.maxIndex < i < 64
    ensures ThreshAt(c, s.q, s.b.intraTable, i) == 0
  {
  }

  /** A coefficient flips exactly when it qualifies and no escape before it met a threshold of 0. */
  lemma {:induction false} FlippedExactly(c: Config, s: Parse, cs: seq<Coefficient>, index: nat, k: nat)
    requires Usable(c) && Saved(s) && Tuned(c, s) && s.state.RlpCheckStage1? && Ordered(cs, index) && k < |cs|
    ensures var unseen := exists j :: 0 <= j < k && EndsChecking(c, s.q, s.b.intraTable, cs[j]);
            Flipped(c, s, cs)[k] == Turned(cs[k], Qualifies(c, s.q, s.b.intraTable, cs[k]) && !unseen)
    decreases |cs|
  {
    hide ThreshAt, Current;
    if k > 0 {
      var t := After(c, s, cs[0]);
      assert Flipped(c, s, cs)[k] == Flipped(c, t, cs[1..])[k - 1] && cs[k] == cs[1..][k - 1];
      if t.state.RlpCheckStage1? {
        FlippedExactly(c, t, cs[1..], cs[0].index + 1, k - 1);
        assert forall j :: 0 <= j < k - 1 ==> cs[1..][j] == cs[j + 1];
        LaterUnseen(c, s.q, s.b.intraTable, cs, k);
      } else {
        OkKeeps(c, t, cs[1..]);
        if !EndsChecking(c, s.q, s.b.intraTable, cs[0]) {
          OrderedAt(cs[1..], cs[0].index + 1, k - 1);
          CheckedThreshold(c, s, cs[k].index);
        }
      }
    }
  }

  lemma LaterUnseen(c: Config, q: Quantizer, intra: bool, cs: seq<Coefficient>, k: nat)
    requires Tables(q) && 0 < k < |cs| && !EndsChecking(c, q, intra, cs[0])
    ensures (exists j :: 0 <= j < k && EndsChecking(c, q, intra, cs[j])) <==>
            (exists j :: 0 <= j < k - 1 && EndsChecking(c, q, intra, cs[1..][j]))
  {
    if j :| 0 <= j < k && EndsChecking(c, q, intra, cs[j]) {
      assert j > 0 && cs[1..][j - 1] == cs[j];
    }
  }

  // ---- in terms of the quantizer matrix ----

  function Matrix(c: Config, intra: bool): seq<nat> { if intra then c.intraMatrix else c.nonIntraMatrix }

  /** A negative level so small that times its matrix entry and the scale it stays above -8. */
  predicate Negligible(c: Config, scale: nat, intra: bool, k: Coefficient)
    requires Usable(c) && k.index < 64
  {
    k.level < 0 && -k.level * (Matrix(c, intra)[k.index] * scale) < 8
  }

  /** An escape at a place where no level is negligible. */
  predicate Blinds(c: Config, scale: nat, intra: bool, k: Coefficient)
    requires Usable(c) && k.index < 64
  {
    !k.coding.Code? && Matrix(c, intra)[k.index] * scale >= 8
  }

  lemma SmallFactor(level: nat, d: nat)
    requires level * d < 8 && d > 0
    ensures level < 8
  {
    MulMono(1, d, level);
    assert level * d == d * level;
  }

  /** In a block that is checked the parser's tests are these. */
  lemma TestsMean(c: Config, s: Parse, k: Coefficient)
    requires Usable(c) && Saved(s) && Tuned(c, s) && s.state.RlpCheckStage1? && k.index < 64
    ensures Qualifies(c, s.q, s.b.intraTable, k) <==> !k.coding.Long? && Negligible(c, s.q.scale, s.b.intraTable, k)
    ensures EndsChecking(c, s.q, s.b.intraTable, k) <==> Blinds(c, s.q.scale, s.b.intraTable, k)
  {
    hide Thresholds, LastPositive;
    var matrix := Matrix(c, s.b.intraTable);
    assert ThreshAt(c, s.q, s.b.intraTable, k.index) == Thresholds(matrix, s.q.scale)[k.index];
    ThresholdExact(matrix, s.q.scale, k.index, 1);
    Positive(matrix[k.index], s.q.scale);
    if k.level < 0 {
      ThresholdExact(matrix, s.q.scale, k.index, -k.level);
      if Negligible(c, s.q.scale, s.b.intraTable, k) { SmallFactor(-k.level, matrix[k.index] * s.q.scale); }
    }
  }

  /** The coefficients of a block are about to be parsed: with checks, or without when the scale rules them out. */
  predicate AtBlock(s: Parse)
  {
    s.state.RlpCheckStage1? || (s.state.RlpOkStage1? && if s.mb.kind.intra then s.q.okIntra else s.q.okNonIntra)
  }

  /** So it is after the DC coefficient of an intra block, and at the start of another. */
  lemma BlockBegins(c: Config, s: Parse, u: seq<bool>)
    requires Usable(c) && Saved(s) && Tuned(c, s) && !Next(c, s, u).done
    requires s.state.DcDiff? || (s.state.DcSize? && !s.mb.kind.intra)
    ensures var t := Next(c, s, u).s;
            Tuned(c, t) && AtBlock(t) && t.mb.kind == s.mb.kind && Ready(t, if t.mb.kind.intra then 1 else 0)
  {
    StepTuned(c, s, u);
  }

  /** Where the scale rules out checks no level is negligible. */
  lemma FastNone(c: Config, s: Parse, k: Coefficient)
    requires Usable(c) && Saved(s) && Tuned(c, s) && s.state.RlpOkStage1? && AtBlock(s) && k.index < 64
    ensures !Negligible(c, s.q.scale, s.mb.kind.intra, k)
  {
    if k.level < 0 {
      var intra := s.mb.kind.intra;
      OkMeansNone(Matrix(c, intra), if intra then c.minIntraQuant else c.minNonIntraQuant, s.q.scale, k.index, -k.level);
    }
  }

  /** What a run makes of a block, for any matrix and scale: a coefficient turns positive exactly when it is negligible,
      not written in 16 bits, and behind no escape at a place where none is. */
  lemma BlockFlips(c: Config, s: Parse, u: seq<bool>, index: nat, p: Parsed, k: nat)
    requires Usable(c) && Saved(s) && Tuned(c, s) && AtBlock(s) && Ready(s, index)
    requires p == ParseBlock(u, s.b.coefFirst, index) && p.Whole? && Margin(p, u) && k < |p.cs| && Below64(p.cs)
    ensures var r := ParseBlock(Output(c, s, u), s.b.coefFirst, index);
            var blind := exists j :: 0 <= j < k && Blinds(c, s.q.scale, s.mb.kind.intra, p.cs[j]);
            && r.Whole? && r.len == p.len && |r.cs| == |p.cs|
            && r.cs[k] == Turned(p.cs[k],
                                 Negligible(c, s.q.scale, s.mb.kind.intra, p.cs[k]) && !p.cs[k].coding.Long? && !blind)
  {
    hide Output, ParseBlock, Margin, Qualifies, EndsChecking, Negligible, Blinds, Tuned, Turned;
    OutputBlock(c, s, u, index, p, Output(c, s, u));
    if s.state.RlpOkStage1? {
      OkKeeps(c, s, p.cs);
      FastNone(c, s, p.cs[k]);
      NotTurned(p.cs[k]);
    } else {
      TableOfKind(c, s);
      ParsedInOrder(u, s.b.coefFirst, index, p);
      FlippedExactly(c, s, p.cs, index, k);
      TestsMean(c, s, p.cs[k]);
      forall j | 0 <= j < k
        ensures EndsChecking(c, s.q, s.b.intraTable, p.cs[j]) == Blinds(c, s.q.scale, s.mb.kind.intra, p.cs[j])
      {
        TestsMean(c, s, p.cs[j]);
      }
    }
  }

  lemma NotTurned(k: Coefficient)
    ensures Turned(k, false) == k
  {
  }

  lemma TableOfKind(c: Config, s: Parse)
    requires Usable(c) && Tuned(c, s) && s.state.RlpCheckStage1?
    ensures s.b.intraTable == s.mb.kind.intra
  {
  }

  /** With a matrix that does not fall along the scan, all negligible coefficients turn positive but those in 16 bits. */
  lemma AllNegligibleFlip(c: Config, s: Parse, u: seq<bool>, index: nat, p: Parsed, k: nat)
    requires Usable(c) && Saved(s) && Tuned(c, s) && AtBlock(s) && Ready(s, index)
    requires p == ParseBlock(u, s.b.coefFirst, index) && p.Whole? && Margin(p, u) && k < |p.cs| && Below64(p.cs)
    requires forall i, j :: 0 <= i < j < 64 ==> Matrix(c, s.mb.kind.intra)[i] <= Matrix(c, s.mb.kind.intra)[j]
    ensures var r := ParseBlock(Output(c, s, u), s.b.coefFirst, index);
            && r.Whole? && |r.cs| == |p.cs|
            && r.cs[k] == Turned(p.cs[k], Negligible(c, s.q.scale, s.mb.kind.intra, p.cs[k]) && !p.cs[k].coding.Long?)
  {
    hide Output, ParseBlock, Margin, Tuned, Turned;
    BlockFlips(c, s, u, index, p, k);
    ParsedInOrder(u, s.b.coefFirst, index, p);
    OrderedAt(p.cs, index, k);
    if Negligible(c, s.q.scale, s.mb.kind.intra, p.cs[k]) {
      forall j | 0 <= j < k
        ensures !Blinds(c, s.q.scale, s.mb.kind.intra, p.cs[j])
      {
        EarlierSmaller(Matrix(c, s.mb.kind.intra), s.q.scale, p.cs[j].index, p.cs[k].index, -p.cs[k].level);
      }
    }
  }

  lemma EarlierSmaller(matrix: seq<nat>, scale: nat, i: nat, j: nat, level: nat)
    requires i < |matrix| && j < |matrix| && matrix[i] <= matrix[j] && level > 0 && level * (matrix[j] * scale) < 8
    ensures matrix[i] * scale < 8
  {
    MulMono(matrix[i], matrix[j], scale);
    MulMono(1, level, matrix[j] * scale);
  }
}
