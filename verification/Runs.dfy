/** Whole runs of a step function over the unread bits of one buffer. */
module Runs {
  import opened Parser

  type Stepper = (Parse, seq<bool>) -> Move

  /** Orders the states a step can reach without consuming a bit. */
  function Rank(st: State): nat
  {
    match st
    case MacroblockQuant | MacroblockRes => 6
    case MacroblockCode => 5
    case MacroblockPattern => 4
    case BlockStart => 3
    case DcSize | DcDiff | MacroblockEnd => 2
    case MacroblockStart | MacroblockType | RlpOkStage1 | RlpOkStage2 | RlpCheckStage1 | RlpCheckStage2 => 1
    case _ => 0
  }

  /** A step that does not end the run consumes bits or falls in rank. */
  ghost predicate Advances(s: Parse, m: Move)
  {
    m.done || m.used > 0 || Rank(m.s.state) < Rank(s.state)
  }

  /** Steps stay within the bits there are, keep saved states saved, and get somewhere: runs end. */
  ghost predicate Lawful(next: Stepper)
  {
    forall s, u :: Saved(s) ==> Proper(next(s, u), u) && Advances(s, next(s, u))
  }

  // ---- runs ----

  /** The consumed bits as they stand in the buffer afterwards. */
  function Written(m: Move, u: seq<bool>): (w: seq<bool>)
    requires Proper(m, u)
    ensures |w| == m.used
  {
    u[..m.used - |m.edit|] + m.edit
  }

  /** The buffer contents a run leaves behind. */
  ghost function Rewrite(next: Stepper, s: Parse, u: seq<bool>): (v: seq<bool>)
    requires Lawful(next) && Saved(s)
    ensures |v| == |u|
    decreases |u|, Rank(s.state)
  {
    var m := next(s, u);
    Written(m, u) + if m.done then u[m.used..] else Rewrite(next, m.s, u[m.used..])
  }

  /** The state and the unread bits saved for the next buffer. */
  ghost function End(next: Stepper, s: Parse, u: seq<bool>): (e: (Parse, seq<bool>))
    requires Lawful(next) && Saved(s)
    ensures Saved(e.0)
    decreases |u|, Rank(s.state)
  {
    var m := next(s, u);
    if m.done then (m.s, u[m.used..]) else End(next, m.s, u[m.used..])
  }

  /** A state visited, and the bits still unread there. */
  datatype Visit = Visit(s: Parse, left: nat)

  /** Every state a run visits, with its bit position, down to the state saved for the next buffer. */
  ghost function Trace(next: Stepper, s: Parse, u: seq<bool>): (t: seq<Visit>)
    requires Lawful(next) && Saved(s)
    decreases |u|, Rank(s.state)
  {
    var m := next(s, u);
    [Visit(s, |u|)] + if m.done then [Visit(m.s, |u| - m.used)] else Trace(next, m.s, u[m.used..])
  }

  /** The run never stops inside a negative escape level nor resumes there. */
  ghost predicate Unsplit(next: Stepper, s: Parse, u: seq<bool>)
    requires Lawful(next) && Saved(s)
    decreases |u|, Rank(s.state)
  {
    var m := next(s, u);
    && !s.state.RlpCheckEscape2? && !m.s.state.RlpCheckEscape2?
    && (m.done || Unsplit(next, m.s, u[m.used..]))
  }

  /** The output of a run is its first step's output and then that of the rest. */
  lemma OutputFrom(next: Stepper, s: Parse, u: seq<bool>)
    requires Lawful(next) && Saved(s)
    ensures var m, v := next(s, u), Rewrite(next, s, u);
            && v[..m.used] == Written(m, u)
            && v[m.used..] == if m.done then u[m.used..] else Rewrite(next, m.s, u[m.used..])
  {
  }

  // ---- parts of runs ----

  /** Some steps lead from state s at the front of u to state t, leaving w in place of the bits consumed. */
  ghost predicate Reaches(next: Stepper, s: Parse, u: seq<bool>, t: Parse, w: seq<bool>)
    requires Lawful(next) && Saved(s)
    decreases |u|, Rank(s.state)
  {
    var m := next(s, u);
    || (w == [] && t == s)
    || (!m.done && m.used <= |w| && w[..m.used] == Written(m, u) && Reaches(next, m.s, u[m.used..], t, w[m.used..]))
  }

  lemma {:induction false} ReachesTrans(next: Stepper, s: Parse, u: seq<bool>, t: Parse, w: seq<bool>, r: Parse, x: seq<bool>)
    requires Lawful(next) && Saved(s) && Saved(t) && |w| <= |u|
    requires Reaches(next, s, u, t, w) && Reaches(next, t, u[|w|..], r, x)
    ensures Reaches(next, s, u, r, w + x)
    decreases |u|, Rank(s.state)
  {
    if w == [] && t == s {
      assert u[0..] == u && w + x == x;
    } else {
      var m := next(s, u);
      assert u[m.used..][|w[m.used..]|..] == u[|w|..];
      ReachesTrans(next, m.s, u[m.used..], t, w[m.used..], r, x);
      assert (w + x)[m.used..] == w[m.used..] + x && (w + x)[..m.used] == w[..m.used];
    }
  }

  /** The output of a run begins with what its first steps leave. */
  lemma {:induction false} ReachesOutput(next: Stepper, s: Parse, u: seq<bool>, t: Parse, w: seq<bool>)
    requires Lawful(next) && Saved(s) && Saved(t) && Reaches(next, s, u, t, w)
    ensures |w| <= |u| && Rewrite(next, s, u) == w + Rewrite(next, t, u[|w|..])
    decreases |u|, Rank(s.state)
  {
    if w == [] && t == s {
      assert u[0..] == u;
    } else {
      var m, v := next(s, u), Rewrite(next, s, u);
      OutputFrom(next, s, u);
      ReachesOutput(next, m.s, u[m.used..], t, w[m.used..]);
      assert u[m.used..][|w[m.used..]|..] == u[|w|..];
      Glue(v, w, Rewrite(next, t, u[|w|..]), m.used);
    }
  }

  lemma Glue(v: seq<bool>, w: seq<bool>, x: seq<bool>, n: nat)
    requires n <= |w| && n <= |v| && v[..n] == w[..n] && v[n..] == w[n..] + x
    ensures v == w + x
  {
    assert v == v[..n] + v[n..] && w == w[..n] + w[n..];
  }

  lemma OneStep(next: Stepper, s: Parse, u: seq<bool>)
    requires Lawful(next) && Saved(s) && !next(s, u).done
    ensures Reaches(next, s, u, next(s, u).s, Written(next(s, u), u))
  {
    var m := next(s, u);
    assert Written(m, u)[m.used..] == [];
  }

  // ---- runs over their own output ----

  /** A step taken again on the output of the run that starts with it goes the same way and writes nothing new. */
  ghost predicate Repeats(next: Stepper)
    requires Lawful(next)
  {
    forall s, u :: Saved(s) && !s.state.RlpCheckEscape2? && !next(s, u).done ==>
      next(s, Rewrite(next, s, u)) == next(s, u).(edit := [])
  }

  lemma RepeatsAt(next: Stepper, s: Parse, u: seq<bool>)
    requires Lawful(next) && Repeats(next) && Saved(s) && !s.state.RlpCheckEscape2? && !next(s, u).done
    ensures next(s, Rewrite(next, s, u)) == next(s, u).(edit := [])
  {
  }

  lemma {:induction false} RunRepeats(next: Stepper, s: Parse, u: seq<bool>)
    requires Lawful(next) && Repeats(next) && Saved(s) && Unsplit(next, s, u)
    ensures var v := Rewrite(next, s, u);
            Trace(next, s, v) == Trace(next, s, u) && Rewrite(next, s, v) == v && Unsplit(next, s, v)
    decreases |u|, Rank(s.state)
  {
    hide Repeats;
    var m, v := next(s, u), Rewrite(next, s, u);
    OutputFrom(next, s, u);
    if m.done {
      assert v == v[..m.used] + v[m.used..] == u[..m.used] + u[m.used..] == u;
    } else {
      RunRepeats(next, m.s, u[m.used..]);
      RepeatsAt(next, s, u);
      assert v == v[..m.used] + v[m.used..];
    }
  }

  // ---- what runs change ----

  /** Bits at..at + len now give the coefficient of that index its level with the opposite sign. */
  datatype Change = Change(at: nat, len: nat, index: nat, level: nat, intra: bool, scale: nat)

  /** Tells the magnitude a step has just parsed. */
  type Gauge = (Parse, seq<bool>) -> nat

  /** The change a step makes, where u is unread from bit p on; the coefficient's index has already been passed. */
  function StepChange(gauge: Gauge, s: Parse, u: seq<bool>, m: Move, p: nat): (ch: Change)
    requires Proper(m, u)
  {
    Change(p + m.used - |m.edit|, |m.edit|, if m.s.b.coefIndex > 0 then m.s.b.coefIndex - 1 else 0,
           gauge(s, u), s.b.intraTable, s.q.scale)
  }

  /** The run over u makes this change. */
  ghost predicate Makes(next: Stepper, gauge: Gauge, s: Parse, u: seq<bool>, p: nat, ch: Change)
    requires Lawful(next) && Saved(s)
    decreases |u|, Rank(s.state)
  {
    var m := next(s, u);
    || (m.edit != [] && ch == StepChange(gauge, s, u, m, p))
    || (!m.done && Makes(next, gauge, m.s, u[m.used..], p + m.used, ch))
  }

  lemma StepOnlyChanges(gauge: Gauge, s: Parse, u: seq<bool>, v: seq<bool>, m: Move, p: nat, i: nat)
    requires Proper(m, u) && |v| == |u| && v[..m.used] == Written(m, u) && i < m.used && v[i] != u[i]
    ensures m.edit != []
    ensures var ch := StepChange(gauge, s, u, m, p); ch.at <= p + i < ch.at + ch.len
  {
    assert v[i] == v[..m.used][i];
  }

  /** A bit differs only inside a change. */
  lemma {:induction false} OnlyChanges(next: Stepper, gauge: Gauge, s: Parse, u: seq<bool>, p: nat, i: nat)
    returns (ch: Change)
    requires Lawful(next) && Saved(s) && i < |u| && Rewrite(next, s, u)[i] != u[i]
    ensures Makes(next, gauge, s, u, p, ch) && ch.at <= p + i < ch.at + ch.len
    decreases |u|, Rank(s.state)
  {
    var m, v := next(s, u), Rewrite(next, s, u);
    OutputFrom(next, s, u);
    if i < m.used {
      StepOnlyChanges(gauge, s, u, v, m, p, i);
      ch := StepChange(gauge, s, u, m, p);
    } else {
      assert v[m.used..][i - m.used] != u[m.used..][i - m.used];
      ch := OnlyChanges(next, gauge, m.s, u[m.used..], p + m.used, i - m.used);
    }
  }

  /** A judgement on a change and on the changed bits before and after. */
  type Verdict = (Change, seq<bool>, seq<bool>) -> bool

  ghost predicate Keeps(next: Stepper, inv: Parse -> bool)
  {
    forall s, u :: Saved(s) && inv(s) ==> inv(next(s, u).s)
  }

  ghost predicate StepsPass(next: Stepper, gauge: Gauge, inv: Parse -> bool, fine: Verdict)
    requires Lawful(next)
  {
    forall s, u, p: nat ::
      Saved(s) && inv(s) && !s.state.RlpCheckEscape2? && !next(s, u).s.state.RlpCheckEscape2? && next(s, u).edit != [] ==>
        var m := next(s, u);
        fine(StepChange(gauge, s, u, m, p), u[m.used - |m.edit|..m.used], m.edit)
  }

  /** The verdict on a change, in a stream of which u and v are the old and new bits from p on. */
  ghost predicate Passes(ch: Change, u: seq<bool>, v: seq<bool>, p: nat, fine: Verdict)
    requires |u| == |v|
  {
    && p <= ch.at && ch.at + ch.len <= p + |u|
    && fine(ch, u[ch.at - p..ch.at - p + ch.len], v[ch.at - p..ch.at - p + ch.len])
  }

  /** If every step's change passes, every change of every run does. */
  lemma {:induction false} RunPasses(next: Stepper, gauge: Gauge, inv: Parse -> bool, fine: Verdict,
                                     s: Parse, u: seq<bool>, p: nat, ch: Change)
    requires Lawful(next) && Keeps(next, inv) && StepsPass(next, gauge, inv, fine)
    requires Saved(s) && inv(s) && Unsplit(next, s, u) && Makes(next, gauge, s, u, p, ch)
    ensures Passes(ch, u, Rewrite(next, s, u), p, fine)
    decreases |u|, Rank(s.state)
  {
    var m, v := next(s, u), Rewrite(next, s, u);
    OutputFrom(next, s, u);
    if m.edit != [] && ch == StepChange(gauge, s, u, m, p) {
      assert v[m.used - |m.edit|..m.used] == v[..m.used][m.used - |m.edit|..] == m.edit;
    } else {
      RunPasses(next, gauge, inv, fine, m.s, u[m.used..], p + m.used, ch);
      PassesLater(ch, u, v, p, m.used, fine);
    }
  }

  lemma PassesLater(ch: Change, u: seq<bool>, v: seq<bool>, p: nat, n: nat, fine: Verdict)
    requires |u| == |v| && n <= |u| && Passes(ch, u[n..], v[n..], p + n, fine)
    ensures Passes(ch, u, v, p, fine)
  {
    var i := ch.at - p - n;
    assert u[n..][i..i + ch.len] == u[ch.at - p..ch.at - p + ch.len];
    assert v[n..][i..i + ch.len] == v[ch.at - p..ch.at - p + ch.len];
  }
}
