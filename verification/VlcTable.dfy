/** The run-level codes of Annex B of ISO/IEC 11172-2 (sign bit left off), as an encoder has them,
    against the parser's bit tests: each is the inverse of the other. */
module VlcTable {
  import opened Options
  import opened VlcCodes

  const O := false
  const I := true

  /** Codes of up to 8 bits, for a run of 0, by level. */
  function ShortRun0(level: nat): Option<seq<bool>>
  {
    match level
    case 1 => Some([I, I])
    case 2 => Some([O, I, O, O])
    case 3 => Some([O, O, I, O, I])
    case 4 => Some([O, O, O, O, I, I, O])
    case 5 => Some([O, O, I, O, O, I, I, O])
    case 6 => Some([O, O, I, O, O, O, O, I])
    case _ => None
  }

  /** Codes of up to 8 bits, for a run of 1, by level. */
  function ShortRun1(level: nat): Option<seq<bool>>
  {
    match level
    case 1 => Some([O, I, I])
    case 2 => Some([O, O, O, I, I, O])
    case 3 => Some([O, O, I, O, O, I, O, I])
    case _ => None
  }

  /** Codes of up to 8 bits, for level 1, by run. */
  function ShortLevel1(run: nat): Option<seq<bool>>
  {
    match run
    case 2 => Some([O, I, O, I])
    case 3 => Some([O, O, I, I, I])
    case 4 => Some([O, O, I, I, O])
    case 5 => Some([O, O, O, I, I, I])
    case 6 => Some([O, O, O, I, O, I])
    case 7 => Some([O, O, O, I, O, O])
    case 8 => Some([O, O, O, O, I, I, I])
    case 9 => Some([O, O, O, O, I, O, I])
    case 10 => Some([O, O, I, O, O, I, I, I])
    case 11 => Some([O, O, I, O, O, O, I, I])
    case 12 => Some([O, O, I, O, O, O, I, O])
    case 13 => Some([O, O, I, O, O, O, O, O])
    case _ => None
  }

  /** Codes of up to 8 bits, for level 2, by run. */
  function ShortLevel2(run: nat): Option<seq<bool>>
  {
    match run
    case 2 => Some([O, O, O, O, I, O, O])
    case 3 => Some([O, O, I, O, O, I, O, O])
    case _ => None
  }

  function ShortCode(run: nat, level: nat): Option<seq<bool>>
  {
    if run == 0 then ShortRun0(level)
    else if run == 1 then ShortRun1(level)
    else if level == 1 then ShortLevel1(run)
    else if level == 2 then ShortLevel2(run)
    else None
  }

  /** Codes after their six leading zeros, for a run of 0, by level. */
  function LongRun0(level: nat): Option<seq<bool>>
  {
    match level
    case 7 => Some([I, O, I, O])
    case 8 => Some([O, I, I, I, O, I])
    case 9 => Some([O, I, I, O, O, O])
    case 10 => Some([O, I, O, O, I, I])
    case 11 => Some([O, I, O, O, O, O])
    case 12 => Some([O, O, I, I, O, I, O])
    case 13 => Some([O, O, I, I, O, O, I])
    case 14 => Some([O, O, I, I, O, O, O])
    case 15 => Some([O, O, I, O, I, I, I])
    case 16 => Some([O, O, O, I, I, I, I, I])
    case 17 => Some([O, O, O, I, I, I, I, O])
    case 18 => Some([O, O, O, I, I, I, O, I])
    case 19 => Some([O, O, O, I, I, I, O, O])
    case 20 => Some([O, O, O, I, I, O, I, I])
    case 21 => Some([O, O, O, I, I, O, I, O])
    case 22 => Some([O, O, O, I, I, O, O, I])
    case 23 => Some([O, O, O, I, I, O, O, O])
    case 24 => Some([O, O, O, I, O, I, I, I])
    case 25 => Some([O, O, O, I, O, I, I, O])
    case 26 => Some([O, O, O, I, O, I, O, I])
    case 27 => Some([O, O, O, I, O, I, O, O])
    case 28 => Some([O, O, O, I, O, O, I, I])
    case 29 => Some([O, O, O, I, O, O, I, O])
    case 30 => Some([O, O, O, I, O, O, O, I])
    case 31 => Some([O, O, O, I, O, O, O, O])
    case 32 => Some([O, O, O, O, I, I, O, O, O])
    case 33 => Some([O, O, O, O, I, O, I, I, I])
    case 34 => Some([O, O, O, O, I, O, I, I, O])
    case 35 => Some([O, O, O, O, I, O, I, O, I])
    case 36 => Some([O, O, O, O, I, O, I, O, O])
    case 37 => Some([O, O, O, O, I, O, O, I, I])
    case 38 => Some([O, O, O, O, I, O, O, I, O])
    case 39 => Some([O, O, O, O, I, O, O, O, I])
    case 40 => Some([O, O, O, O, I, O, O, O, O])
    case _ => None
  }

  /** Codes after their six leading zeros, for a run of 1, by level. */
  function LongRun1(level: nat): Option<seq<bool>>
  {
    match level
    case 4 => Some([I, I, O, O])
    case 5 => Some([O, I, I, O, I, I])
    case 6 => Some([O, O, I, O, I, I, O])
    case 7 => Some([O, O, I, O, I, O, I])
    case 8 => Some([O, O, O, O, I, I, I, I, I])
    case 9 => Some([O, O, O, O, I, I, I, I, O])
    case 10 => Some([O, O, O, O, I, I, I, O, I])
    case 11 => Some([O, O, O, O, I, I, I, O, O])
    case 12 => Some([O, O, O, O, I, I, O, I, I])
    case 13 => Some([O, O, O, O, I, I, O, I, O])
    case 14 => Some([O, O, O, O, I, I, O, O, I])
    case 15 => Some([O, O, O, O, O, I, O, O, I, I])
    case 16 => Some([O, O, O, O, O, I, O, O, I, O])
    case 17 => Some([O, O, O, O, O, I, O, O, O, I])
    case 18 => Some([O, O, O, O, O, I, O, O, O, O])
    case _ => None
  }

  /** Codes after their six leading zeros, for level 1, by run. */
  function LongLevel1(run: nat): Option<seq<bool>>
  {
    match run
    case 14 => Some([I, I, I, O])
    case 15 => Some([I, I, O, I])
    case 16 => Some([I, O, O, O])
    case 17 => Some([O, I, I, I, I, I])
    case 18 => Some([O, I, I, O, I, O])
    case 19 => Some([O, I, I, O, O, I])
    case 20 => Some([O, I, O, I, I, I])
    case 21 => Some([O, I, O, I, I, O])
    case 22 => Some([O, O, I, I, I, I, I])
    case 23 => Some([O, O, I, I, I, I, O])
    case 24 => Some([O, O, I, I, I, O, I])
    case 25 => Some([O, O, I, I, I, O, O])
    case 26 => Some([O, O, I, I, O, I, I])
    case 27 => Some([O, O, O, O, O, I, I, I, I, I])
    case 28 => Some([O, O, O, O, O, I, I, I, I, O])
    case 29 => Some([O, O, O, O, O, I, I, I, O, I])
    case 30 => Some([O, O, O, O, O, I, I, I, O, O])
    case 31 => Some([O, O, O, O, O, I, I, O, I, I])
    case _ => None
  }

  /** Codes after their six leading zeros, for level 2, by run. */
  function LongLevel2(run: nat): Option<seq<bool>>
  {
    match run
    case 4 => Some([I, I, I, I])
    case 5 => Some([I, O, O, I])
    case 6 => Some([O, I, I, I, I, O])
    case 7 => Some([O, I, O, I, O, I])
    case 8 => Some([O, I, O, O, O, I])
    case 9 => Some([O, O, I, O, O, O, I])
    case 10 => Some([O, O, I, O, O, O, O])
    case 11 => Some([O, O, O, O, O, I, I, O, I, O])
    case 12 => Some([O, O, O, O, O, I, I, O, O, I])
    case 13 => Some([O, O, O, O, O, I, I, O, O, O])
    case 14 => Some([O, O, O, O, O, I, O, I, I, I])
    case 15 => Some([O, O, O, O, O, I, O, I, I, O])
    case 16 => Some([O, O, O, O, O, I, O, I, O, I])
    case _ => None
  }

  function LongOthers(run: nat, level: nat): Option<seq<bool>>
  {
    match (run, level)
    case (2, 3) => Some([I, O, I, I])
    case (2, 4) => Some([O, I, O, I, O, O])
    case (2, 5) => Some([O, O, I, O, I, O, O])
    case (3, 3) => Some([O, I, I, I, O, O])
    case (3, 4) => Some([O, O, I, O, O, I, I])
    case (4, 3) => Some([O, I, O, O, I, O])
    case (5, 3) => Some([O, O, I, O, O, I, O])
    case (6, 3) => Some([O, O, O, O, O, I, O, I, O, O])
    case _ => None
  }

  function LongCode(run: nat, level: nat): Option<seq<bool>>
  {
    if run == 0 then LongRun0(level)
    else if run == 1 then LongRun1(level)
    else if level == 1 then LongLevel1(run)
    else if level == 2 then LongLevel2(run)
    else LongOthers(run, level)
  }

  /** The code of a run and level, if they have one; all others take an escape. */
  function VlcOf(run: nat, level: nat): Option<seq<bool>>
  {
    match LongCode(run, level)
    case Some(c) => Some([O, O, O, O, O, O] + c)
    case None => ShortCode(run, level)
  }

  /** One run-level item as RLP_CHECK_STAGE1 and RLP_CHECK_STAGE2 together take it. */
  function Item(u: seq<bool>, first: bool): (r: Rlp)
    ensures Fits(r, u)
  {
    var r1 := CheckStage1(u, first);
    if !r1.SecondTable? then r1
    else
      match CheckStage2(u[6..])
      case Coef(len, run, level, tested) => Coef(len + 6, run, level, tested)
      case r2 => r2
  }

  // ---- every code parses to its run and level ----

  /** u begins with the code and has a bit left for the sign. */
  ghost predicate Begins(u: seq<bool>, code: seq<bool>)
  {
    |u| > |code| && forall i :: 0 <= i < |code| ==> u[i] == code[i]
  }

  /** What stage parses u to is what the code stands for. */
  ghost predicate Parses(u: seq<bool>, r: Rlp, code: Option<seq<bool>>, run: nat, level: nat)
  {
    code.Some? && Begins(u, code.value) ==> r == Coef(|code.value| + 1, run, level, level <= 7)
  }

  lemma ShortRun0Parses(u: seq<bool>, level: nat)
    ensures Parses(u, CheckStage1(u, false), ShortCode(0, level), 0, level)
  {
  }

  lemma ShortRun1Parses(u: seq<bool>, level: nat)
    ensures Parses(u, CheckStage1(u, false), ShortCode(1, level), 1, level)
  {
  }

  lemma ShortLevel1Parses(u: seq<bool>, run: nat)
    requires 2 <= run
    ensures Parses(u, CheckStage1(u, false), ShortCode(run, 1), run, 1)
  {
  }

  lemma ShortLevel2Parses(u: seq<bool>, run: nat)
    requires 2 <= run
    ensures Parses(u, CheckStage1(u, false), ShortCode(run, 2), run, 2)
  {
  }

  lemma LongRun0Low(u: seq<bool>, level: nat)
    requires level < 16
    ensures Parses(u, CheckStage2(u), LongCode(0, level), 0, level)
  {
  }

  lemma LongRun0Middle(u: seq<bool>, level: nat)
    requires 16 <= level < 28
    ensures Parses(u, CheckStage2(u), LongCode(0, level), 0, level)
  {
  }

  lemma LongRun0High(u: seq<bool>, level: nat)
    requires 28 <= level < 35
    ensures Parses(u, CheckStage2(u), LongCode(0, level), 0, level)
  {
  }

  lemma LongRun0Top(u: seq<bool>, level: nat)
    requires 35 <= level
    ensures Parses(u, CheckStage2(u), LongCode(0, level), 0, level)
  {
  }

  lemma LongRun1Parses(u: seq<bool>, level: nat)
    ensures Parses(u, CheckStage2(u), LongCode(1, level), 1, level)
  {
  }

  lemma LongLevel1Low(u: seq<bool>, run: nat)
    requires 2 <= run < 22
    ensures Parses(u, CheckStage2(u), LongCode(run, 1), run, 1)
  {
  }

  lemma LongLevel1Middle(u: seq<bool>, run: nat)
    requires 22 <= run <= 26
    ensures Parses(u, CheckStage2(u), LongCode(run, 1), run, 1)
  {
  }

  lemma LongLevel1High(u: seq<bool>, run: nat)
    requires 27 <= run
    ensures Parses(u, CheckStage2(u), LongCode(run, 1), run, 1)
  {
  }

  lemma LongLevel2Parses(u: seq<bool>, run: nat)
    requires 2 <= run
    ensures Parses(u, CheckStage2(u), LongCode(run, 2), run, 2)
  {
  }

  lemma LongOthersParse(u: seq<bool>, run: nat, level: nat)
    requires 2 <= run && 3 <= level
    ensures Parses(u, CheckStage2(u), LongCode(run, level), run, level)
  {
  }

  lemma ShortParses(u: seq<bool>, run: nat, level: nat)
    ensures Parses(u, CheckStage1(u, false), ShortCode(run, level), run, level)
  {
    if run == 0 { ShortRun0Parses(u, level); }
    else if run == 1 { ShortRun1Parses(u, level); }
    else if level == 1 { ShortLevel1Parses(u, run); }
    else if level == 2 { ShortLevel2Parses(u, run); }
  }

  lemma LongParses(u: seq<bool>, run: nat, level: nat)
    ensures Parses(u, CheckStage2(u), LongCode(run, level), run, level)
  {
    if run == 0 {
      if level < 16 { LongRun0Low(u, level); }
      else if level < 28 { LongRun0Middle(u, level); }
      else if level < 35 { LongRun0High(u, level); }
      else { LongRun0Top(u, level); }
    }
    else if run == 1 { LongRun1Parses(u, level); }
    else if level == 1 { if run < 22 { LongLevel1Low(u, run); } else if run < 27 { LongLevel1Middle(u, run); } else { LongLevel1High(u, run); } }
    else if level == 2 { LongLevel2Parses(u, run); }
    else if level > 2 { LongOthersParse(u, run, level); }
  }

  /** Decoding undoes encoding: the parser takes every code of the table for what it stands for. */
  lemma CodeParses(u: seq<bool>, run: nat, level: nat)
    requires VlcOf(run, level).Some? && Begins(u, VlcOf(run, level).value)
    ensures Item(u, false) == Coef(|VlcOf(run, level).value| + 1, run, level, level <= 7)
  {
    match LongCode(run, level)
    case Some(c) =>
      LeadingZeros(u, c);
      LongParses(u[6..], run, level);
    case None =>
      ShortParses(u, run, level);
  }

  lemma LeadingZeros(u: seq<bool>, c: seq<bool>)
    requires Begins(u, [O, O, O, O, O, O] + c)
    ensures CheckStage1(u, false).SecondTable? && Begins(u[6..], c)
  {
    var z := [O, O, O, O, O, O] + c;
    assert u[0] == z[0] && u[1] == z[1] && u[2] == z[2] && u[3] == z[3] && u[4] == z[4] && u[5] == z[5];
    forall i | 0 <= i < |c|
      ensures u[6..][i] == c[i]
    {
      assert u[i + 6] == z[i + 6];
    }
  }

  // ---- and nothing else does ----

  /** The code parsed is the one the table gives its run and level. */
  ghost predicate Encodes(u: seq<bool>, r: Rlp, long: bool)
  {
    r.Coef? && 0 < r.len <= |u| ==>
      var code := if long then LongCode(r.run, r.level) else ShortCode(r.run, r.level);
      code == Some(u[..r.len - 1]) && r.tested == (r.level <= 7) && (!long ==> LongCode(r.run, r.level).None?)
  }

  lemma ShortEncodes(u: seq<bool>)
    requires |u| >= 2 && (u[0] || u[1] || (|u| >= 6 && u[2] && (u[3] || u[4])))
    ensures Encodes(u, CheckStage1(u, false), false)
  {
    if u[0] {
      assert u[..2] == [I, u[1]];
    } else if u[1] {
      if |u| >= 4 { assert u[..3] == [O, I, u[2]]; }
      if |u| >= 5 { assert u[..4] == [O, I, u[2], u[3]]; }
    } else {
      assert u[..5] == [O, O, I, u[3], u[4]];
    }
  }

  lemma LongerEncodes(u: seq<bool>)
    requires |u| >= 6 && !u[0] && !u[1] && !(u[2] && (u[3] || u[4]))
    ensures Encodes(u, CheckStage1(u, false), false)
  {
    if |u| >= 7 { assert u[..6] == [u[0], u[1], u[2], u[3], u[4], u[5]]; }
    if |u| >= 8 { assert u[..7] == [u[0], u[1], u[2], u[3], u[4], u[5], u[6]]; }
    if |u| >= 9 { assert u[..8] == [u[0], u[1], u[2], u[3], u[4], u[5], u[6], u[7]]; }
  }

  lemma Stage2LowEncodes(u: seq<bool>)
    requires |u| >= 5 && (u[0] || (u[1] && |u| >= 7))
    ensures Encodes(u, CheckStage2(u), true)
  {
    if u[0] {
      assert u[..4] == [I, u[1], u[2], u[3]];
    } else {
      assert u[..6] == [O, I, u[2], u[3], u[4], u[5]];
    }
  }

  lemma Stage2MidEncodes(u: seq<bool>)
    requires |u| >= 8 && !u[0] && !u[1] && (u[2] || u[3])
    ensures Encodes(u, CheckStage2(u), true)
  {
    if u[2] {
      assert u[..7] == [O, O, I, u[3], u[4], u[5], u[6]];
    } else if |u| >= 9 {
      assert u[..8] == [O, O, O, I, u[4], u[5], u[6], u[7]];
    }
  }

  lemma Stage2HighEncodes(u: seq<bool>)
    requires |u| >= 10 && !u[0] && !u[1] && !u[2] && !u[3]
    ensures Encodes(u, CheckStage2(u), true)
  {
    if u[4] {
      assert u[..9] == [O, O, O, O, I, u[5], u[6], u[7], u[8]];
    } else if |u| >= 11 && u[5] {
      assert u[..10] == [O, O, O, O, O, I, u[6], u[7], u[8], u[9]];
    }
  }

  lemma Stage2Encodes(u: seq<bool>)
    requires CheckStage2(u).Coef?
    ensures Encodes(u, CheckStage2(u), true)
  {
    if u[0] || u[1] {
      Stage2LowEncodes(u);
    } else if u[2] || u[3] {
      Stage2MidEncodes(u);
    } else {
      Stage2HighEncodes(u);
    }
  }

  /** Encoding undoes decoding: what the parser takes for a run and level is exactly their code in
      the table, and it is compared with the threshold just when the level is at most 7. */
  lemma ParseEncodes(u: seq<bool>)
    requires Item(u, false).Coef?
    ensures var r := Item(u, false);
            VlcOf(r.run, r.level) == Some(u[..r.len - 1]) && r.tested == (r.level <= 7)
  {
    var r := Item(u, false);
    if CheckStage1(u, false).SecondTable? {
      Stage2Encodes(u[6..]);
      assert u[..r.len - 1] == [O, O, O, O, O, O] + u[6..][..r.len - 7];
    } else if |u| >= 6 && !u[0] && !u[1] && !(u[2] && (u[3] || u[4])) {
      LongerEncodes(u);
    } else {
      ShortEncodes(u);
    }
  }

  /** The table is complete: of 17 bits only twelve leading zeros are no code. */
  lemma OnlyZerosAreBad(u: seq<bool>, first: bool)
    requires |u| >= 17
    ensures !Item(u, first).Short? && !Item(u, first).Cut?
    ensures Item(u, first).Bad? <==> forall i :: 0 <= i < 12 ==> !u[i]
  {
    assert forall i :: 0 <= i < 11 ==> u[6..][i] == u[i + 6];
    if Item(u, first).Bad? {
      forall i | 0 <= i < 12
        ensures !u[i]
      {
        if i >= 6 { assert !u[6..][i - 6]; }
      }
    }
  }

  // ---- the fast path ----

  /** One item as RLP_OK_STAGE1 and RLP_OK_STAGE2 together take it. */
  function FastItem(u: seq<bool>, first: bool): (r: Rlp)
    ensures Fits(r, u)
  {
    var r1 := OkStage1(u, first);
    if !r1.SecondTable? then r1
    else
      match OkStage2(u[6..])
      case Coef(len, run, level, tested) => Coef(len + 6, run, level, tested)
      case r2 => r2
  }

  /** Same kind of item, same number of bits. */
  predicate SameLength(r: Rlp, f: Rlp)
  {
    match f
    case Coef(len, _, _, _) => r.Coef? && r.len == len
    case EndOfBlock => r.EndOfBlock?
    case Escape => r.Escape?
    case Bad => r.Bad?
    case _ => false
  }

  /** Whenever the fast path has its look-ahead, the slow path takes the same bits for the same thing;
      and the fast path has it whenever the slow one's item is followed by enough bits. */
  lemma FastItemIsItem(u: seq<bool>, first: bool)
    ensures !FastItem(u, first).Short? && !FastItem(u, first).Cut? ==> SameLength(Item(u, first), FastItem(u, first))
  {
    FastStage1(u, first);
    if OkStage1(u, first).SecondTable? { FastStage2(u[6..]); }
  }

  lemma FastStage1(u: seq<bool>, first: bool)
    ensures OkStage1(u, first).SecondTable? ==> CheckStage1(u, first).SecondTable?
    ensures var f := OkStage1(u, first);
            !f.Short? && !f.Cut? && !f.SecondTable? ==> SameLength(CheckStage1(u, first), f)
  {
  }

  lemma FastStage2(u: seq<bool>)
    ensures var f := OkStage2(u); !f.Short? ==> SameLength(CheckStage2(u), f)
  {
  }
}
