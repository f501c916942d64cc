/** The run-level items of a block as section 2.4.2.8 of ISO/IEC 11172-2 has an encoder write them, against the blocks
    the parser takes: each item parses to its coefficient, and no other bits do. */
module BlockSyntax {
  import opened Options
  import opened Bits
  import opened VlcCodes
  import opened VlcTable
  import opened Parser
  import opened Reparsing
  import opened Resuming
  import B = Blocks

  // ---- what an encoder writes ----

  /** A run of zeros and a level: by its code and a sign, or behind an escape. */
  datatype RunLevel = Coded(run: nat, magnitude: nat, negative: bool) | Escaped(run: nat, level: int)

  predicate WellItem(i: RunLevel)
  {
    match i
    case Coded(run, level, _) => VlcOf(run, level).Some?
    case Escaped(run, level) => run < 64 && -256 < level < 256 && level != 0
  }

  /** Levels from -127 to 127 take 8 bits, two's complement; others a byte 0x00 or 0x80 more. */
  function LevelBits(level: int): seq<bool>
    requires -256 < level < 256 && level != 0
  {
    if -128 < level < 128 then BitsOf(if level < 0 then level + 256 else level, 8)
    else if level < 0 then BitsOf(128, 8) + BitsOf(level + 256, 8)
    else BitsOf(0, 8) + BitsOf(level, 8)
  }

  /** The first coefficient of a non-intra block has a shorter code for a level of 1 after no zeros. */
  function ItemCode(i: RunLevel, first: bool): seq<bool>
    requires WellItem(i)
  {
    match i
    case Coded(run, level, negative) =>
      if first && run == 0 && level == 1 then [true, negative] else VlcOf(run, level).value + [negative]
    case Escaped(run, level) => [false, false, false, false, false, true] + BitsOf(run, 6) + LevelBits(level)
  }

  predicate AllWell(items: seq<RunLevel>) { forall k :: 0 <= k < |items| ==> WellItem(items[k]) }

  /** The items and the end of the block. */
  function ItemsCode(items: seq<RunLevel>, first: bool): seq<bool>
    requires AllWell(items)
  {
    if items == [] then [true, false] else ItemCode(items[0], first) + ItemsCode(items[1..], false)
  }

  // ---- the coefficients they stand for ----

  function LevelOf(i: RunLevel): int { if i.Escaped? then i.level else if i.negative then 0 - i.magnitude else i.magnitude }

  function CodingOf(i: RunLevel): B.Coding
  {
    if i.Coded? then B.Code else if -128 < i.level < 128 then B.Coding.Short else B.Long
  }

  /** Where the run of the first item leads from index. */
  function CoefOf(i: RunLevel, index: nat): B.Coefficient { B.Coefficient(index + i.run, LevelOf(i), CodingOf(i)) }

  function Coefs(items: seq<RunLevel>, index: nat): (r: seq<B.Coefficient>)
    ensures |r| == |items|
  {
    if items == [] then [] else [CoefOf(items[0], index)] + Coefs(items[1..], index + items[0].run + 1)
  }

  // ---- items parse ----

  lemma CodeBegins(code: seq<bool>, rest: seq<bool>)
    requires rest != []
    ensures Begins(code + rest, code)
  {
  }

  /** Only the code of a level of 1 after no zeros begins with a one. */
  lemma OneBegins(u: seq<bool>, run: nat, level: nat)
    requires VlcOf(run, level).Some? && Begins(u, VlcOf(run, level).value)
    ensures |u| >= 2 && (u[0] <==> run == 0 && level == 1)
    ensures u[0] ==> VlcOf(run, level).value == [true, true]
  {
    if LongCode(run, level).Some? {
      var code := [O, O, O, O, O, O] + LongCode(run, level).value;
      assert u[0] == code[0] && u[1] == code[1];
    }
  }

  lemma SameUnlessOne(u: seq<bool>)
    requires |u| >= 2 && !u[0]
    ensures Item(u, true) == Item(u, false)
  {
  }

  lemma CodedParses(i: RunLevel, first: bool, index: nat, rest: seq<bool>)
    requires i.Coded? && WellItem(i)
    ensures var u, n := ItemCode(i, first) + rest, |ItemCode(i, first)|;
            B.More(Item(u, first)) && B.ItemLen(u, first) == n > 0 && B.FirstCoef(u, first, index) == CoefOf(i, index)
  {
    hide Item;
    var code := VlcOf(i.run, i.magnitude).value;
    var v := code + [i.negative] + rest;
    assert v == code + ([i.negative] + rest);
    CodeBegins(code, [i.negative] + rest);
    CodeParses(v, i.run, i.magnitude);
    OneBegins(v, i.run, i.magnitude);
    if first && i.run == 0 && i.magnitude == 1 {
      FirstOne(i.negative, rest);
    } else if first {
      SameUnlessOne(v);
    }
  }

  lemma FirstOne(negative: bool, rest: seq<bool>)
    ensures Item([true, negative] + rest, true) == Coef(2, 0, 1, true)
  {
  }

  // ---- bytes ----

  function Weight(b: bool, w: nat): nat { if b then w else 0 }

  /** Four bits more. */
  lemma FourMore(b: seq<bool>, n: nat)
    requires n + 4 <= |b|
    ensures ValOf(b[..n + 4]) ==
            16 * ValOf(b[..n]) + Weight(b[n], 8) + Weight(b[n + 1], 4) + Weight(b[n + 2], 2) + Weight(b[n + 3], 1)
  {
    hide ValOf;
    ValLast(b, n);
    ValLast(b, n + 1);
    ValLast(b, n + 2);
    ValLast(b, n + 3);
  }

  lemma ByteValue(b: seq<bool>)
    requires |b| == 8
    ensures ValOf(b) == Weight(b[0], 128) + Weight(b[1], 64) + Weight(b[2], 32) + Weight(b[3], 16)
                        + Weight(b[4], 8) + Weight(b[5], 4) + Weight(b[6], 2) + Weight(b[7], 1)
  {
    FourMore(b, 0);
    FourMore(b, 4);
    assert b[..0] == [] && b[..8] == b;
  }

  /** The sign of a byte, and whether its low seven bits are zero. */
  lemma ByteKinds(b: seq<bool>)
    requires |b| == 8
    ensures b[0] <==> ValOf(b) >= 128
    ensures !(b[1] || b[2] || b[3] || b[4] || b[5] || b[6] || b[7]) <==> ValOf(b) == 0 || ValOf(b) == 128
    ensures ValOf(b) < 256
  {
    hide ValOf;
    ByteValue(b);
  }

  lemma ByteOf(v: nat)
    requires v < 256
    ensures |BitsOf(v, 8)| == 8 && ValOf(BitsOf(v, 8)) == v
  {
    Pow2Values();
    ValBits(v, 8);
  }

  lemma LevelParses(level: int, rest: seq<bool>)
    requires -256 < level < 256 && level != 0
    ensures var w := LevelBits(level) + rest;
            && |LevelBits(level)| == (if -128 < level < 128 then 8 else 16) && |w| >= 8
            && EscapeLen(w) == |LevelBits(level)| && B.EscapeLevel(w) == level
  {
    hide BitsOf, ValOf;
    var w := LevelBits(level) + rest;
    var low := if -128 < level < 128 then (if level < 0 then level + 256 else level) else if level < 0 then 128 else 0;
    var b := BitsOf(low, 8);
    ByteOf(low);
    ByteKinds(b);
    assert w[0..8] == b;
    assert forall i :: 0 <= i < 8 ==> w[i] == b[i];
    if !(-128 < level < 128) {
      var v := if level < 0 then level + 256 else level;
      ByteOf(v);
      assert w[8..16] == BitsOf(v, 8);
    }
  }

  lemma RunOf(run: nat)
    requires run < 64
    ensures |BitsOf(run, 6)| == 6 && ValOf(BitsOf(run, 6)) == run
  {
    Pow2Values();
    assert Pow2(6) == 64;
    ValBits(run, 6);
  }

  lemma EscapeBegins(u: seq<bool>, first: bool)
    requires |u| >= 12 && u[..6] == [false, false, false, false, false, true]
    ensures Item(u, first).Escape?
  {
    assert !u[..6][0] && !u[..6][1] && !u[..6][2] && !u[..6][3] && !u[..6][4] && u[..6][5];
  }

  lemma EscapedParses(i: RunLevel, first: bool, index: nat, rest: seq<bool>)
    requires i.Escaped? && WellItem(i)
    ensures var u, n := ItemCode(i, first) + rest, |ItemCode(i, first)|;
            B.More(Item(u, first)) && B.ItemLen(u, first) == n > 0 && B.FirstCoef(u, first, index) == CoefOf(i, index)
  {
    hide Item, BitsOf, ValOf, EscapeLen, B.EscapeLevel, LevelBits;
    var u := ItemCode(i, first) + rest;
    RunOf(i.run);
    LevelParses(i.level, rest);
    assert u[..6] == [false, false, false, false, false, true];
    assert u[6..12] == BitsOf(i.run, 6);
    assert u[12..] == LevelBits(i.level) + rest;
    EscapeBegins(u, first);
  }

  lemma ItemParses(i: RunLevel, first: bool, index: nat, rest: seq<bool>)
    requires WellItem(i)
    ensures var u, n := ItemCode(i, first) + rest, |ItemCode(i, first)|;
            B.More(Item(u, first)) && B.ItemLen(u, first) == n > 0 && B.FirstCoef(u, first, index) == CoefOf(i, index)
  {
    if i.Coded? { CodedParses(i, first, index, rest); } else { EscapedParses(i, first, index, rest); }
  }

  lemma EndParses(first: bool, index: nat)
    requires !first
    ensures B.ParseBlock([true, false], first, index) == B.Whole([], 2)
  {
  }

  /** Decoding undoes encoding: a block parses to its items' coefficients, each behind its run of zeros. */
  lemma {:induction false} ItemsParse(items: seq<RunLevel>, first: bool, index: nat)
    requires AllWell(items) && (first ==> items != [])
    ensures var u := ItemsCode(items, first); B.ParseBlock(u, first, index) == B.Whole(Coefs(items, index), |u|)
    decreases |items|
  {
    hide Item, B.FirstCoef, B.ItemLen, ItemCode, WellItem;
    if items == [] {
      EndParses(first, index);
    } else {
      var u, rest := ItemsCode(items, first), ItemsCode(items[1..], false);
      var n := |ItemCode(items[0], first)|;
      ItemParses(items[0], first, index, rest);
      assert u[n..] == rest;
      ItemsParse(items[1..], false, index + items[0].run + 1);
      B.ParseOnce(u, first, index, n, CoefOf(items[0], index), rest, index + items[0].run + 1, B.Whole(Coefs(items[1..], index + items[0].run + 1), |rest|));
    }
  }

  // ---- and nothing else does ----

  lemma SameValue(a: seq<bool>, b: seq<bool>)
    requires |a| == |b| && ValOf(a) == ValOf(b)
    ensures a == b
  {
    BitsVal(a);
    BitsVal(b);
  }

  lemma PositiveLevel(u: seq<bool>, first: bool)
    requires Item(u, first).Coef?
    ensures Item(u, first).level > 0
  {
    B.TestedLevels(u, first);
  }

  lemma FirstOneIs(u: seq<bool>)
    requires |u| >= 2 && u[0]
    ensures Item(u, true) == Coef(2, 0, 1, true)
  {
  }

  /** The bits of a code but its sign. */
  lemma CodeIs(u: seq<bool>, first: bool)
    requires Item(u, first).Coef?
    ensures var r := Item(u, first);
            if first && r.run == 0 && r.level == 1 then u[0] && r.len == 2
            else VlcOf(r.run, r.level) == Some(u[..r.len - 1])
  {
    hide Item;
    if first && u[0] {
      FirstOneIs(u);
    } else {
      if first { SameUnlessOne(u); }
      ParseEncodes(u);
      var r := Item(u, false);
    }
  }

  lemma SameCode(a: seq<bool>, b: seq<bool>, first: bool, index: nat)
    requires Item(a, first).Coef? && Item(b, first).Coef?
    requires B.ItemLen(a, first) > 0 && B.ItemLen(b, first) > 0 && B.FirstCoef(a, first, index) == B.FirstCoef(b, first, index)
    ensures var n := B.ItemLen(a, first); n == B.ItemLen(b, first) && a[..n] == b[..n]
  {
    hide Item, VlcOf;
    var n, m := Item(a, first).len, Item(b, first).len;
    PositiveLevel(a, first);
    PositiveLevel(b, first);
    CodeIs(a, first);
    CodeIs(b, first);
    assert a[..n] == a[..n - 1] + [a[n - 1]] && b[..m] == b[..m - 1] + [b[m - 1]];
    if a[0] && n == 2 { assert a[..1] == [a[0]]; }
    if b[0] && m == 2 { assert b[..1] == [b[0]]; }
  }

  lemma EscapeIs(u: seq<bool>, first: bool)
    requires Item(u, first).Escape?
    ensures |u| >= 12 && u[..6] == [false, false, false, false, false, true]
  {
    if CheckStage1(u, first).SecondTable? { Stage2NoEscape(u[6..]); }
  }

  lemma Stage2NoEscape(u: seq<bool>)
    ensures !CheckStage2(u).Escape?
  {
  }

  /** The bits of a level, by its length and value. */
  lemma SameLevel(v: seq<bool>, w: seq<bool>)
    requires |v| >= 8 && |w| >= 8 && |v| >= EscapeLen(v) && |w| >= EscapeLen(w)
    requires EscapeLen(v) == EscapeLen(w) && B.EscapeLevel(v) == B.EscapeLevel(w)
    ensures v[..EscapeLen(v)] == w[..EscapeLen(v)]
  {
    hide ValOf;
    var n := EscapeLen(v);
    ByteKinds(v[n - 8..n]);
    ByteKinds(w[n - 8..n]);
    SameValue(v[n - 8..n], w[n - 8..n]);
    assert v[..n] == v[..n - 8] + v[n - 8..n] && w[..n] == w[..n - 8] + w[n - 8..n];
  }

  lemma SameEscape(a: seq<bool>, b: seq<bool>, first: bool, index: nat)
    requires Item(a, first).Escape? && Item(b, first).Escape?
    requires B.ItemLen(a, first) > 0 && B.ItemLen(b, first) > 0 && B.FirstCoef(a, first, index) == B.FirstCoef(b, first, index)
    ensures var n := B.ItemLen(a, first); n == B.ItemLen(b, first) && a[..n] == b[..n]
  {
    hide Item, ValOf, B.EscapeLevel;
    EscapeIs(a, first);
    EscapeIs(b, first);
    SameValue(a[6..12], b[6..12]);
    SameLevel(a[12..], b[12..]);
    var n := EscapeLen(a[12..]);
    EscapeParts(a, n);
    EscapeParts(b, n);
  }

  lemma EscapeParts(u: seq<bool>, n: nat)
    requires 12 + n <= |u|
    ensures u[..12 + n] == u[..6] + u[6..12] + u[12..][..n]
  {
  }

  lemma SameItem(a: seq<bool>, b: seq<bool>, first: bool, index: nat)
    requires B.More(Item(a, first)) && B.More(Item(b, first))
    requires B.ItemLen(a, first) > 0 && B.ItemLen(b, first) > 0 && B.FirstCoef(a, first, index) == B.FirstCoef(b, first, index)
    ensures var n := B.ItemLen(a, first); n == B.ItemLen(b, first) && a[..n] == b[..n]
  {
    hide Item, ValOf, B.EscapeLevel;
    if Item(a, first).Coef? && Item(b, first).Coef? {
      SameCode(a, b, first, index);
    } else {
      SameEscape(a, b, first, index);
    }
  }

  lemma EndIs(u: seq<bool>, first: bool, index: nat)
    requires B.ParseBlock(u, first, index) == B.Whole([], |u|)
    ensures u == [true, false]
  {
  }

  /** Encoding undoes decoding: bits that parse to the same coefficients, coded alike, are the same bits. */
  lemma {:induction false} SameBits(a: seq<bool>, b: seq<bool>, first: bool, index: nat)
    requires B.ParseBlock(a, first, index).Whole? && B.ParseBlock(b, first, index).Whole?
    requires B.ParseBlock(a, first, index).cs == B.ParseBlock(b, first, index).cs
    requires B.ParseBlock(a, first, index).len == |a| && B.ParseBlock(b, first, index).len == |b|
    ensures a == b
    decreases |a|
  {
    hide Item, B.FirstCoef, B.ItemLen;
    var p := B.ParseBlock(a, first, index);
    if p.cs == [] {
      EndIs(a, first, index);
      EndIs(b, first, index);
    } else {
      var n, k, p1 := B.BlockRest(a, first, index, p);
      var m, l, q1 := B.BlockRest(b, first, index, B.ParseBlock(b, first, index));
      assert k == ([k] + p1.cs)[0] == ([l] + q1.cs)[0] == l;
      assert p1.cs == ([k] + p1.cs)[1..] == ([l] + q1.cs)[1..] == q1.cs;
      SameItem(a, b, first, index);
      SameBits(a[n..], b[n..], false, k.index + 1);
      assert a == a[..n] + a[n..] && b == b[..n] + b[n..];
    }
  }

  // ---- the block with its negligible coefficients positive ----

  /** Of a level below 0. */
  function Positive(i: RunLevel): RunLevel
  {
    match i
    case Coded(run, magnitude, _) => Coded(run, magnitude, false)
    case Escaped(run, level) => Escaped(run, 0 - level)
  }

  /** A negligible level turns, but not behind an escape at a place where no level is negligible. */
  predicate Turns(c: Config, scale: nat, intra: bool, cs: seq<B.Coefficient>, k: nat)
    requires Usable(c) && B.Below64(cs) && k < |cs|
  {
    B.Negligible(c, scale, intra, cs[k]) && !exists j :: 0 <= j < k && B.Blinds(c, scale, intra, cs[j])
  }

  function OptimizedItems(c: Config, scale: nat, intra: bool, items: seq<RunLevel>, index: nat): (r: seq<RunLevel>)
    requires Usable(c) && B.Below64(Coefs(items, index))
    ensures |r| == |items|
    ensures forall k :: 0 <= k < |items| ==>
      r[k] == if Turns(c, scale, intra, Coefs(items, index), k) then Positive(items[k]) else items[k]
  {
    seq(|items|, k requires 0 <= k < |items| =>
      if Turns(c, scale, intra, Coefs(items, index), k) then Positive(items[k]) else items[k])
  }

  lemma {:induction false} CoefsAt(items: seq<RunLevel>, rs: seq<RunLevel>, index: nat, k: nat)
    requires |rs| == |items| && k < |items| && forall j :: 0 <= j < |items| ==> rs[j].run == items[j].run
    ensures Coefs(rs, index)[k] == B.Coefficient(Coefs(items, index)[k].index, LevelOf(rs[k]), CodingOf(rs[k]))
    ensures Coefs(items, index)[k].level == LevelOf(items[k]) && Coefs(items, index)[k].coding == CodingOf(items[k])
    decreases |items|
  {
    if k > 0 { CoefsAt(items[1..], rs[1..], index + items[0].run + 1, k - 1); }
  }

  /** A negligible level is above -8. */
  lemma NegligibleSmall(c: Config, scale: nat, intra: bool, k: B.Coefficient)
    requires Usable(c) && scale > 0 && k.index < 64 && B.Negligible(c, scale, intra, k)
    ensures -8 < k.level < 0
  {
    var m := B.Matrix(c, intra)[k.index];
    Parser.Positive(m, scale);
    B.SmallFactor(-k.level, m * scale);
  }

  /** The coefficients of the optimized block. */
  lemma OptimizedCoefs(c: Config, scale: nat, intra: bool, items: seq<RunLevel>, index: nat, k: nat)
    requires Usable(c) && scale > 0 && AllWell(items) && B.Below64(Coefs(items, index)) && k < |items|
    ensures var cs, rs := Coefs(items, index), OptimizedItems(c, scale, intra, items, index);
            && WellItem(rs[k])
            && Coefs(rs, index)[k] == B.Turned(cs[k], Turns(c, scale, intra, cs, k) && !cs[k].coding.Long?)
  {
    hide B.Negligible, B.Blinds, VlcOf;
    var cs, rs := Coefs(items, index), OptimizedItems(c, scale, intra, items, index);
    CoefsAt(items, rs, index, k);
    if Turns(c, scale, intra, cs, k) { NegligibleSmall(c, scale, intra, cs[k]); }
  }
}
