/** The header codes of Annex B of ISO/IEC 11172-2, as an encoder has them, against the parser's bit tests. */
module HeaderTables {
  import opened VlcCodes

  const O := false
  const I := true

  /** u begins with the code. */
  predicate Starts(u: seq<bool>, code: seq<bool>)
  {
    |code| <= |u| && forall i :: 0 <= i < |code| ==> u[i] == code[i]
  }

  /** The first n bits are the code. */
  predicate Cut(u: seq<bool>, n: nat, code: seq<bool>) { n <= |u| && u[..n] == code }

  function Bit(b: bool): (v: nat)
    ensures v < 2
  {
    if b then 1 else 0
  }

  function Two(b1: bool, b0: bool): (v: nat)
    ensures v < 4
  {
    2 * Bit(b1) + Bit(b0)
  }

  // ---- macroblock address increment, Table 2-B.1 ----

  function IncrementVlc(n: nat): seq<bool>
    requires 1 <= n <= 33
  {
    if n < 16 then LowIncrement(n) else HighIncrement(n)
  }

  function LowIncrement(n: nat): seq<bool>
    requires 1 <= n < 16
  {
    match n
    case 1 => [I]
    case 2 => [O, I, I]
    case 3 => [O, I, O]
    case 4 => [O, O, I, I]
    case 5 => [O, O, I, O]
    case 6 => [O, O, O, I, I]
    case 7 => [O, O, O, I, O]
    case 8 => [O, O, O, O, I, I, I]
    case 9 => [O, O, O, O, I, I, O]
    case 10 => [O, O, O, O, I, O, I, I]
    case 11 => [O, O, O, O, I, O, I, O]
    case 12 => [O, O, O, O, I, O, O, I]
    case 13 => [O, O, O, O, I, O, O, O]
    case 14 => [O, O, O, O, O, I, I, I]
    case _ => [O, O, O, O, O, I, I, O]
  }

  function HighIncrement(n: nat): seq<bool>
    requires 16 <= n <= 33
  {
    match n
    case 16 => [O, O, O, O, O, I, O, I, I, I]
    case 17 => [O, O, O, O, O, I, O, I, I, O]
    case 18 => [O, O, O, O, O, I, O, I, O, I]
    case 19 => [O, O, O, O, O, I, O, I, O, O]
    case 20 => [O, O, O, O, O, I, O, O, I, I]
    case 21 => [O, O, O, O, O, I, O, O, I, O]
    case 22 => [O, O, O, O, O, I, O, O, O, I, I]
    case 23 => [O, O, O, O, O, I, O, O, O, I, O]
    case 24 => [O, O, O, O, O, I, O, O, O, O, I]
    case 25 => [O, O, O, O, O, I, O, O, O, O, O]
    case 26 => [O, O, O, O, O, O, I, I, I, I, I]
    case 27 => [O, O, O, O, O, O, I, I, I, I, O]
    case 28 => [O, O, O, O, O, O, I, I, I, O, I]
    case 29 => [O, O, O, O, O, O, I, I, I, O, O]
    case 30 => [O, O, O, O, O, O, I, I, O, I, I]
    case 31 => [O, O, O, O, O, O, I, I, O, I, O]
    case 32 => [O, O, O, O, O, O, I, I, O, O, I]
    case _ => [O, O, O, O, O, O, I, I, O, O, O]
  }

  /** macroblock_stuffing and macroblock_escape */
  function AgainVlc(escape: bool): seq<bool>
  {
    if escape then [O, O, O, O, O, O, O, I, O, O, O] else [O, O, O, O, O, O, O, I, I, I, I]
  }

  lemma LowIncrementDecodes(u: seq<bool>, n: nat)
    requires |u| >= 11 && 1 <= n < 16 && Starts(u, LowIncrement(n))
    ensures AddressCode(u) == Code(|LowIncrement(n)|, Increment)
  {
  }

  lemma HighIncrementDecodes(u: seq<bool>, n: nat)
    requires |u| >= 11 && 16 <= n <= 33 && Starts(u, HighIncrement(n))
    ensures AddressCode(u) == Code(|HighIncrement(n)|, Increment)
  {
  }

  /** Decoding undoes encoding: of an increment, a stuffing or an escape. */
  lemma IncrementDecodes(u: seq<bool>, n: nat)
    requires |u| >= 11 && 1 <= n <= 33 && Starts(u, IncrementVlc(n))
    ensures AddressCode(u) == Code(|IncrementVlc(n)|, Increment)
  {
    if n < 16 { LowIncrementDecodes(u, n); } else { HighIncrementDecodes(u, n); }
  }

  lemma AgainDecodes(u: seq<bool>, escape: bool)
    requires |u| >= 11 && Starts(u, AgainVlc(escape))
    ensures AddressCode(u) == Code(11, Again)
  {
  }

  /** Six zeros and a one, but then another zero: no increment's code, though the parser takes it for one. */
  predicate Stray(u: seq<bool>)
    requires |u| >= 11
  {
    !u[0] && !u[1] && !u[2] && !u[3] && !u[4] && !u[5] && u[6] && !u[7]
  }

  lemma ShortIncrementEncodes(u: seq<bool>) returns (n: nat)
    requires |u| >= 11 && (u[0] || u[1] || u[2] || u[3] || u[4])
    ensures 1 <= n <= 33 && AddressCode(u).Code? && Cut(u, AddressCode(u).len, IncrementVlc(n))
  {
    if u[0] {
      n := 1;
      assert u[..1] == [I];
    } else if u[1] {
      n := 3 - Bit(u[2]);
      assert u[..3] == [O, I, u[2]];
    } else if u[2] {
      n := 5 - Bit(u[3]);
      assert u[..4] == [O, O, I, u[3]];
    } else if u[3] {
      n := 7 - Bit(u[4]);
      assert u[..5] == [O, O, O, I, u[4]];
    } else if u[5] {
      n := 9 - Bit(u[6]);
      assert u[..7] == [O, O, O, O, I, I, u[6]];
    } else {
      n := 13 - Two(u[6], u[7]);
      assert u[..8] == [O, O, O, O, I, O, u[6], u[7]];
    }
  }

  lemma LongIncrementEncodes(u: seq<bool>) returns (n: nat)
    requires |u| >= 11 && !u[0] && !u[1] && !u[2] && !u[3] && !u[4] && (u[5] || (u[6] && u[7]))
    ensures 1 <= n <= 33 && AddressCode(u).Code? && Cut(u, AddressCode(u).len, IncrementVlc(n))
  {
    if !u[5] {
      n := 33 - Three(u[8], u[9], u[10]);
      assert u[..11] == [O, O, O, O, O, O, I, I, u[8], u[9], u[10]];
    } else if u[6] {
      n := 15 - Bit(u[7]);
      assert u[..8] == [O, O, O, O, O, I, I, u[7]];
    } else if u[7] || u[8] {
      n := 23 - Three(u[7], u[8], u[9]);
      assert u[..10] == [O, O, O, O, O, I, O, u[7], u[8], u[9]];
    } else {
      n := 25 - Two(u[9], u[10]);
      assert u[..11] == [O, O, O, O, O, I, O, O, O, u[9], u[10]];
    }
  }

  /** Some increment has this code. */
  ghost predicate IsIncrement(code: seq<bool>) { exists n :: 1 <= n <= 33 && code == IncrementVlc(n) }

  /** Encoding undoes decoding, but for the stray pattern: it is taken for an increment of 11 bits and is none. */
  lemma IncrementEncodes(u: seq<bool>)
    requires |u| >= 11 && AddressCode(u).Code? && AddressCode(u).value.Increment?
    ensures IsIncrement(u[..AddressCode(u).len]) <==> !Stray(u)
  {
    var len := AddressCode(u).len;
    if Stray(u) {
      if IsIncrement(u[..len]) {
        var n :| 1 <= n <= 33 && u[..len] == IncrementVlc(n);
        assert u[..len][6] && !u[..len][7] && !u[..len][5] && !u[..len][4] && !u[..len][3];
        StrayIsNone(u[..len], n);
      }
    } else if u[0] || u[1] || u[2] || u[3] || u[4] {
      var n := ShortIncrementEncodes(u);
    } else {
      var n := LongIncrementEncodes(u);
    }
  }

  lemma StrayIsNone(code: seq<bool>, n: nat)
    requires 1 <= n <= 33 && code == IncrementVlc(n) && |code| == 11
    ensures code[5] || code[7]
  {
  }

  lemma AgainEncodes(u: seq<bool>)
    requires |u| >= 11
    ensures AddressCode(u).Code? && AddressCode(u).value.Again? <==> Cut(u, 11, AgainVlc(true)) || Cut(u, 11, AgainVlc(false))
  {
    assert u[..11] == [u[0], u[1], u[2], u[3], u[4], u[5], u[6], u[7], u[8], u[9], u[10]];
  }

  // ---- macroblock type, Tables 2-B.2a to 2-B.2c ----

  /** The code of a macroblock type in a picture, if it may occur there. */
  function TypeVlc(p: PictureType, k: MbType): seq<bool>
  {
    match p
    case PictureI => TypeVlcI(k)
    case PictureP => TypeVlcP(k)
    case PictureB => TypeVlcB(k)
  }

  const NONE: seq<bool> := []

  function TypeVlcI(k: MbType): seq<bool>
  {
    match (k.quant, k.forward, k.backward, k.pattern, k.intra)
    case (false, false, false, false, true) => [I]
    case (true, false, false, false, true) => [O, I]
    case _ => NONE
  }

  function TypeVlcP(k: MbType): seq<bool>
  {
    match (k.quant, k.forward, k.backward, k.pattern, k.intra)
    case (false, true, false, true, false) => [I]
    case (false, false, false, true, false) => [O, I]
    case (false, true, false, false, false) => [O, O, I]
    case (false, false, false, false, true) => [O, O, O, I, I]
    case (true, true, false, true, false) => [O, O, O, I, O]
    case (true, false, false, true, false) => [O, O, O, O, I]
    case (true, false, false, false, true) => [O, O, O, O, O, I]
    case _ => NONE
  }

  function TypeVlcB(k: MbType): seq<bool>
  {
    match (k.quant, k.forward, k.backward, k.pattern, k.intra)
    case (false, true, true, false, false) => [I, O]
    case (false, true, true, true, false) => [I, I]
    case (false, false, true, false, false) => [O, I, O]
    case (false, false, true, true, false) => [O, I, I]
    case (false, true, false, false, false) => [O, O, I, O]
    case (false, true, false, true, false) => [O, O, I, I]
    case (false, false, false, false, true) => [O, O, O, I, I]
    case (true, true, true, true, false) => [O, O, O, I, O]
    case (true, true, false, true, false) => [O, O, O, O, I, I]
    case (true, false, true, true, false) => [O, O, O, O, I, O]
    case (true, false, false, false, true) => [O, O, O, O, O, I]
    case _ => NONE
  }

  lemma TypeDecodes(p: PictureType, u: seq<bool>, k: MbType)
    requires |u| >= 6 && TypeVlc(p, k) != NONE && Starts(u, TypeVlc(p, k))
    ensures TypeCode(p, u) == Code(|TypeVlc(p, k)|, k)
  {
  }

  lemma TypeEncodes(p: PictureType, u: seq<bool>)
    requires |u| >= 6 && TypeCode(p, u).Code?
    ensures var r := TypeCode(p, u); TypeVlc(p, r.value) != NONE && Cut(u, r.len, TypeVlc(p, r.value))
  {
    assert u[..1] == [u[0]] && u[..2] == [u[0], u[1]] && u[..3] == [u[0], u[1], u[2]];
    assert u[..4] == [u[0], u[1], u[2], u[3]] && u[..5] == [u[0], u[1], u[2], u[3], u[4]];
    assert u[..6] == [u[0], u[1], u[2], u[3], u[4], u[5]];
  }

  // ---- motion code, Table 2-B.4 ----

  /** The code of a motion code's magnitude; a sign bit follows when it is not 0. */
  function MotionVlc(m: nat): seq<bool>
    requires m <= 16
  {
    match m
    case 0 => [I]
    case 1 => [O, I]
    case 2 => [O, O, I]
    case 3 => [O, O, O, I]
    case 4 => [O, O, O, O, I, I]
    case 5 => [O, O, O, O, I, O, I]
    case 6 => [O, O, O, O, I, O, O]
    case 7 => [O, O, O, O, O, I, I]
    case 8 => [O, O, O, O, O, I, O, I, I]
    case 9 => [O, O, O, O, O, I, O, I, O]
    case 10 => [O, O, O, O, O, I, O, O, I]
    case 11 => [O, O, O, O, O, I, O, O, O, I]
    case 12 => [O, O, O, O, O, I, O, O, O, O]
    case 13 => [O, O, O, O, O, O, I, I, I, I]
    case 14 => [O, O, O, O, O, O, I, I, I, O]
    case 15 => [O, O, O, O, O, O, I, I, O, I]
    case _ => [O, O, O, O, O, O, I, I, O, O]
  }

  /** Magnitude, sign. */
  function MotionBits(m: nat, negative: bool): seq<bool>
    requires m <= 16
  {
    if m == 0 then MotionVlc(0) else MotionVlc(m) + [negative]
  }

  lemma MotionVlcDecodes(u: seq<bool>, m: nat)
    requires |u| >= 11 && m <= 16 && Starts(u, MotionVlc(m))
    ensures MotionCode(u) == if m == 0 then Code(1, false) else Code(|MotionVlc(m)| + 1, true)
  {
  }

  /** Decoding undoes encoding; a residual follows exactly when the code is not 0. */
  lemma MotionDecodes(u: seq<bool>, m: nat, negative: bool)
    requires |u| >= 11 && m <= 16 && Starts(u, MotionBits(m, negative))
    ensures MotionCode(u) == Code(|MotionBits(m, negative)|, m != 0)
  {
    if m > 0 {
      forall i | 0 <= i < |MotionVlc(m)|
        ensures u[i] == MotionVlc(m)[i]
      {
        assert u[i] == MotionBits(m, negative)[i];
      }
    }
    MotionVlcDecodes(u, m);
  }

  lemma MotionVlcEncodes(u: seq<bool>) returns (m: nat)
    requires |u| >= 11 && MotionCode(u).Code? && !u[0]
    ensures 0 < m <= 16 && Cut(u, MotionCode(u).len - 1, MotionVlc(m))
  {
    if u[1] {
      m := 1;
      assert u[..2] == [O, I];
    } else if u[2] {
      m := 2;
      assert u[..3] == [O, O, I];
    } else if u[3] {
      m := 3;
      assert u[..4] == [O, O, O, I];
    } else if u[4] {
      m := if u[5] then 4 else 6 - Bit(u[6]);
      assert u[..6] == [O, O, O, O, I, u[5]] && u[..7] == [O, O, O, O, I, u[5], u[6]];
    } else if !u[5] {
      m := 16 - Two(u[8], u[9]);
      assert u[..10] == [O, O, O, O, O, O, I, I, u[8], u[9]];
    } else if u[6] {
      m := 7;
      assert u[..7] == [O, O, O, O, O, I, I];
    } else if u[7] || u[8] {
      m := 11 - Two(u[7], u[8]);
      assert u[..9] == [O, O, O, O, O, I, O, u[7], u[8]];
    } else {
      m := 12 - Bit(u[9]);
      assert u[..10] == [O, O, O, O, O, I, O, O, O, u[9]];
    }
  }

  /** Encoding undoes decoding. */
  lemma MotionEncodes(u: seq<bool>) returns (m: nat, negative: bool)
    requires |u| >= 11 && MotionCode(u).Code?
    ensures m <= 16 && Cut(u, MotionCode(u).len, MotionBits(m, negative)) && (m == 0 <==> !MotionCode(u).value)
  {
    var n := MotionCode(u).len;
    if u[0] {
      m, negative := 0, false;
      assert u[..1] == [I];
    } else {
      m := MotionVlcEncodes(u);
      negative := u[n - 1];
      assert u[..n] == u[..n - 1] + [u[n - 1]];
    }
  }

  // ---- coded block pattern, Table 2-B.3 ----

  function PatternVlc(p: nat): seq<bool>
    requires 1 <= p <= 63
  {
    if p < 22 then LowPattern(p) else if p < 43 then MidPattern(p) else HighPattern(p)
  }

  function LowPattern(p: nat): seq<bool>
    requires 1 <= p < 22
  {
    match p
    case 1 => [O, I, O, I, I]
    case 2 => [O, I, O, O, I]
    case 3 => [O, O, I, I, O, I]
    case 4 => [I, I, O, I]
    case 5 => [O, O, I, O, I, I, I]
    case 6 => [O, O, I, O, O, I, I]
    case 7 => [O, O, O, I, I, I, I, I]
    case 8 => [I, I, O, O]
    case 9 => [O, O, I, O, I, I, O]
    case 10 => [O, O, I, O, O, I, O]
    case 11 => [O, O, O, I, I, I, I, O]
    case 12 => [I, O, O, I, I]
    case 13 => [O, O, O, I, I, O, I, I]
    case 14 => [O, O, O, I, O, I, I, I]
    case 15 => [O, O, O, I, O, O, I, I]
    case 16 => [I, O, I, I]
    case 17 => [O, O, I, O, I, O, I]
    case 18 => [O, O, I, O, O, O, I]
    case 19 => [O, O, O, I, I, I, O, I]
    case 20 => [I, O, O, O, I]
    case _ => [O, O, O, I, I, O, O, I]
  }

  function MidPattern(p: nat): seq<bool>
    requires 22 <= p < 43
  {
    match p
    case 22 => [O, O, O, I, O, I, O, I]
    case 23 => [O, O, O, I, O, O, O, I]
    case 24 => [O, O, I, I, I, I]
    case 25 => [O, O, O, O, I, I, I, I]
    case 26 => [O, O, O, O, I, I, O, I]
    case 27 => [O, O, O, O, O, O, O, I, I]
    case 28 => [O, I, I, I, I]
    case 29 => [O, O, O, O, I, O, I, I]
    case 30 => [O, O, O, O, O, I, I, I]
    case 31 => [O, O, O, O, O, O, I, I, I]
    case 32 => [I, O, I, O]
    case 33 => [O, O, I, O, I, O, O]
    case 34 => [O, O, I, O, O, O, O]
    case 35 => [O, O, O, I, I, I, O, O]
    case 36 => [O, O, I, I, I, O]
    case 37 => [O, O, O, O, I, I, I, O]
    case 38 => [O, O, O, O, I, I, O, O]
    case 39 => [O, O, O, O, O, O, O, I, O]
    case 40 => [I, O, O, O, O]
    case 41 => [O, O, O, I, I, O, O, O]
    case _ => [O, O, O, I, O, I, O, O]
  }

  function HighPattern(p: nat): seq<bool>
    requires 43 <= p <= 63
  {
    match p
    case 43 => [O, O, O, I, O, O, O, O]
    case 44 => [O, I, I, I, O]
    case 45 => [O, O, O, O, I, O, I, O]
    case 46 => [O, O, O, O, O, I, I, O]
    case 47 => [O, O, O, O, O, O, I, I, O]
    case 48 => [I, O, O, I, O]
    case 49 => [O, O, O, I, I, O, I, O]
    case 50 => [O, O, O, I, O, I, I, O]
    case 51 => [O, O, O, I, O, O, I, O]
    case 52 => [O, I, I, O, I]
    case 53 => [O, O, O, O, I, O, O, I]
    case 54 => [O, O, O, O, O, I, O, I]
    case 55 => [O, O, O, O, O, O, I, O, I]
    case 56 => [O, I, I, O, O]
    case 57 => [O, O, O, O, I, O, O, O]
    case 58 => [O, O, O, O, O, I, O, O]
    case 59 => [O, O, O, O, O, O, I, O, O]
    case 60 => [I, I, I]
    case 61 => [O, I, O, I, O]
    case 62 => [O, I, O, O, O]
    case _ => [O, O, I, I, O, O]
  }

  /** Bits 5 to 2 of the pattern stand for the luminance blocks, bits 1 and 0 for the chrominance blocks. */
  function BlocksOf(p: nat): Blocks
  {
    Blocks(Bit(p % 64 >= 32) + Bit(p % 32 >= 16) + Bit(p % 16 >= 8) + Bit(p % 8 >= 4), Bit(p % 4 >= 2) + Bit(p % 2 >= 1))
  }

  lemma PatternDecodes1(u: seq<bool>, p: nat)
    requires |u| >= 9 && 1 <= p < 12 && Starts(u, LowPattern(p))
    ensures PatternCode(u) == Code(|LowPattern(p)|, BlocksOf(p))
  {
  }

  lemma PatternDecodes12(u: seq<bool>, p: nat)
    requires |u| >= 9 && 12 <= p < 22 && Starts(u, LowPattern(p))
    ensures PatternCode(u) == Code(|LowPattern(p)|, BlocksOf(p))
  {
  }

  lemma PatternDecodes22(u: seq<bool>, p: nat)
    requires |u| >= 9 && 22 <= p < 33 && Starts(u, MidPattern(p))
    ensures PatternCode(u) == Code(|MidPattern(p)|, BlocksOf(p))
  {
  }

  lemma PatternDecodes33(u: seq<bool>, p: nat)
    requires |u| >= 9 && 33 <= p < 43 && Starts(u, MidPattern(p))
    ensures PatternCode(u) == Code(|MidPattern(p)|, BlocksOf(p))
  {
  }

  lemma PatternDecodes43(u: seq<bool>, p: nat)
    requires |u| >= 9 && 43 <= p < 54 && Starts(u, HighPattern(p))
    ensures PatternCode(u) == Code(|HighPattern(p)|, BlocksOf(p))
  {
  }

  lemma PatternDecodes54(u: seq<bool>, p: nat)
    requires |u| >= 9 && 54 <= p < 64 && Starts(u, HighPattern(p))
    ensures PatternCode(u) == Code(|HighPattern(p)|, BlocksOf(p))
  {
  }

  /** Decoding undoes encoding: the numbers of coded blocks are those of the pattern. */
  lemma PatternDecodes(u: seq<bool>, p: nat)
    requires |u| >= 9 && 1 <= p <= 63 && Starts(u, PatternVlc(p))
    ensures PatternCode(u) == Code(|PatternVlc(p)|, BlocksOf(p))
  {
    if p < 12 { PatternDecodes1(u, p); }
    else if p < 22 { PatternDecodes12(u, p); }
    else if p < 33 { PatternDecodes22(u, p); }
    else if p < 43 { PatternDecodes33(u, p); }
    else if p < 54 { PatternDecodes43(u, p); }
    else { PatternDecodes54(u, p); }
  }

  /** One of four, by two bits. */
  function Pick(b1: bool, b0: bool, p3: nat, p2: nat, p1: nat, p0: nat): nat
  {
    if b1 then (if b0 then p3 else p2) else if b0 then p1 else p0
  }

  lemma PatternEncodesShort(u: seq<bool>) returns (p: nat)
    requires |u| >= 9 && (u[0] || u[1])
    ensures 1 <= p <= 63 && PatternCode(u).Code? && Cut(u, PatternCode(u).len, PatternVlc(p))
  {
    assert u[..3] == [u[0], u[1], u[2]] && u[..4] == [u[0], u[1], u[2], u[3]] && u[..5] == [u[0], u[1], u[2], u[3], u[4]];
    if u[0] {
      if u[1] && u[2] { p := 60; }
      else if u[1] { p := if u[3] then 4 else 8; }
      else if u[2] { p := if u[3] then 16 else 32; }
      else { p := Pick(u[3], u[4], 12, 48, 20, 40); }
    } else if u[2] {
      p := Pick(u[3], u[4], 28, 44, 52, 56);
    } else {
      p := Pick(u[3], u[4], 1, 61, 2, 62);
    }
  }

  lemma PatternEncodesMiddle(u: seq<bool>) returns (p: nat)
    requires |u| >= 9 && !u[0] && !u[1] && u[2]
    ensures 1 <= p <= 63 && PatternCode(u).Code? && Cut(u, PatternCode(u).len, PatternVlc(p))
  {
    assert u[..6] == [O, O, I, u[3], u[4], u[5]] && u[..7] == [O, O, I, u[3], u[4], u[5], u[6]];
    if u[3] {
      p := Pick(u[4], u[5], 24, 36, 3, 63);
    } else if u[4] {
      p := Pick(u[5], u[6], 5, 9, 17, 33);
    } else {
      p := Pick(u[5], u[6], 6, 10, 18, 34);
    }
  }

  lemma PatternEncodesLong(u: seq<bool>) returns (p: nat)
    requires |u| >= 9 && !u[0] && !u[1] && !u[2] && u[3]
    ensures 1 <= p <= 63 && PatternCode(u).Code? && Cut(u, PatternCode(u).len, PatternVlc(p))
  {
    assert u[..8] == [O, O, O, I, u[4], u[5], u[6], u[7]];
    if u[4] {
      p := if u[5] then Pick(u[6], u[7], 7, 11, 19, 35) else Pick(u[6], u[7], 13, 49, 21, 41);
    } else {
      p := if u[5] then Pick(u[6], u[7], 14, 50, 22, 42) else Pick(u[6], u[7], 15, 51, 23, 43);
    }
  }

  lemma PatternEncodesLonger(u: seq<bool>) returns (p: nat)
    requires |u| >= 9 && !u[0] && !u[1] && !u[2] && !u[3] && PatternCode(u).Code?
    ensures 1 <= p <= 63 && Cut(u, PatternCode(u).len, PatternVlc(p))
  {
    assert u[..8] == [O, O, O, O, u[4], u[5], u[6], u[7]] && u[..9] == [O, O, O, O, u[4], u[5], u[6], u[7], u[8]];
    if u[4] {
      p := if u[5] then Pick(u[6], u[7], 25, 37, 26, 38) else Pick(u[6], u[7], 29, 45, 53, 57);
    } else if u[5] {
      p := Pick(u[6], u[7], 30, 46, 54, 58);
    } else if u[6] {
      p := Pick(u[7], u[8], 31, 47, 55, 59);
    } else {
      p := if u[8] then 27 else 39;
    }
  }

  /** Encoding undoes decoding. */
  lemma PatternEncodes(u: seq<bool>) returns (p: nat)
    requires |u| >= 9 && PatternCode(u).Code?
    ensures 1 <= p <= 63 && Cut(u, PatternCode(u).len, PatternVlc(p))
  {
    if u[0] || u[1] { p := PatternEncodesShort(u); }
    else if u[2] { p := PatternEncodesMiddle(u); }
    else if u[3] { p := PatternEncodesLong(u); }
    else { p := PatternEncodesLonger(u); }
  }

  // ---- DC sizes, Tables 2-B.5a and 2-B.5b ----

  function LumaSizeVlc(size: nat): seq<bool>
    requires size <= 8
  {
    match size
    case 0 => [I, O, O]
    case 1 => [O, O]
    case 2 => [O, I]
    case 3 => [I, O, I]
    case 4 => [I, I, O]
    case 5 => [I, I, I, O]
    case 6 => [I, I, I, I, O]
    case 7 => [I, I, I, I, I, O]
    case _ => [I, I, I, I, I, I, O]
  }

  function ChromaSizeVlc(size: nat): seq<bool>
    requires size <= 8
  {
    match size
    case 0 => [O, O]
    case 1 => [O, I]
    case 2 => [I, O]
    case 3 => [I, I, O]
    case 4 => [I, I, I, O]
    case 5 => [I, I, I, I, O]
    case 6 => [I, I, I, I, I, O]
    case 7 => [I, I, I, I, I, I, O]
    case _ => [I, I, I, I, I, I, I, O]
  }

  lemma LumaSizeDecodes(u: seq<bool>, size: nat)
    requires |u| >= 7 && size <= 8 && Starts(u, LumaSizeVlc(size))
    ensures LumaDcSize(u) == Code(|LumaSizeVlc(size)|, size)
  {
  }

  lemma ChromaSizeDecodes(u: seq<bool>, size: nat)
    requires |u| >= 8 && size <= 8 && Starts(u, ChromaSizeVlc(size))
    ensures ChromaDcSize(u) == Code(|ChromaSizeVlc(size)|, size)
  {
  }

  lemma LumaSizeEncodes(u: seq<bool>)
    requires |u| >= 7 && LumaDcSize(u).Code?
    ensures Cut(u, LumaDcSize(u).len, LumaSizeVlc(LumaDcSize(u).value))
  {
    assert u[..2] == [u[0], u[1]] && u[..3] == [u[0], u[1], u[2]] && u[..4] == [u[0], u[1], u[2], u[3]];
    assert u[..5] == [u[0], u[1], u[2], u[3], u[4]] && u[..6] == [u[0], u[1], u[2], u[3], u[4], u[5]];
    assert u[..7] == [u[0], u[1], u[2], u[3], u[4], u[5], u[6]];
  }

  lemma ChromaSizeEncodes(u: seq<bool>)
    requires |u| >= 8 && ChromaDcSize(u).Code?
    ensures Cut(u, ChromaDcSize(u).len, ChromaSizeVlc(ChromaDcSize(u).value))
  {
    assert u[..2] == [u[0], u[1]] && u[..3] == [u[0], u[1], u[2]] && u[..4] == [u[0], u[1], u[2], u[3]];
    assert u[..5] == [u[0], u[1], u[2], u[3], u[4]] && u[..6] == [u[0], u[1], u[2], u[3], u[4], u[5]];
    assert u[..7] == [u[0], u[1], u[2], u[3], u[4], u[5], u[6]] && u[..8] == [u[0], u[1], u[2], u[3], u[4], u[5], u[6], u[7]];
  }
}
