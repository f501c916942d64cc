/** What becomes of a negative escape level that the end of a buffer cuts in two: it is rounded to what its first bits
    allow, for by then they have been written. */
module SplitLevels {
  import opened Bits
  import opened VlcCodes
  import opened Parser
  import opened Soundness
  import opened BlockSyntax

  /** A level of -m, from -8 to -1, of which k bits come before the cut, under threshold t. */
  function Rounded(t: nat, k: nat, m: nat): int
  {
    if k <= 5 then
      if t == 7 then -8 else if t >= 2 && m <= 4 then -4 else if t == 1 && m <= 2 then -2 else 0 - m
    else if k == 6 then
      if t == 7 then (if m <= 4 then 4 else -8) else if t == 3 && m <= 4 then -4 else 0 - m
    else if m <= 2 then (if t >= 2 then 2 else -2)
    else if m <= 4 then (if t == 7 then 4 else if t == 3 then -4 else 0 - m)
    else if t == 7 then 6 else 0 - m
  }

  /** What is left of the byte b when the bits before place k are taken from one buffer and the others from the next. */
  function CutByte(s: Parse, b: seq<bool>, k: nat, t: nat): (r: seq<bool>)
    requires Saved(s) && Counts(s.b) && |b| == 8 && 0 < k < 8
    ensures |r| == 8
  {
    var m := SplitMove(s, b[..k], t);
    var e := SplitEdit(t, m.s.split, b[k..]);
    b[..k][..k - |m.edit|] + m.edit + (b[k..][..8 - k - |e|] + e)
  }

  predicate Small(b: seq<bool>) { |b| == 8 && b[0] && b[1] && b[2] && b[3] && b[4] }

  lemma EditBits()
    ensures BitsOf(0x1, 6) == [false, false, false, false, false, true]
    ensures BitsOf(0x1, 7) == [false, false, false, false, false, false, true]
    ensures BitsOf(0x2, 7) == [false, false, false, false, false, true, false]
    ensures BitsOf(0x3, 7) == [false, false, false, false, false, true, true]
  {
  }

  /** A byte in two's complement. */
  function LevelByte(r: seq<bool>): int
    requires |r| == 8
  {
    if r[0] then ValOf(r) - 256 else ValOf(r)
  }

  /** The magnitude of a small level. */
  function Magnitude(b: seq<bool>): (m: nat)
    requires Small(b)
    ensures 1 <= m <= 8
  {
    8 - Three(b[5], b[6], b[7])
  }

  lemma CutEarly(s: Parse, b: seq<bool>, k: nat, t: nat)
    requires Saved(s) && Counts(s.b) && Small(b) && 0 < k <= 5 && 0 < t <= 7
    ensures LevelByte(CutByte(s, b, k, t)) == Rounded(t, k, Magnitude(b))
  {
    hide ValOf, BitsOf;
    var r, p, w := CutByte(s, b, k, t), SplitMove(s, b[..k], t).s.split, b[k..];
    ByteValue(r);
    assert p.numBits == k && p.allOnes && SplitMove(s, b[..k], t).edit == [];
    assert All(w[..|w| - 3], true);
  }

  lemma CutAtSix(s: Parse, b: seq<bool>, t: nat)
    requires Saved(s) && Counts(s.b) && Small(b) && 0 < t <= 7
    ensures LevelByte(CutByte(s, b, 6, t)) == Rounded(t, 6, Magnitude(b))
  {
    hide ValOf, BitsOf;
    EditBits();
    ByteValue(CutByte(s, b, 6, t));
  }

  lemma CutAtSeven(s: Parse, b: seq<bool>, t: nat)
    requires Saved(s) && Counts(s.b) && Small(b) && 0 < t <= 7
    ensures LevelByte(CutByte(s, b, 7, t)) == Rounded(t, 7, Magnitude(b))
  {
    hide ValOf, BitsOf;
    EditBits();
    ByteValue(CutByte(s, b, 7, t));
  }

  /** Wherever a small level is cut, it becomes what it is rounded to. */
  lemma CutRounds(s: Parse, b: seq<bool>, k: nat, t: nat)
    requires Saved(s) && Counts(s.b) && Small(b) && 0 < k < 8 && 0 < t <= 7
    ensures LevelByte(CutByte(s, b, k, t)) == Rounded(t, k, Magnitude(b))
  {
    if k <= 5 { CutEarly(s, b, k, t); } else if k == 6 { CutAtSix(s, b, t); } else { CutAtSeven(s, b, t); }
  }

  /** All other levels stay as they are. */
  lemma CutKeeps(s: Parse, b: seq<bool>, k: nat, t: nat)
    requires Saved(s) && Counts(s.b) && |b| == 8 && b[0] && !Small(b) && 0 < k < 8
    ensures CutByte(s, b, k, t) == b
  {
    hide BitsOf;
    var u, w := b[..k], b[k..];
    var j := if !b[1] then 1 else if !b[2] then 2 else if !b[3] then 3 else 4;
    if j < k {
      var head := if k <= 5 then u[1..] else u[1..5];
      assert head[j - 1] == b[j];
    } else {
      assert w[..|w| - 3][j - k] == b[j];
    }
  }

  /** Rounding can show: an intra level of -1 that reconstructs to 0 becomes one of -2 that does not. */
  lemma CutCanShow()
    ensures Threshold(7, 1) == 1 && Rounded(Threshold(7, 1), 1, 1) == -2
    ensures IntraRecon(-1, 7, 1) == 0 && IntraRecon(-2, 7, 1) == -1
  {
  }
}
