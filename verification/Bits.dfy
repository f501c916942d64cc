/** Bit groups, most significant bit first, and their values as machine words. */
module Bits {

  newtype byte = x: int | 0 <= x < 256

  const WORD: nat := 0x1_0000_0000

  /** The low n bits of v, most significant first. */
  function BitsOf(v: nat, n: nat): (b: seq<bool>)
    ensures |b| == n
  {
    if n == 0 then [] else BitsOf(v / 2, n - 1) + [v % 2 == 1]
  }

  /** The number a bit group stands for. */
  function ValOf(b: seq<bool>): nat
  {
    if b == [] then 0 else 2 * ValOf(b[..|b| - 1]) + (if b[|b| - 1] then 1 else 0)
  }

  /** The bits of a buffer in transmission order. */
  function BytesBits(s: seq<byte>): (b: seq<bool>)
    ensures |b| == 8 * |s|
  {
    if s == [] then [] else BitsOf(s[0] as nat, 8) + BytesBits(s[1..])
  }

  function Zeros(n: nat): (z: seq<bool>)
    ensures |z| == n && forall i :: 0 <= i < n ==> !z[i]
  {
    seq(n, i => false)
  }

  function Ones(n: nat): (z: seq<bool>)
    ensures |z| == n && forall i :: 0 <= i < n ==> z[i]
  {
    seq(n, i => true)
  }

  /** x << n on an unsigned 32-bit word: n doublings modulo 2^32, so n == 32 gives 0. */
  function Shl(x: nat, n: nat): (r: nat)
    requires x < WORD
    ensures r < WORD
    decreases n
  {
    if n == 0 then x else Shl(if 2 * x < WORD then 2 * x else 2 * x - WORD, n - 1)
  }

  /** x >> n: n halvings, so n == 32 gives 0. */
  function Shr(x: nat, n: nat): (r: nat)
    ensures r <= x
  {
    if n == 0 then x else Shr(x / 2, n - 1)
  }

  function And(x: nat, y: nat): (r: nat)
    ensures r <= x
  {
    if x == 0 || y == 0 then 0 else 2 * And(x / 2, y / 2) + (if x % 2 == 1 && y % 2 == 1 then 1 else 0)
  }

  function Or(x: nat, y: nat): nat
    decreases x + y
  {
    if x == 0 && y == 0 then 0 else 2 * Or(x / 2, y / 2) + (if x % 2 == 1 || y % 2 == 1 then 1 else 0)
  }

  /** x & ~y */
  function AndNot(x: nat, y: nat): (r: nat)
    ensures r <= x
  {
    if x == 0 then 0 else 2 * AndNot(x / 2, y / 2) + (if x % 2 == 1 && y % 2 == 0 then 1 else 0)
  }

  function Pow2(n: nat): (p: nat)
    ensures p > 0
  {
    if n == 0 then 1 else 2 * Pow2(n - 1)
  }

  // ---- bit groups and numbers ----

  lemma {:induction false} ValBits(v: nat, n: nat)
    requires v < Pow2(n)
    ensures ValOf(BitsOf(v, n)) == v
  {
    if n > 0 {
      ValBits(v / 2, n - 1);
      assert BitsOf(v, n)[..n - 1] == BitsOf(v / 2, n - 1);
    }
  }

  lemma {:induction false} BitsVal(b: seq<bool>)
    ensures BitsOf(ValOf(b), |b|) == b && ValOf(b) < Pow2(|b|)
  {
    if b != [] {
      BitsVal(b[..|b| - 1]);
      assert b == b[..|b| - 1] + [b[|b| - 1]];
    }
  }

  lemma Pow2Values()
    ensures Pow2(8) == 256 && Pow2(16) == 0x1_0000 && Pow2(32) == WORD
  {
    assert Pow2(8) == 256;
    assert Pow2(12) == 0x1000;
    assert Pow2(16) == 0x1_0000;
    assert Pow2(20) == 0x10_0000;
    assert Pow2(24) == 0x100_0000;
    assert Pow2(28) == 0x1000_0000;
  }

  /** Leading zeros carry no value. */
  lemma {:induction false} ValZeros(n: nat, b: seq<bool>)
    ensures ValOf(Zeros(n) + b) == ValOf(b)
    decreases n + |b|
  {
    if b != [] {
      ValZeros(n, b[..|b| - 1]);
      assert (Zeros(n) + b)[..n + |b| - 1] == Zeros(n) + b[..|b| - 1];
    } else if n > 0 {
      ValZeros(n - 1, []);
      assert (Zeros(n) + b)[..n - 1] == Zeros(n - 1) + [];
    }
  }

  /** A word is known by its 32 bits. */
  lemma WordBits(x: nat, b: seq<bool>)
    requires x < WORD && |b| <= 32 && BitsOf(x, 32) == Zeros(32 - |b|) + b
    ensures x == ValOf(b)
  {
    Pow2Values();
    ValBits(x, 32);
    ValZeros(32 - |b|, b);
  }

  // ---- shifts ----

  lemma {:induction false} BitsLow(v: nat, n: nat)
    ensures BitsOf(v, n + 1)[1..] == BitsOf(v, n)
    ensures v >= Pow2(n) ==> BitsOf(v - Pow2(n), n) == BitsOf(v, n)
  {
    if n > 0 {
      BitsLow(v / 2, n - 1);
      if v >= Pow2(n) { assert (v - Pow2(n)) / 2 == v / 2 - Pow2(n - 1); }
    }
  }

  lemma DoubleBits(x: nat)
    requires x < WORD
    ensures BitsOf(if 2 * x < WORD then 2 * x else 2 * x - WORD, 32) == BitsOf(x, 32)[1..] + Zeros(1)
  {
    hide BitsOf;
    Pow2Values();
    BitsLow(2 * x, 32);
    EvenBits(x, 32);
  }

  lemma EvenBits(x: nat, n: nat)
    ensures BitsOf(2 * x, n + 1) == BitsOf(x, n) + [false]
  {
  }

  lemma {:induction false} ShlBits(x: nat, n: nat)
    requires x < WORD && n <= 32
    ensures BitsOf(Shl(x, n), 32) == BitsOf(x, 32)[n..] + Zeros(n)
    decreases n
  {
    if n > 0 {
      var y := if 2 * x < WORD then 2 * x else 2 * x - WORD;
      DoubleBits(x);
      ShlBits(y, n - 1);
      assert BitsOf(y, 32)[n - 1..] == BitsOf(x, 32)[n..] + Zeros(1);
    } else {
      assert BitsOf(x, 32)[0..] + Zeros(0) == BitsOf(x, 32);
    }
  }

  lemma {:induction false} HalfBits(x: nat, w: nat)
    requires x < Pow2(w)
    ensures w > 0 ==> x / 2 < Pow2(w - 1) && BitsOf(x, w) == BitsOf(x / 2, w - 1) + [x % 2 == 1]
    ensures BitsOf(x, w + 1) == [false] + BitsOf(x, w)
  {
    if w > 0 { HalfBits(x / 2, w - 1); }
  }

  lemma {:induction false} ShrBits(x: nat, n: nat)
    requires x < WORD && n <= 32
    ensures BitsOf(Shr(x, n), 32) == Zeros(n) + BitsOf(x, 32)[..32 - n]
  {
    if n > 0 {
      Pow2Values();
      HalfBits(x, 32);
      HalfBits(x / 2, 31);
      ShrBits(x / 2, n - 1);
    }
  }

  // ---- buffers ----

  lemma {:induction false} BytesAppend(s: seq<byte>, t: seq<byte>)
    ensures BytesBits(s + t) == BytesBits(s) + BytesBits(t)
  {
    if s == [] {
      assert s + t == t;
    } else {
      BytesAppend(s[1..], t);
      assert (s + t)[1..] == s[1..] + t;
    }
  }

  // ---- bitwise operators ----

  lemma {:induction false} AndBits(x: nat, y: nat, n: nat)
    ensures forall i :: 0 <= i < n ==> BitsOf(And(x, y), n)[i] == (BitsOf(x, n)[i] && BitsOf(y, n)[i])
  {
    if n > 0 {
      AndBits(x / 2, y / 2, n - 1);
      if x == 0 || y == 0 { ZeroBits(n); }
    }
  }

  lemma {:induction false} ZeroBits(n: nat)
    ensures BitsOf(0, n) == Zeros(n)
  {
    if n > 0 { ZeroBits(n - 1); }
  }

  lemma {:induction false} OrBits(x: nat, y: nat, n: nat)
    ensures forall i :: 0 <= i < n ==> BitsOf(Or(x, y), n)[i] == (BitsOf(x, n)[i] || BitsOf(y, n)[i])
  {
    if n > 0 {
      OrBits(x / 2, y / 2, n - 1);
      assert Or(x, y) / 2 == Or(x / 2, y / 2);
    }
  }

  lemma {:induction false} AndNotBits(x: nat, y: nat, n: nat)
    ensures forall i :: 0 <= i < n ==> BitsOf(AndNot(x, y), n)[i] == (BitsOf(x, n)[i] && !BitsOf(y, n)[i])
  {
    if n > 0 {
      AndNotBits(x / 2, y / 2, n - 1);
      assert AndNot(x, y) / 2 == AndNot(x / 2, y / 2);
    }
  }

  lemma {:induction false} OrWord(x: nat, y: nat, n: nat)
    requires x < Pow2(n) && y < Pow2(n)
    ensures Or(x, y) < Pow2(n)
  {
    if n > 0 { OrWord(x / 2, y / 2, n - 1); }
  }

  lemma {:induction false} ShortBits(v: nat, n: nat, k: nat)
    requires v < Pow2(n)
    ensures BitsOf(v, k + n) == Zeros(k) + BitsOf(v, n)
    decreases n
  {
    if n == 0 {
      ZeroBits(k);
    } else {
      ShortBits(v / 2, n - 1, k);
    }
  }

  lemma {:induction false} LowBits(v: nat, k: nat, n: nat)
    ensures BitsOf(v, k + n)[k..] == BitsOf(v, n)
    decreases n
  {
    if n > 0 {
      LowBits(v / 2, k, n - 1);
      assert BitsOf(v, k + n)[k..] == BitsOf(v / 2, k + n - 1)[k..] + [v % 2 == 1];
    }
  }

  /** (1 << n) - 1 */
  lemma {:induction false} OnesBits(n: nat, w: nat)
    requires n <= w
    ensures BitsOf(Pow2(n) - 1, w) == Zeros(w - n) + Ones(n)
    decreases w
  {
    if n == 0 {
      ZeroBits(w);
    } else {
      OnesBits(n - 1, w - 1);
      assert (Pow2(n) - 1) / 2 == Pow2(n - 1) - 1;
    }
  }

  lemma {:induction false} ShlPow2(x: nat, n: nat, m: nat)
    requires n + m < 32 && x == Pow2(m)
    ensures x < WORD && Shl(x, n) == Pow2(n + m)
    decreases n
  {
    Pow2Values();
    Pow2Less(m, 32);
    if n > 0 {
      Pow2Less(m + 1, 32);
      ShlPow2(2 * x, n - 1, m + 1);
    }
  }

  lemma {:induction false} Pow2Less(a: nat, b: nat)
    requires a < b
    ensures Pow2(a) < Pow2(b)
    decreases b
  {
    if a < b - 1 { Pow2Less(a, b - 1); }
  }

  /** ((1 << n) - 1) << k */
  function Mask(n: nat, k: nat): (m: nat)
    requires n + k <= 16
  {
    ShlPow2(1, n, 0);
    assert Shl(1, n) >= 1;
    Shl(Shl(1, n) - 1, k)
  }

  lemma MaskBits(n: nat, k: nat)
    requires n + k <= 16
    ensures Mask(n, k) < WORD
    ensures forall i :: 0 <= i < 32 ==> BitsOf(Mask(n, k), 32)[i] == (32 - k - n <= i < 32 - k)
  {
    ShlPow2(1, n, 0);
    OnesBits(n, 32);
    ShlBits(Pow2(n) - 1, k);
  }

  /** (data & ~mask) | ((value << k) & mask) */
  function Patched(data: nat, n: nat, k: nat, value: nat): nat
    requires n + k <= 16 && value < WORD
  {
    Or(AndNot(data, Mask(n, k)), And(Shl(value, k), Mask(n, k)))
  }

  /** Patching replaces n bits that have k bits to their right, and nothing else. */
  lemma PatchedBits(data: nat, n: nat, k: nat, value: nat)
    requires n + k <= 16 && value < WORD && data < WORD
    ensures Patched(data, n, k, value) < WORD
    ensures BitsOf(Patched(data, n, k, value), 32) ==
            BitsOf(data, 32)[..32 - k - n] + BitsOf(value, n) + BitsOf(data, 32)[32 - k..]
  {
    var m := Mask(n, k);
    MaskBits(n, k);
    AndNotBits(data, m, 32);
    ShlBits(value, k);
    AndBits(Shl(value, k), m, 32);
    OrBits(AndNot(data, m), And(Shl(value, k), m), 32);
    LowBits(value, 32 - n, n);
    Pow2Values();
    OrWord(AndNot(data, m), And(Shl(value, k), m), 32);
    var d, v, r := BitsOf(data, 32), BitsOf(value, 32), BitsOf(Patched(data, n, k, value), 32);
    forall i | 0 <= i < 32
      ensures r[i] == if 32 - k - n <= i < 32 - k then v[i + k] else d[i]
    {
    }
    assert v[32 - n..] == BitsOf(value, n);
    assert r == d[..32 - k - n] + v[32 - n..] + d[32 - k..];
  }

  /** (byte)(x & 0xff) */
  function LowByte(x: nat): (b: byte)
  {
    LowByteBound(x);
    And(x, 255) as byte
  }

  lemma LowByteBound(x: nat)
    ensures And(x, 255) < 256
  {
    AndBound(x, 255, 8);
    Pow2Values();
  }

  lemma {:induction false} AndBound(x: nat, y: nat, n: nat)
    requires y < Pow2(n)
    ensures And(x, y) < Pow2(n)
  {
    if n > 0 { AndBound(x / 2, y / 2, n - 1); }
  }

  lemma LowByteBits(x: nat)
    ensures BitsOf(LowByte(x) as nat, 8) == BitsOf(x, 32)[24..]
  {
    LowByteBound(x);
    AndBits(x, 255, 8);
    Pow2Values();
    OnesBits(8, 8);
    LowBits(x, 24, 8);
    assert forall i :: 0 <= i < 8 ==> BitsOf(255, 8)[i];
  }

  // ---- single bytes of a buffer ----

  lemma {:induction false} ByteAt(s: seq<byte>, i: nat)
    requires i < |s|
    ensures BytesBits(s)[8 * i..8 * i + 8] == BitsOf(s[i] as nat, 8)
  {
    if i > 0 {
      ByteAt(s[1..], i - 1);
      assert BytesBits(s)[8 * i..8 * i + 8] == BytesBits(s[1..])[8 * (i - 1)..8 * (i - 1) + 8];
    }
  }

  /** Replacing a byte replaces its eight bits. */
  lemma BytesUpdate(s: seq<byte>, i: nat, x: byte)
    requires i < |s|
    ensures BytesBits(s[i := x]) == BytesBits(s)[..8 * i] + BitsOf(x as nat, 8) + BytesBits(s)[8 * i + 8..]
  {
    var l, r := s[..i], s[i + 1..];
    BytesAppend(l, [s[i]] + r);
    BytesAppend(l, [x] + r);
    assert s == l + ([s[i]] + r) && s[i := x] == l + ([x] + r);
    assert ([s[i]] + r)[1..] == r && ([x] + r)[1..] == r;
  }
}
