/** Sector addresses as BCD minutes, seconds and frames. */
module TimeStamps {

  const FRAMES: nat := 75
  const MINUTE: nat := 4500  // 75 * 60 frames

  /** 160 minutes: the tens of the minutes are stored in four bits. */
  const LIMIT: nat := 720000

  function Bcd2Bin(bcd: nat): nat { bcd / 16 * 10 + bcd % 16 }

  /** Tens and units of a byte; the tens are stored in four bits. */
  function Bcd(bin: nat): (r: nat)
    ensures r < 256
  {
    bin / 10 % 16 * 16 + bin % 10
  }

  /** BIN2BCD: by subtraction. */
  method Bin2Bcd(bin: nat) returns (r: nat)
    requires bin < 256
    ensures r == Bcd(bin)
  {
    var quo, rem := 0, bin;
    while rem >= 10
      invariant 10 * quo + rem == bin
      decreases rem
    {
      quo, rem := quo + 1, rem - 10;
    }
    r := quo % 16 * 16 + rem;
  }

  function Minutes(offset: nat): nat { offset / MINUTE }

  function Seconds(offset: nat): nat { offset % MINUTE / FRAMES }

  function Frames(offset: nat): nat { offset % MINUTE % FRAMES }

  function Pack(m: nat, s: nat, f: nat): nat { (m * 0x100 + s) * 0x100 + f }

  /** 0x00MMSSFF, each a byte in BCD. */
  function Offset2Msf(offset: nat): nat
  {
    Pack(Bcd(Minutes(offset) % 256), Bcd(Seconds(offset)), Bcd(Frames(offset)))
  }

  function Low(msf: nat): nat { msf % 0x100 }

  function Middle(msf: nat): nat { msf / 0x100 % 0x100 }

  function High(msf: nat): nat { msf / 0x100 / 0x100 % 0x100 }

  function Msf2Offset(msf: nat): nat
  {
    (Bcd2Bin(High(msf)) * 60 + Bcd2Bin(Middle(msf))) * FRAMES + Bcd2Bin(Low(msf))
  }

  /** Four bits hold tens up to 15. */
  lemma BcdBack(bin: nat)
    requires bin < 256
    ensures Bcd2Bin(Bcd(bin)) == if bin < 160 then bin else bin - 160
  {
    Digits(bin / 10 % 16, bin % 10);
  }

  lemma Digits(tens: nat, units: nat)
    requires units < 10
    ensures Bcd2Bin(tens * 16 + units) == tens * 10 + units
  {
  }

  lemma Unpacked(m: nat, s: nat, f: nat)
    requires m < 256 && s < 256 && f < 256
    ensures var w := Pack(m, s, f); High(w) == m && Middle(w) == s && Low(w) == f
  {
    LastByte(m * 0x100 + s, f);
    LastByte(m, s);
  }

  lemma LastByte(x: nat, b: nat)
    requires b < 256
    ensures (x * 0x100 + b) / 0x100 == x && (x * 0x100 + b) % 0x100 == b
  {
  }

  lemma Parts(offset: nat)
    ensures Seconds(offset) < 60 && Frames(offset) < 75 && (Minutes(offset) < 160 <==> offset < LIMIT)
    ensures (Minutes(offset) * 60 + Seconds(offset)) * FRAMES + Frames(offset) == offset
  {
  }

  /** The minutes that come back from a time stamp. */
  function Shown(offset: nat): (m: nat)
    ensures m < 160
  {
    var m := Minutes(offset) % 256;
    if m < 160 then m else m - 160
  }

  lemma Back(offset: nat)
    ensures Msf2Offset(Offset2Msf(offset)) == (Shown(offset) * 60 + Seconds(offset)) * FRAMES + Frames(offset)
  {
    hide Bcd, Bcd2Bin, Minutes, Seconds, Frames, Pack, High, Middle, Low;
    Parts(offset);
    BcdBack(Minutes(offset) % 256);
    BcdBack(Seconds(offset));
    BcdBack(Frames(offset));
    Unpacked(Bcd(Minutes(offset) % 256), Bcd(Seconds(offset)), Bcd(Frames(offset)));
  }

  /** Exactly the addresses below 160 minutes survive the conversion to a time stamp. */
  lemma RoundTrip(offset: nat)
    ensures Msf2Offset(Offset2Msf(offset)) == offset <==> offset < LIMIT
  {
    hide Minutes, Seconds, Frames, Offset2Msf, Msf2Offset;
    Parts(offset);
    Back(offset);
  }

  /** Six decimal digits: minutes, seconds and frames, two each. */
  lemma StampDigits(m: nat, s: nat, f: nat)
    requires m < 100 && s < 60 && f < 75
    ensures Offset2Msf((m * 60 + s) * 75 + f) ==
            ((((m / 10 * 16 + m % 10) * 16 + s / 10) * 16 + s % 10) * 16 + f / 10) * 16 + f % 10
  {
    Assembled(m, s, f);
    hide Minutes, Seconds, Frames;
    assert m % 256 == m && m / 10 % 16 == m / 10 && s / 10 % 16 == s / 10 && f / 10 % 16 == f / 10;
  }

  /** Time stamps tell addresses below 160 minutes apart. */
  lemma Distinct(a: nat, b: nat)
    requires a < LIMIT && b < LIMIT
    ensures Offset2Msf(a) == Offset2Msf(b) <==> a == b
  {
    hide Offset2Msf, Msf2Offset;
    RoundTrip(a);
    RoundTrip(b);
  }

  /** No more than that can be told apart: every later address has the time stamp of an earlier one. */
  lemma LooksEarlier(offset: nat)
    requires offset >= LIMIT
    ensures var b := Msf2Offset(Offset2Msf(offset)); b < LIMIT && Offset2Msf(b) == Offset2Msf(offset)
  {
    hide Minutes, Seconds, Frames, Offset2Msf, Msf2Offset;
    Parts(offset);
    Back(offset);
    SameStamp(offset, Shown(offset));
  }

  lemma SameStamp(offset: nat, m: nat)
    requires m == Shown(offset)
    ensures var b := (m * 60 + Seconds(offset)) * FRAMES + Frames(offset); Offset2Msf(b) == Offset2Msf(offset)
  {
    hide Minutes, Seconds, Frames, Pack, Bcd, Bcd2Bin;
    Parts(offset);
    Assembled(m, Seconds(offset), Frames(offset));
    SameBcd(Minutes(offset) % 256);
    assert m % 256 == m;
  }

  lemma Assembled(m: nat, s: nat, f: nat)
    requires s < 60 && f < 75
    ensures var b := (m * 60 + s) * FRAMES + f; Minutes(b) == m && Seconds(b) == s && Frames(b) == f
  {
    var b, rest := (m * 60 + s) * FRAMES + f, s * FRAMES + f;
    assert b == m * MINUTE + rest && rest < MINUTE;
    assert b / MINUTE == m && b % MINUTE == rest;
  }

  lemma SameBcd(m: nat)
    requires m < 256
    ensures Bcd(if m < 160 then m else m - 160) == Bcd(m)
  {
  }
}
