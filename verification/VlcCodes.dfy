/** The variable-length codes as the parser tests them, bit by bit from the left. */
module VlcCodes {

  datatype MbType = MbType(quant: bool, forward: bool, backward: bool, pattern: bool, intra: bool)

  datatype PictureType = PictureI | PictureP | PictureB

  /** A decoded code of len bits, or a bit pattern no code starts with. */
  datatype Code<T> = Code(len: nat, value: T) | Lost

  // ---- macroblock header ----

  /** Macroblock address increment; stuffing and escape are eleven bits that lead back to the start. */
  datatype Address = Again | Increment

  function AddressCode(w: seq<bool>): (r: Code<Address>)
    requires |w| >= 11
    ensures r.Code? ==> 0 < r.len <= 11
  {
    if w[0] then Code(1, Increment)
    else if w[1] then Code(3, Increment)
    else if w[2] then Code(4, Increment)
    else if w[3] then Code(5, Increment)
    else if w[4] then Code(if w[5] then 7 else 8, Increment)
    else if w[5] then Code(if w[6] then 8 else if w[7] || w[8] then 10 else 11, Increment)
    else if w[6] then Code(11, Increment)
    else if w[7] && w[8] == w[9] == w[10] then Code(11, Again)
    else Lost
  }

  function TypeCode(p: PictureType, w: seq<bool>): (r: Code<MbType>)
    requires |w| >= 6
    ensures r.Code? ==> 0 < r.len <= 6
  {
    match p
    case PictureI =>
      if w[0] then Code(1, MbType(false, false, false, false, true))
      else if w[1] then Code(2, MbType(true, false, false, false, true))
      else Lost
    case PictureP =>
      if w[0] then Code(1, MbType(false, true, false, true, false))
      else if w[1] then Code(2, MbType(false, false, false, true, false))
      else if w[2] then Code(3, MbType(false, true, false, false, false))
      else if w[3] then
        Code(5, if w[4] then MbType(false, false, false, false, true) else MbType(true, true, false, true, false))
      else if w[4] then Code(5, MbType(true, false, false, true, false))
      else if w[5] then Code(6, MbType(true, false, false, false, true))
      else Lost
    case PictureB =>
      if w[0] then Code(2, MbType(false, true, true, w[1], false))
      else if w[1] then Code(3, MbType(false, false, true, w[2], false))
      else if w[2] then Code(4, MbType(false, true, false, w[3], false))
      else if w[3] then
        Code(5, if w[4] then MbType(false, false, false, false, true) else MbType(true, true, true, true, false))
      else if w[4] then
        Code(6, if w[5] then MbType(true, true, false, true, false) else MbType(true, false, true, true, false))
      else if w[5] then Code(6, MbType(true, false, false, false, true))
      else Lost
  }

  /** A motion code; the value tells whether a residual follows. */
  function MotionCode(w: seq<bool>): (r: Code<bool>)
    requires |w| >= 11
    ensures r.Code? ==> 0 < r.len <= 11
  {
    if w[0] then Code(1, false)
    else if w[1] then Code(3, true)
    else if w[2] then Code(4, true)
    else if w[3] then Code(5, true)
    else if w[4] then Code(if w[5] then 7 else 8, true)
    else if !w[5] then (if w[6] && w[7] then Code(11, true) else Lost)
    else if !w[6] && !w[7] && !w[8] then Code(11, true)
    else if !w[6] then Code(10, true)
    else Code(8, true)
  }

  datatype Blocks = Blocks(luma: nat, chroma: nat)

  /** Coded block pattern, as the numbers of coded luminance and chrominance blocks. */
  function PatternCode(w: seq<bool>): (r: Code<Blocks>)
    requires |w| >= 9
    ensures r.Code? ==> 0 < r.len <= 9
  {
    if w[0] then
      if w[1] && w[2] then Code(3, Blocks(4, 0))
      else if w[1] || w[2] then Code(4, Blocks(1, 0))
      else Code(5, Blocks(2, 0))
    else if w[1] then
      Code(5, if w[2] then Blocks(3, 0) else if w[4] then Blocks(0, 1) else Blocks(4, 1))
    else if w[2] then
      if !w[3] then Code(7, Blocks(1, 1))
      else if w[4] then Code(6, Blocks(2, 0))
      else Code(6, if w[5] then Blocks(0, 2) else Blocks(4, 2))
    else if w[3] then
      Code(8, if w[4] && w[5] then Blocks(1, 2) else if w[4] || w[5] then Blocks(2, 1) else Blocks(2, 2))
    else if w[4] || w[5] then
      Code(8, if w[4] && w[5] then Blocks(2, 1) else Blocks(3, 1))
    else if w[6] then Code(9, Blocks(3, 2))
    else if w[7] then Code(9, Blocks(2, 2))
    else Lost
  }

  // ---- blocks ----

  function LumaDcSize(w: seq<bool>): (r: Code<nat>)
    requires |w| >= 7
    ensures r.Code? ==> 0 < r.len <= 7 && r.value <= 8
  {
    if w[0] && w[1] && w[2] then
      if w[3] && w[4] then
        if w[5] then (if w[6] then Lost else Code(7, 8)) else Code(6, 7)
      else if w[3] then Code(5, 6)
      else Code(4, 5)
    else if w[0] then
      Code(3, if w[1] then 4 else if w[2] then 3 else 0)
    else Code(2, if w[1] then 2 else 1)
  }

  function ChromaDcSize(w: seq<bool>): (r: Code<nat>)
    requires |w| >= 8
    ensures r.Code? ==> 0 < r.len <= 8 && r.value <= 8
  {
    if w[0] && w[1] && w[2] && w[3] then
      if w[4] && w[5] then
        if w[6] then (if w[7] then Lost else Code(8, 8)) else Code(7, 7)
      else if w[4] then Code(6, 6)
      else Code(5, 5)
    else if w[0] && w[1] then
      if w[2] then Code(4, 4) else Code(3, 3)
    else Code(2, if w[0] then 2 else if w[1] then 1 else 0)
  }

  /** One step of run-level parsing. */
  datatype Rlp =
    | Short                                   // more bits needed
    | Cut                                     // more bits needed, found out by a skip nobody checks
    | EndOfBlock                              // 2 bits
    | Coef(len: nat, run: nat, level: nat, tested: bool)  // sign last; tested: compared with its threshold
    | Escape                                  // 6 bits of code, 6 of run
    | SecondTable                             // 6 zero bits
    | Bad

  /** A result asks for no more bits than there are, and for at least two; a tested level is not 0. */
  predicate Fits(r: Rlp, u: seq<bool>)
  {
    match r
    case Short | Cut | Bad => true
    case EndOfBlock => 2 <= |u|
    case Coef(len, _, level, tested) => 2 <= len <= |u| && (tested ==> level > 0)
    case Escape => 12 <= |u|
    case SecondTable => 6 <= |u|
  }

  /** RLP_CHECK_STAGE1: takes no more bits than one code has. */
  function CheckStage1(u: seq<bool>, first: bool): (r: Rlp)
    ensures Fits(r, u)
  {
    if |u| < 2 then Short
    else if u[0] then
      if first then Coef(2, 0, 1, true)
      else if !u[1] then EndOfBlock
      else if |u| < 3 then Short
      else Coef(3, 0, 1, true)
    else if u[1] then
      if |u| < 4 then Short
      else if u[2] then Coef(4, 1, 1, true)
      else if |u| < 5 then Short
      else if u[3] then Coef(5, 2, 1, true)
      else Coef(5, 0, 2, true)
    else if |u| < 6 then Short
    else if u[2] then
      if u[3] then Coef(6, if u[4] then 3 else 4, 1, true)
      else if u[4] then Coef(6, 0, 3, true)
      else if |u| < 9 then Short
      else NineBits(u)
    else if u[3] then (if |u| < 7 then Short else SevenBits(u))
    else if u[4] then (if |u| < 8 then Short else EightBits(u))
    else if u[5] then (if |u| < 12 then Short else Escape)
    else SecondTable
  }

  /** 00100xxxs */
  function NineBits(u: seq<bool>): Rlp
    requires |u| >= 9
  {
    if u[5] then
      if u[6] then (if u[7] then Coef(9, 10, 1, true) else Coef(9, 0, 5, true))
      else if u[7] then Coef(9, 1, 3, true) else Coef(9, 3, 2, true)
    else
      if u[6] then (if u[7] then Coef(9, 11, 1, true) else Coef(9, 12, 1, true))
      else if u[7] then Coef(9, 0, 6, true) else Coef(9, 13, 1, true)
  }

  /** 0001xxs */
  function SevenBits(u: seq<bool>): Rlp
    requires |u| >= 7
  {
    if u[4] then (if u[5] then Coef(7, 5, 1, true) else Coef(7, 1, 2, true))
    else if u[5] then Coef(7, 6, 1, true) else Coef(7, 7, 1, true)
  }

  /** 00001xxs */
  function EightBits(u: seq<bool>): Rlp
    requires |u| >= 8
  {
    if u[5] then (if u[6] then Coef(8, 8, 1, true) else Coef(8, 0, 4, true))
    else if u[6] then Coef(8, 9, 1, true) else Coef(8, 2, 2, true)
  }

  /** The number (value >> 1) & 0x7 or 0xf that ends just before the sign bit. */
  function Three(b2: bool, b1: bool, b0: bool): (v: nat)
    ensures v < 8
  {
    (if b2 then 4 else 0) + (if b1 then 2 else 0) + (if b0 then 1 else 0)
  }

  function Four(b3: bool, b2: bool, b1: bool, b0: bool): (v: nat)
    ensures v < 16
  {
    (if b3 then 8 else 0) + Three(b2, b1, b0)
  }

  /** RLP_CHECK_STAGE2: the codes that begin with six zeros, after those zeros. */
  function CheckStage2(u: seq<bool>): (r: Rlp)
    ensures Fits(r, u)
  {
    if |u| < 5 then Short
    else if u[0] then Table11(Three(u[1], u[2], u[3]))
    else if u[1] then (if |u| < 7 then Short else Table13(Four(u[2], u[3], u[4], u[5])))
    else if u[2] then (if |u| < 8 then Short else Table14(Four(u[3], u[4], u[5], u[6])))
    else if u[3] then (if |u| < 9 then Short else Coef(9, 0, 31 - Four(u[4], u[5], u[6], u[7]), false))
    else if u[4] then
      if |u| < 10 then Short
      else Table16(u[5], Three(u[6], u[7], u[8]))
    else if |u| < 11 then Short
    else if !u[5] then Bad
    else Table17(Four(u[6], u[7], u[8], u[9]))
  }

  function Table11(v: nat): (r: Rlp)
    requires v < 16
    ensures r.Coef? && r.len == 5 && r.level > 0 && (r.tested <==> r.level <= 7)
  {
    if v == 0 then Coef(5, 16, 1, true)
    else if v == 5 then Coef(5, 15, 1, true)
    else if v == 6 then Coef(5, 14, 1, true)
    else if v == 1 then Coef(5, 5, 2, true)
    else if v == 7 then Coef(5, 4, 2, true)
    else if v == 3 then Coef(5, 2, 3, true)
    else if v == 4 then Coef(5, 1, 4, true)
    else Coef(5, 0, 7, true)
  }

  function Table13(v: nat): (r: Rlp)
    requires v < 16
    ensures r.Coef? && r.len == 7 && r.level > 0 && (r.tested <==> r.level <= 7)
  {
    if v == 6 then Coef(7, 21, 1, true)
    else if v == 7 then Coef(7, 20, 1, true)
    else if v == 9 then Coef(7, 19, 1, true)
    else if v == 10 then Coef(7, 18, 1, true)
    else if v == 15 then Coef(7, 17, 1, true)
    else if v == 1 then Coef(7, 8, 2, true)
    else if v == 5 then Coef(7, 7, 2, true)
    else if v == 14 then Coef(7, 6, 2, true)
    else if v == 2 then Coef(7, 4, 3, true)
    else if v == 12 then Coef(7, 3, 3, true)
    else if v == 4 then Coef(7, 2, 4, true)
    else if v == 11 then Coef(7, 1, 5, true)
    else Coef(7, 0, if v == 13 then 8 else if v == 8 then 9 else if v == 3 then 10 else 11, false)
  }

  function Table14(v: nat): (r: Rlp)
    requires v < 16
    ensures r.Coef? && r.len == 8 && r.level > 0 && (r.tested <==> r.level <= 7)
  {
    if v >= 11 then Coef(8, 37 - v, 1, true)
    else if v == 0 then Coef(8, 10, 2, true)
    else if v == 1 then Coef(8, 9, 2, true)
    else if v == 2 then Coef(8, 5, 3, true)
    else if v == 3 then Coef(8, 3, 4, true)
    else if v == 4 then Coef(8, 2, 5, true)
    else if v == 5 then Coef(8, 1, 7, true)
    else if v == 6 then Coef(8, 1, 6, true)
    else Coef(8, 0, 22 - v, false)
  }

  /** A run of one only when the first bit and one of the others are set; never looked at further. */
  function Table16(b: bool, v: nat): (r: Rlp)
    requires v < 8
    ensures r.Coef? && r.len == 10 && r.level > 7 && !r.tested
  {
    if b && v != 0 then Coef(10, 1, 15 - v, false)
    else Coef(10, 0, if b then 32 else 40 - v, false)
  }

  function Table17(v: nat): (r: Rlp)
    requires v < 16
    ensures r.Coef? && r.len == 11 && r.level > 0 && (r.tested <==> r.level <= 7)
  {
    if v >= 11 then Coef(11, 42 - v, 1, true)
    else if v >= 5 then Coef(11, 21 - v, 2, true)
    else if v == 4 then Coef(11, 6, 3, true)
    else Coef(11, 1, 18 - v, false)
  }

  /** RLP_OK_STAGE1: lengths only, six bits looked at together. */
  function OkStage1(u: seq<bool>, first: bool): (r: Rlp)
    ensures Fits(r, u)
  {
    if |u| < 6 then Short
    else if u[0] then
      if first then Coef(2, 0, 0, false)
      else if u[1] then Coef(3, 0, 0, false)
      else EndOfBlock
    else if u[1] then (if u[2] then Coef(4, 0, 0, false) else Coef(5, 0, 0, false))
    else if u[2] then
      if u[3] || u[4] then Coef(6, 0, 0, false)
      else if |u| < 9 then Short
      else Coef(9, 0, 0, false)
    else if u[3] then (if |u| < 7 then Cut else Coef(7, 0, 0, false))
    else if u[4] then (if |u| < 8 then Cut else Coef(8, 0, 0, false))
    else if u[5] then (if |u| < 12 then Short else Escape)
    else SecondTable
  }

  /** RLP_OK_STAGE2 */
  function OkStage2(u: seq<bool>): (r: Rlp)
    ensures Fits(r, u)
  {
    if |u| < 11 then Short
    else if u[0] then Coef(5, 0, 0, false)
    else if u[1] then Coef(7, 0, 0, false)
    else if u[2] then Coef(8, 0, 0, false)
    else if u[3] then Coef(9, 0, 0, false)
    else if u[4] then Coef(10, 0, 0, false)
    else if u[5] then Coef(11, 0, 0, false)
    else Bad
  }

  /** The level after an escape: 8 bits, or 16 when the low seven are zero. */
  function EscapeLen(w: seq<bool>): nat
    requires |w| >= 8
  {
    if w[1] || w[2] || w[3] || w[4] || w[5] || w[6] || w[7] then 8 else 16
  }
}
