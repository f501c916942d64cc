/** The ring of sector buffers between the fill interrupt and the reader. */
module Prefetch {
  import opened TimeStamps

  const MAX_NUM_DATA_BLKS: nat := 19

  datatype BlkState = Free | InUse | Valid

  /** A block header. */
  datatype Blk = Blk(state: BlkState, msf: nat, format: int, seekMode: int)

  datatype Drive = Drive(
    blks: seq<Blk>,            // the first cd_NumDataBlks headers
    read: nat, cur: nat, next: nat,
    start: nat, end: int,      // cd_PrefetchStartOffset, cd_PrefetchEndOffset
    curMsf: nat, format: int, seekMode: int,
    prefetching: bool, overrun: bool, dma: bool)

  function Num(d: Drive): nat { |d.blks| }

  function After(i: nat, n: nat): nat { if i == n - 1 then 0 else i + 1 }

  predicate InRing(d: Drive)
  {
    2 <= Num(d) <= MAX_NUM_DATA_BLKS && d.read < Num(d) && d.cur < Num(d)
  }

  // ---- what the driver does ----

  /** RD_PREPARE with InitDataSpace and InitPrefetchEngine; the seek mode tags are left as they were. */
  function Prepare(d: Drive, sector: nat, format: int, seekMode: int): Drive
    requires Num(d) >= 2
  {
    var n := Num(d);
    var blks := seq(n, i requires 0 <= i < n => Blk(if i < 2 then InUse else Free, 0, -1, d.blks[i].seekMode));
    Drive(blks, 0, 0, 1, sector, sector + n - 1, Offset2Msf(sector), format, seekMode, true, d.overrun, true)
  }

  function Tick(msf: nat): nat { Offset2Msf(Msf2Offset(msf) + 1) }

  function TickBack(msf: nat): nat { Offset2Msf(if Msf2Offset(msf) > 0 then Msf2Offset(msf) - 1 else 0) }

  /** ChannelZeroFIRQ while there is another block to fill. */
  function FillOn(d: Drive): Drive
    requires InRing(d) && d.next < Num(d)
  {
    var n := Num(d);
    var next := After(d.next, n);
    var d1 := d.(blks := d.blks[d.cur := Blk(Valid, d.curMsf, d.format, d.seekMode)], curMsf := Tick(d.curMsf), cur := d.next);
    if d1.blks[next].state.Free? then d1.(blks := d1.blks[next := d1.blks[next].(state := InUse)], next := next)
    else d1.(next := d.next, curMsf := Tick(d1.curMsf), prefetching := false, overrun := true)
  }

  /** ChannelZeroFIRQ for the last block, which keeps the seek mode it had; the wrap of the next index is
      tested against the largest ring there can be. */
  function FillLast(d: Drive): Drive
    requires InRing(d)
  {
    var cur := After(d.cur, Num(d));
    d.(blks := d.blks[d.cur := Blk(Valid, TickBack(d.curMsf), d.format, d.blks[d.cur].seekMode)],
       cur := cur, next := After(cur, MAX_NUM_DATA_BLKS), dma := false)
  }

  predicate CanFill(d: Drive) { InRing(d) && (d.dma && d.cur != d.next ==> d.next < Num(d)) }

  /** The interrupt comes only while DMA is on. */
  function Fill(d: Drive): Drive
    requires CanFill(d)
  {
    if !d.dma then d else if d.cur != d.next then FillOn(d) else FillLast(d)
  }

  /** A block is handed on by RD_LOOP, or passed over, which marks its time stamp. */
  function Digest(d: Drive, skipped: bool): Drive
    requires InRing(d)
  {
    var b := d.blks[d.read];
    d.(blks := d.blks[d.read := b.(state := Free, msf := if skipped then b.msf % 0x100_0000 + 0xFF00_0000 else b.msf)],
       read := After(d.read, Num(d)), start := d.start + 1, end := if d.prefetching then d.end + 1 else d.end)
  }

  datatype Found = NoData | WrongFormat | Resync | Here(at: nat)

  /** DataAvailNow for a sector, as far as the headers decide. */
  function Look(d: Drive, sector: nat, format: int, seekMode: int): (Drive, Found)
    requires InRing(d)
    decreases ValidCount(d.blks)
  {
    var b := d.blks[d.read];
    if !b.state.Valid? then (d, NoData)
    else if b.msf == Offset2Msf(sector) then
      (d, if b.seekMode != seekMode then Resync else if b.format != format then WrongFormat else Here(d.read))
    else
      CountDrops(d.blks, d.read, Digest(d, true).blks[d.read]);
      Look(Digest(d, true), sector, format, seekMode)
  }

  function ValidCount(bs: seq<Blk>): nat
  {
    if bs == [] then 0 else (if bs[|bs| - 1].state.Valid? then 1 else 0) + ValidCount(bs[..|bs| - 1])
  }

  lemma {:induction false} CountDrops(bs: seq<Blk>, i: nat, b: Blk)
    requires i < |bs| && bs[i].state.Valid? && !b.state.Valid?
    ensures ValidCount(bs[i := b]) == ValidCount(bs) - 1
    decreases |bs|
  {
    var bs1 := bs[i := b];
    if i < |bs| - 1 {
      assert bs1[..|bs| - 1] == bs[..|bs| - 1][i := b];
      CountDrops(bs[..|bs| - 1], i, b);
    } else {
      assert bs1[..|bs| - 1] == bs[..|bs| - 1];
    }
  }

  /** DataAvailRSN */
  predicate AvailableSoon(d: Drive, sector: int, format: int)
  {
    d.start <= sector <= d.end && d.format == format && d.prefetching
  }

  // ---- the ring ----

  /** The k-th place from the read index. */
  function Place(d: Drive, k: nat): (i: nat)
    requires InRing(d) && k <= Num(d)
    ensures i < Num(d)
  {
    if d.read + k < Num(d) then d.read + k else d.read + k - Num(d)
  }

  /** v blocks from the read index on hold consecutive sectors from start on. */
  predicate Segment(d: Drive, v: nat)
    requires InRing(d)
  {
    v <= Num(d) && forall k :: 0 <= k < v ==>
      var b := d.blks[Place(d, k)]; b.state.Valid? && b.msf == Offset2Msf(d.start + k) && b.format == d.format
  }

  predicate AllFree(d: Drive, lo: nat)
    requires InRing(d)
  {
    forall k :: lo <= k < Num(d) ==> d.blks[Place(d, k)].state.Free?
  }

  /** Two blocks in use behind the valid ones, the rest free. */
  predicate Filling(d: Drive, v: nat)
    requires InRing(d)
  {
    && d.prefetching && d.dma && v + 2 <= Num(d) && d.cur == Place(d, v) && d.next == Place(d, v + 1)
    && d.blks[d.cur].state.InUse? && d.blks[d.next].state.InUse? && AllFree(d, v + 2)
    && d.curMsf == Offset2Msf(d.start + v) && d.end == d.start + Num(d) - 1
  }

  /** The ring is full but for the block that is being filled, the last. */
  predicate Overrun(d: Drive, v: nat)
    requires InRing(d)
  {
    && !d.prefetching && d.dma && v + 1 <= Num(d) && d.cur == d.next == Place(d, v)
    && d.blks[d.cur].state.InUse? && AllFree(d, v + 1) && d.curMsf == Offset2Msf(d.start + v + 1)
  }

  /** The last block has been filled, and nothing fills any more. */
  predicate Stopped(d: Drive, v: nat)
    requires InRing(d)
  {
    !d.prefetching && !d.dma && AllFree(d, v)
  }

  /** What holds from RD_PREPARE on, with v valid blocks. */
  predicate Ringed(d: Drive, v: nat)
  {
    InRing(d) && Segment(d, v) && (Filling(d, v) || Overrun(d, v) || Stopped(d, v))
  }

  /** Room for the sectors of the disc and the ring after them. */
  predicate OnDisc(d: Drive, v: nat) { d.start + v + 2 < LIMIT }

  lemma Prepared(d: Drive, sector: nat, format: int, seekMode: int)
    requires 2 <= Num(d) <= MAX_NUM_DATA_BLKS
    ensures Ringed(Prepare(d, sector, format, seekMode), 0) && Prepare(d, sector, format, seekMode).prefetching
  {
  }

  lemma Ticked(offset: nat)
    requires offset + 1 < LIMIT
    ensures Tick(Offset2Msf(offset)) == Offset2Msf(offset + 1) && TickBack(Offset2Msf(offset + 1)) == Offset2Msf(offset)
  {
    hide Offset2Msf, Msf2Offset;
    RoundTrip(offset);
    RoundTrip(offset + 1);
  }

  lemma Places(d: Drive, d1: Drive)
    requires InRing(d) && InRing(d1) && Num(d1) == Num(d) && d1.read == d.read
    ensures forall k :: 0 <= k <= Num(d) ==> Place(d1, k) == Place(d, k)
    ensures forall j, k :: 0 <= j < k < Num(d) ==> Place(d, j) != Place(d, k)
  {
  }

  /** A fill makes the block after the valid ones valid, with the next sector in it. */
  lemma FilledOn(d: Drive, v: nat)
    requires Ringed(d, v) && Filling(d, v) && OnDisc(d, v)
    ensures Ringed(Fill(d), v + 1) && Fill(d).start == d.start && Num(Fill(d)) == Num(d)
    ensures if v + 2 < Num(d) then Filling(Fill(d), v + 1) else Overrun(Fill(d), v + 1)
    ensures Fill(d).format == d.format && Fill(d).end == d.end
  {
    FilledSegment(d, v);
    if v + 2 < Num(d) { FilledMore(d, v); } else { FilledAll(d, v); }
    hide Segment, Filling, Overrun;
  }

  lemma FilledSegment(d: Drive, v: nat)
    requires Ringed(d, v) && Filling(d, v)
    ensures CanFill(d) && InRing(Fill(d)) && Segment(Fill(d), v + 1)
  {
    hide Offset2Msf, Tick, TickBack;
    var d1 := Fill(d);
    Places(d, d1);
    forall k | 0 <= k < v + 1
      ensures var b := d1.blks[Place(d1, k)]; b.state.Valid? && b.msf == Offset2Msf(d1.start + k) && b.format == d1.format
    {
      if k < v { assert d1.blks[Place(d, k)] == d.blks[Place(d, k)]; }
    }
  }

  /** The block after the next is a free one. */
  lemma FilledMore(d: Drive, v: nat)
    requires InRing(d) && Filling(d, v) && OnDisc(d, v) && v + 2 < Num(d)
    ensures CanFill(d) && InRing(Fill(d)) && Filling(Fill(d), v + 1)
  {
    hide Offset2Msf, Tick, TickBack;
    Ticked(d.start + v);
    Places(d, Fill(d));
    assert After(d.next, Num(d)) == Place(d, v + 2) && d.blks[Place(d, v + 2)].state.Free?;
  }

  /** Or the first valid one: the ring is full. */
  lemma FilledAll(d: Drive, v: nat)
    requires InRing(d) && Filling(d, v) && OnDisc(d, v) && v + 2 == Num(d) && (v > 0 ==> d.blks[Place(d, 0)].state.Valid?)
    ensures CanFill(d) && InRing(Fill(d)) && Overrun(Fill(d), v + 1)
  {
    hide Offset2Msf, Tick, TickBack;
    Ticked(d.start + v);
    Ticked(d.start + v + 1);
    Places(d, Fill(d));
    assert Place(d, 0) == d.read && After(d.next, Num(d)) == Place(d, v + 2) == d.read;
  }

  lemma FilledLast(d: Drive, v: nat)
    requires Ringed(d, v) && Overrun(d, v) && OnDisc(d, v)
    ensures Ringed(Fill(d), v + 1) && Fill(d).start == d.start && Num(Fill(d)) == Num(d) && Stopped(Fill(d), v + 1)
    ensures Fill(d).format == d.format && Fill(d).end == d.end
  {
    hide Offset2Msf, Tick, TickBack;
    Ticked(d.start + v);
    Places(d, Fill(d));
  }

  /** Taking the first valid block moves the whole segment on. */
  lemma Digested(d: Drive, v: nat, skipped: bool)
    requires Ringed(d, v) && v > 0
    ensures var d1 := Digest(d, skipped);
            && Ringed(d1, v - 1) && d1.start == d.start + 1 && Num(d1) == Num(d) && d1.format == d.format
            && (Filling(d, v) ==> Filling(d1, v - 1)) && (Overrun(d, v) ==> Overrun(d1, v - 1))
            && (Stopped(d, v) ==> Stopped(d1, v - 1))
  {
    hide Offset2Msf, Msf2Offset;
    var d1 := Digest(d, skipped);
    assert forall k :: 0 <= k < Num(d) ==> Place(d1, k) == Place(d, k + 1);
    assert Place(d, Num(d)) == d.read && Place(d, 0) == d.read;
  }

  // ---- runs ----

  datatype Event = Filled | Handed(skipped: bool)

  /** A block is handed on only when there is a valid one. */
  predicate Possible(d: Drive, e: Event)
    requires InRing(d)
  {
    e.Handed? ==> d.blks[d.read].state.Valid?
  }

  function Step(d: Drive, e: Event): Drive
    requires CanFill(d)
  {
    match e
    case Filled => Fill(d)
    case Handed(skipped) => Digest(d, skipped)
  }

  /** The read index has a valid block exactly when there is one. */
  lemma HeadValid(d: Drive, v: nat)
    requires Ringed(d, v)
    ensures d.blks[d.read].state.Valid? <==> v > 0
  {
    assert Place(d, 0) == d.read && Place(d, Num(d)) == d.read;
    if v == 0 && Stopped(d, v) { assert d.blks[Place(d, 0)].state.Free?; }
  }

  // ---- DataAvailNow ----

  /** What the block at place i says about a request. */
  function Verdict(d: Drive, i: nat, format: int, seekMode: int): Found
    requires i < Num(d)
  {
    if d.blks[i].seekMode != seekMode then Resync else if d.format != format then WrongFormat else Here(i)
  }

  /** Looking for a sector passes over the valid blocks before it: the sector's own block is then the first and
      decides, or none is left when the sector is not in the ring. */
  lemma {:induction false} LookedFor(d: Drive, v: nat, sector: nat, format: int, seekMode: int)
    requires Ringed(d, v) && OnDisc(d, v) && sector < LIMIT
    ensures var r := Look(d, sector, format, seekMode);
            if d.start <= sector < d.start + v then
              && r.0.start == sector && Ringed(r.0, d.start + v - sector)
              && r.0.read == Place(d, sector - d.start) && r.1 == Verdict(d, r.0.read, format, seekMode)
            else r.1 == NoData && Ringed(r.0, 0) && r.0.start == d.start + v
    decreases v
  {
    hide Offset2Msf, Filling, Overrun, Stopped;
    HeadValid(d, v);
    if v > 0 {
      FirstBlock(d, v);
      Distinct(d.start, sector);
      if d.start != sector {
        Digested(d, v, true);
        LookedFor(Digest(d, true), v - 1, sector, format, seekMode);
        if d.start <= sector < d.start + v { LaterPlace(d, v, sector - d.start); }
      }
    }
  }

  /** Passing over the first block leaves the others where they are. */
  lemma LaterPlace(d: Drive, v: nat, k: nat)
    requires InRing(d) && 0 < k < Num(d)
    ensures var d1 := Digest(d, true);
            Place(d1, k - 1) == Place(d, k) && d1.blks[Place(d, k)] == d.blks[Place(d, k)] && d1.format == d.format
  {
  }

  lemma FirstBlock(d: Drive, v: nat)
    requires Ringed(d, v) && v > 0
    ensures d.blks[d.read].msf == Offset2Msf(d.start) && d.blks[d.read].format == d.format
  {
    assert Place(d, 0) == d.read;
  }

  // ---- DataAvailRSN ----

  /** The sector is in the ring or will be: while the ring fills it is within reach, when only the last block is
      to come it is that one at most, and when nothing more comes it is there. */
  predicate Coming(d: Drive, v: nat, sector: nat)
    requires InRing(d)
  {
    && (Filling(d, v) ==> sector < d.start + Num(d))
    && (Overrun(d, v) ==> sector <= d.start + v)
    && (Stopped(d, v) ==> sector < d.start + v)
  }

  lemma SoonIsComing(d: Drive, v: nat, sector: nat, format: int)
    requires Ringed(d, v) && AvailableSoon(d, sector, format)
    ensures Filling(d, v) && Coming(d, v, sector) && d.start <= sector
  {
  }

  /** The answer is yes exactly for the sectors the ring has room for behind its first, in the format and while it fills. */
  lemma SoonExactly(d: Drive, v: nat, sector: int, format: int)
    requires Ringed(d, v)
    ensures AvailableSoon(d, sector, format) <==>
            Filling(d, v) && 0 <= sector - d.start < Num(d) && format == d.format
  {
  }

  /** Fills still to come until the sector is valid. */
  function Needed(d: Drive, v: nat, sector: nat): nat { if sector < d.start + v then 0 else sector + 1 - d.start - v }

  lemma FillComing(d: Drive, v: nat, sector: nat) returns (w: nat)
    requires Ringed(d, v) && OnDisc(d, v) && Coming(d, v, sector)
    ensures CanFill(d) && Ringed(Fill(d), w) && Coming(Fill(d), w, sector) && Fill(d).start == d.start && Num(Fill(d)) == Num(d)
    ensures Needed(Fill(d), w, sector) == (if Needed(d, v, sector) > 0 then Needed(d, v, sector) - 1 else 0)
    ensures Fill(d).start + w <= d.start + v + 1
  {
    if Filling(d, v) {
      FilledOn(d, v);
      w := v + 1;
    } else if Overrun(d, v) {
      FilledLast(d, v);
      w := v + 1;
    } else {
      w := v;
    }
  }

  lemma DigestComing(d: Drive, v: nat, sector: nat, skipped: bool)
    requires Ringed(d, v) && v > 0 && Coming(d, v, sector)
    ensures Ringed(Digest(d, skipped), v - 1) && Coming(Digest(d, skipped), v - 1, sector)
    ensures Needed(Digest(d, skipped), v - 1, sector) == Needed(d, v, sector)
    ensures Digest(d, skipped).start == d.start + 1 && Num(Digest(d, skipped)) == Num(d)
  {
    Digested(d, v, skipped);
  }

  /** A run in which every event is possible and the sectors stay on the disc. */
  predicate Runs(d: Drive, es: seq<Event>)
    decreases |es|
  {
    es == [] || (CanFill(d) && Possible(d, es[0]) && Runs(Step(d, es[0]), es[1..]))
  }

  function RunOf(d: Drive, es: seq<Event>): Drive
    requires Runs(d, es)
    decreases |es|
  {
    if es == [] then d else RunOf(Step(d, es[0]), es[1..])
  }

  function Fills(es: seq<Event>): nat
  {
    if es == [] then 0 else (if es[0].Filled? then 1 else 0) + Fills(es[1..])
  }

  lemma {:induction false} RunComing(d: Drive, v: nat, es: seq<Event>, sector: nat) returns (w: nat)
    requires Ringed(d, v) && Coming(d, v, sector) && Runs(d, es) && d.start + v + |es| + 2 < LIMIT
    ensures Ringed(RunOf(d, es), w) && Coming(RunOf(d, es), w, sector) && Num(RunOf(d, es)) == Num(d)
    ensures Needed(RunOf(d, es), w, sector) == (if Needed(d, v, sector) > Fills(es) then Needed(d, v, sector) - Fills(es) else 0)
    decreases |es|
  {
    hide Ringed, Coming, Fill, Digest, Needed, CanFill;
    if es == [] {
      w := v;
      NeededZero(d, v, sector);
    } else {
      RingedIn(d, v);
      match es[0]
      case Filled =>
        var x := FillComing(d, v, sector);
        w := RunComing(Fill(d), x, es[1..], sector);
      case Handed(skipped) =>
        HeadValid(d, v);
        DigestComing(d, v, sector, skipped);
        w := RunComing(Digest(d, skipped), v - 1, es[1..], sector);
    }
  }

  /** From RD_PREPARE on, whatever is filled and read, the valid blocks are one segment of consecutive sectors. */
  lemma RingKept(d: Drive, sector: nat, format: int, seekMode: int, es: seq<Event>) returns (w: nat)
    requires 2 <= Num(d) <= MAX_NUM_DATA_BLKS && Runs(Prepare(d, sector, format, seekMode), es) && sector + |es| + 2 < LIMIT
    ensures Ringed(RunOf(Prepare(d, sector, format, seekMode), es), w)
  {
    Prepared(d, sector, format, seekMode);
    w := RunComing(Prepare(d, sector, format, seekMode), 0, es, sector);
  }

  lemma RingedIn(d: Drive, v: nat)
    requires Ringed(d, v)
    ensures InRing(d)
  {
  }

  lemma NeededZero(d: Drive, v: nat, sector: nat)
    ensures Needed(d, v, sector) >= 0
  {
  }

  /** DataAvailRSN keeps its word: whatever is read meanwhile, after as many further fills as the ring has blocks
      the sector is in the ring, or has already been handed on. */
  lemma SoonIsTrue(d: Drive, v: nat, sector: nat, format: int, es: seq<Event>) returns (w: nat)
    requires Ringed(d, v) && AvailableSoon(d, sector, format) && Runs(d, es) && Fills(es) >= Num(d)
    requires d.start + v + |es| + 2 < LIMIT
    ensures Ringed(RunOf(d, es), w) && sector < RunOf(d, es).start + w
  {
    SoonIsComing(d, v, sector, format);
    w := RunComing(d, v, es, sector);
  }

  // ---- what the blocks are tagged with ----

  /** Valid blocks carry the seek mode in force, all but the one filled when prefetching had stopped. */
  predicate Tagged(d: Drive, v: nat)
    requires InRing(d)
  {
    v <= Num(d) && forall k :: 0 <= k < (if d.dma then v else v - 1) ==> d.blks[Place(d, k)].seekMode == d.seekMode
  }

  lemma FillTagged(d: Drive, v: nat)
    requires Ringed(d, v) && Tagged(d, v) && OnDisc(d, v)
    ensures CanFill(d) && InRing(Fill(d)) && Fill(d).seekMode == d.seekMode
    ensures Tagged(Fill(d), if d.dma then v + 1 else v)
  {
    hide Offset2Msf, Tick, TickBack;
    var d1 := Fill(d);
    Places(d, d1);
    forall k | 0 <= k < (if d1.dma then v + 1 else if d.dma then v else v - 1)
      ensures d1.blks[Place(d1, k)].seekMode == d1.seekMode
    {
      if k < v { assert d1.blks[Place(d, k)].seekMode == d.blks[Place(d, k)].seekMode; }
    }
  }

  lemma DigestTagged(d: Drive, v: nat, skipped: bool)
    requires Ringed(d, v) && Tagged(d, v) && v > 0
    ensures InRing(Digest(d, skipped)) && Digest(d, skipped).seekMode == d.seekMode && Tagged(Digest(d, skipped), v - 1)
  {
    hide Offset2Msf;
    var d1 := Digest(d, skipped);
    forall k | 0 <= k < (if d.dma then v - 1 else v - 2)
      ensures d1.blks[Place(d1, k)].seekMode == d1.seekMode
    {
      assert Place(d1, k) == Place(d, k + 1) && d1.blks[Place(d, k + 1)] == d.blks[Place(d, k + 1)];
    }
  }

  lemma PreparedTagged(d: Drive, sector: nat, format: int, seekMode: int)
    requires 2 <= Num(d) <= MAX_NUM_DATA_BLKS
    ensures Tagged(Prepare(d, sector, format, seekMode), 0)
  {
  }

  /** What a run keeps of what prefetching was started with. */
  predicate Asked(d: Drive, v: nat, format: int, seekMode: int)
  {
    Ringed(d, v) && Tagged(d, v) && d.format == format && d.seekMode == seekMode
  }

  lemma FillAsked(d: Drive, v: nat, format: int, seekMode: int) returns (w: nat)
    requires Asked(d, v, format, seekMode) && OnDisc(d, v)
    ensures CanFill(d) && Asked(Fill(d), w, format, seekMode) && Fill(d).start + w <= d.start + v + 1
  {
    FillTagged(d, v);
    if Filling(d, v) {
      FilledOn(d, v);
      w := v + 1;
    } else if Overrun(d, v) {
      FilledLast(d, v);
      w := v + 1;
    } else {
      w := v;
    }
  }

  lemma DigestAsked(d: Drive, v: nat, skipped: bool, format: int, seekMode: int)
    requires Asked(d, v, format, seekMode) && v > 0
    ensures Asked(Digest(d, skipped), v - 1, format, seekMode) && Digest(d, skipped).start == d.start + 1
  {
    Digested(d, v, skipped);
    DigestTagged(d, v, skipped);
  }

  lemma {:induction false} RunAsked(d: Drive, v: nat, es: seq<Event>, format: int, seekMode: int) returns (w: nat)
    requires Asked(d, v, format, seekMode) && Runs(d, es) && d.start + v + |es| + 2 < LIMIT
    ensures Asked(RunOf(d, es), w, format, seekMode) && RunOf(d, es).start + w <= d.start + v + |es|
    decreases |es|
  {
    hide Ringed, Tagged, Fill, Digest, CanFill;
    if es == [] {
      w := v;
    } else {
      RingedIn(d, v);
      match es[0]
      case Filled =>
        var x := FillAsked(d, v, format, seekMode);
        w := RunAsked(Fill(d), x, es[1..], format, seekMode);
      case Handed(skipped) =>
        HeadValid(d, v);
        DigestAsked(d, v, skipped, format, seekMode);
        w := RunAsked(Digest(d, skipped), v - 1, es[1..], format, seekMode);
    }
  }

  /** Over any run from RD_PREPARE, looking in the format and mode prefetching was started with for any sector in the
      ring, but for one filled after the overrun, finds it. */
  lemma SectorFound(d: Drive, sector: nat, format: int, seekMode: int, es: seq<Event>, wanted: nat) returns (w: nat)
    requires 2 <= Num(d) <= MAX_NUM_DATA_BLKS && Runs(Prepare(d, sector, format, seekMode), es) && sector + |es| + 4 < LIMIT
    ensures var r := RunOf(Prepare(d, sector, format, seekMode), es);
            && Ringed(r, w)
            && (r.start <= wanted < r.start + (if r.dma then w else w - 1) ==>
                  Look(r, wanted, format, seekMode).1 == Here(Place(r, wanted - r.start)))
  {
    hide Look, Runs, RunOf;
    var p := Prepare(d, sector, format, seekMode);
    Prepared(d, sector, format, seekMode);
    PreparedTagged(d, sector, format, seekMode);
    w := RunAsked(p, 0, es, format, seekMode);
    var r := RunOf(p, es);
    if r.start <= wanted < r.start + w { LookedFor(r, w, wanted, format, seekMode); }
  }

  // ---- what the last block is ----

  /** gNumDataBlksInUse as the interrupt computes it is the number of valid blocks. */
  lemma InUseCount(d: Drive, v: nat)
    requires Ringed(d, v) && OnDisc(d, v) && d.dma && !(Filling(d, v) && v + 2 == Num(d))
    ensures var d1 := Fill(d); (if d1.read < d1.cur then d1.cur - d1.read else d1.cur + Num(d1) - d1.read) == v + 1
  {
    if Filling(d, v) { FilledOn(d, v); } else { FilledLast(d, v); }
  }

  /** The last block alone is not tagged with the seek mode in force: looking for its sector finds it exactly when
      it was tagged so on an earlier turn of the ring, and otherwise asks for a new seek. */
  lemma LastBlockFound(d: Drive, v: nat)
    requires Ringed(d, v) && Overrun(d, v) && OnDisc(d, v + 1)
    ensures CanFill(d)
    ensures var r := Look(Fill(d), d.start + v, d.format, d.seekMode).1;
            if d.blks[Place(d, v)].seekMode == d.seekMode then r == Here(Place(d, v)) else r == Resync
  {
    hide Offset2Msf, Msf2Offset, Tick, TickBack, Look, Segment;
    FilledLast(d, v);
    LookedFor(Fill(d), v + 1, d.start + v, d.format, d.seekMode);
    Places(d, Fill(d));
  }

  // A ring that nothing is read from fills up, and its last place is the last block.

  function FillTimes(d: Drive, n: nat): Drive
    decreases n
  {
    if n == 0 || !CanFill(d) then d else FillTimes(Fill(d), n - 1)
  }

  lemma {:induction false} FillsUp(d: Drive, v: nat, n: nat)
    requires Ringed(d, v) && Filling(d, v) && n > 0 && v + n + 1 == Num(d) && d.start + Num(d) + 1 < LIMIT
    ensures var r := FillTimes(d, n);
            && Ringed(r, v + n) && Overrun(r, v + n) && r.start == d.start && r.read == d.read
            && r.format == d.format && r.seekMode == d.seekMode && r.blks[Place(r, v + n)].seekMode == d.blks[Place(d, v + n)].seekMode
    decreases n
  {
    hide Offset2Msf, Msf2Offset, Tick, TickBack, Ringed, Filling, Overrun;
    RingedIn(d, v);
    FilledOn(d, v);
    FilledOnTags(d, v);
    if n > 1 {
      FillsUp(Fill(d), v + 1, n - 1);
    } else {
      FillOnce(d);
    }
  }

  lemma FillOnce(d: Drive)
    requires CanFill(d) && Num(d) >= 2
    ensures FillTimes(d, 1) == Fill(d)
  {
    assert FillTimes(Fill(d), 0) == Fill(d);
  }

  lemma FilledOnTags(d: Drive, v: nat)
    requires Ringed(d, v) && Filling(d, v)
    ensures CanFill(d)
    ensures var d1 := Fill(d);
            && d1.read == d.read && d1.seekMode == d.seekMode && Place(d1, Num(d) - 1) == Place(d, Num(d) - 1)
            && d1.blks[Place(d, Num(d) - 1)].seekMode == d.blks[Place(d, Num(d) - 1)].seekMode
  {
    hide Offset2Msf, Tick;
    Places(d, d);
  }

  /** So after a change of seek mode the last sector of a full ring is lost to a new seek: it is found only if the
      last place of the ring was filled in that mode before. */
  lemma FullRingLastSector(d: Drive, sector: nat, format: int, seekMode: int)
    requires 2 <= Num(d) <= MAX_NUM_DATA_BLKS && sector + Num(d) + 2 < LIMIT
    ensures var r := FillTimes(Prepare(d, sector, format, seekMode), Num(d) - 1);
            && CanFill(r)
            && Look(Fill(r), sector + Num(d) - 1, format, seekMode).1 ==
               if d.blks[Num(d) - 1].seekMode == seekMode then Here(Num(d) - 1) else Resync
  {
    hide Offset2Msf, Msf2Offset, Look, FillTimes, Fill, Segment;
    var p := Prepare(d, sector, format, seekMode);
    Prepared(d, sector, format, seekMode);
    FillsUp(p, 0, Num(d) - 1);
    LastBlockFound(FillTimes(p, Num(d) - 1), Num(d) - 1);
  }

  /** After the last fill the next write index lies in the ring, unless the ring is a short one and the write
      index has come to its last place. */
  lemma NextInRing(d: Drive, v: nat)
    requires Ringed(d, v) && Overrun(d, v)
    ensures Fill(d).next < Num(d) <==> Num(d) == MAX_NUM_DATA_BLKS || d.cur != Num(d) - 2
  {
  }

  // ---- in place ----

  class Cdrom {
    const blkHdr: array<Blk>
    var readIndex: nat
    var curWriteIndex: nat
    var nextWriteIndex: nat
    var startOffset: nat
    var endOffset: int
    var curMsf: nat
    var sectorFormat: int
    var seekMode: int
    var prefetching: bool
    var overrun: bool
    var dma: bool

    ghost function Model(): Drive
      reads this, blkHdr
    {
      Drive(blkHdr[..], readIndex, curWriteIndex, nextWriteIndex, startOffset, endOffset, curMsf, sectorFormat, seekMode,
            prefetching, overrun, dma)
    }

    constructor (blocks: nat)
      requires 2 <= blocks <= MAX_NUM_DATA_BLKS
      ensures fresh(blkHdr) && blkHdr.Length == blocks && !prefetching && !dma
    {
      blkHdr := new Blk[blocks](_ => Blk(Free, 0, -1, 0));
      readIndex, curWriteIndex, nextWriteIndex, startOffset, endOffset, curMsf := 0, 0, 1, 0, 0, 0;
      sectorFormat, seekMode, prefetching, overrun, dma := 0, 0, false, false, false;
    }

    method InitDataSpace()
      modifies blkHdr, this`readIndex, this`curWriteIndex, this`nextWriteIndex
      ensures readIndex == curWriteIndex == 0 && nextWriteIndex == 1
      ensures forall i :: 0 <= i < blkHdr.Length ==> blkHdr[i] == Blk(Free, 0, -1, old(blkHdr[i].seekMode))
    {
      readIndex, curWriteIndex, nextWriteIndex := 0, 0, 1;
      for x := 0 to blkHdr.Length
        invariant readIndex == curWriteIndex == 0 && nextWriteIndex == 1
        invariant forall i :: 0 <= i < x ==> blkHdr[i] == Blk(Free, 0, -1, old(blkHdr[i].seekMode))
        invariant forall i :: x <= i < blkHdr.Length ==> blkHdr[i] == old(blkHdr[i])
      {
        blkHdr[x] := Blk(Free, 0, -1, blkHdr[x].seekMode);
      }
    }

    method InitPrefetchEngine()
      requires curWriteIndex < blkHdr.Length && nextWriteIndex < blkHdr.Length
      modifies blkHdr, this`dma
      ensures dma && blkHdr[..] == old(blkHdr[..])[curWriteIndex := old(blkHdr[curWriteIndex]).(state := InUse)]
                                                 [nextWriteIndex := old(blkHdr[nextWriteIndex]).(state := InUse)]
    {
      blkHdr[curWriteIndex] := blkHdr[curWriteIndex].(state := InUse);
      blkHdr[nextWriteIndex] := blkHdr[nextWriteIndex].(state := InUse);
      dma := true;
    }

    /** RD_PREPARE */
    method StartPrefetching(sector: nat, format: int, mode: int)
      requires blkHdr.Length >= 2
      modifies this, blkHdr
      ensures Model() == Prepare(old(Model()), sector, format, mode)
    {
      hide Offset2Msf;
      sectorFormat, seekMode := format, mode;
      InitDataSpace();
      prefetching := true;
      startOffset := sector;
      endOffset := sector + blkHdr.Length - 1;
      curMsf := Offset2Msf(sector);
      InitPrefetchEngine();
      assert blkHdr[..] == Prepare(old(Model()), sector, format, mode).blks;
    }

    /** The end-of-length interrupt. */
    method ChannelZeroFIRQ() returns (inUse: int)
      requires CanFill(Model()) && dma
      modifies this, blkHdr
      ensures Model() == Fill(old(Model()))
      ensures old(curWriteIndex == nextWriteIndex) || prefetching ==>
        inUse == if readIndex < curWriteIndex then curWriteIndex - readIndex else curWriteIndex + blkHdr.Length - readIndex
    {
      hide Tick, TickBack;
      var curBlk, nextBlk := curWriteIndex, nextWriteIndex;
      if curBlk != nextBlk {
        blkHdr[curBlk] := Blk(Valid, curMsf, sectorFormat, seekMode);
        curMsf := Tick(curMsf);
        curBlk := nextBlk;
        curWriteIndex := curBlk;
        nextBlk := if nextBlk == blkHdr.Length - 1 then 0 else nextBlk + 1;
        nextWriteIndex := nextBlk;
        if blkHdr[nextBlk].state.Free? {
          blkHdr[nextBlk] := blkHdr[nextBlk].(state := InUse);
        } else {
          nextWriteIndex := curBlk;
          curMsf := Tick(curMsf);
          overrun := true;
          prefetching := false;
          return 0;
        }
      } else {
        dma := false;
        blkHdr[curBlk] := Blk(Valid, TickBack(curMsf), sectorFormat, blkHdr[curBlk].seekMode);
        curWriteIndex := if curBlk == blkHdr.Length - 1 then 0 else curBlk + 1;
        nextWriteIndex := if curWriteIndex == MAX_NUM_DATA_BLKS - 1 then 0 else curWriteIndex + 1;
      }
      inUse := if readIndex < curWriteIndex then curWriteIndex - readIndex else curWriteIndex + blkHdr.Length - readIndex;
    }

    /** What RD_LOOP does with the block it has copied out, and DataAvailNow with one it passes over. */
    method FreeBlock(skipped: bool)
      requires InRing(Model())
      modifies blkHdr, this`readIndex, this`startOffset, this`endOffset
      ensures Model() == Digest(old(Model()), skipped)
    {
      var b := blkHdr[readIndex];
      blkHdr[readIndex] := b.(state := Free, msf := if skipped then b.msf % 0x100_0000 + 0xFF00_0000 else b.msf);
      if prefetching {
        endOffset := endOffset + 1;
      }
      readIndex := if readIndex == blkHdr.Length - 1 then 0 else readIndex + 1;
      startOffset := startOffset + 1;
    }

    method DataAvailNow(sector: nat, format: int, mode: int) returns (found: Found)
      requires InRing(Model())
      modifies blkHdr, this`readIndex, this`startOffset, this`endOffset
      ensures (Model(), found) == Look(old(Model()), sector, format, mode)
    {
      hide Offset2Msf;
      var theMsf := Offset2Msf(sector);
      while blkHdr[readIndex].state.Valid?
        invariant InRing(Model()) && Look(Model(), sector, format, mode) == Look(old(Model()), sector, format, mode)
        decreases ValidCount(blkHdr[..])
      {
        ghost var d := Model();
        if blkHdr[readIndex].msf == theMsf {
          if blkHdr[readIndex].seekMode != mode { return Resync; }
          if blkHdr[readIndex].format != format { return WrongFormat; }
          return Here(readIndex);
        }
        CountDrops(d.blks, d.read, Digest(d, true).blks[d.read]);
        FreeBlock(true);
      }
      found := NoData;
    }
  }
}
