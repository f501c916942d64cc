# Device drivers of the console's system software, modelled and proved

Five device drivers, each modelled in the form it has in the source: values and functions where it computes, classes with
fields and arrays where it updates in place. Every method of a class is proved against a function on values, and the
results below are proved of those functions, for all inputs and for all runs.

- **MPEG-1 bitstream rewriter** (`Bits`, `StartCode`, `BitReader`, `VlcCodes`, `VlcTable`, `Parser`, `Runs`, `Rewriting`,
  `Reparsing`, `Resuming`, `Soundness`, `Blocks`, `HeaderTables`, `BlockSyntax`, `SliceSyntax`, `SplitLevels`, `VcdOptimizer`). A 32-bit register is fed from byte buffers; a parser of 21
  states walks slices, macroblocks, blocks and codes and turns small negative coefficients positive without changing the
  length of anything. `Parser.Next` is the transition function on the unread bits, `VcdOptimizer` the same in place.
  `HeaderTables`, `VlcTable`, `BlockSyntax` and `SliceSyntax` have the tables and the syntax of ISO/IEC 11172-2 from the
  encoder's side; `SliceSyntax.SliceOptimized` is what the whole is for.
- **Microslot microcommand engine** (`Microslot`, `MicroslotSafety`, `MicroslotRuns`, `MicroslotWork`, `MicroslotOrder`,
  `MicroslotDriver`). Requests become
  batches of microcommands in a ring of 48, executed against whatever the hardware shows, with time-outs, pings, aborts,
  and ducking for DIPIR.
- **Display list compiler** (`DisplayLists`, `ProgressiveLists`, `VdlCompiler`, `Stomping`, `ListLifetime`). Transitions
  become linked display list entries, once a field; lists are patched in place when a bitmap moves, and retired by
  vertical blanks.
- **CD prefetch engine** (`TimeStamps`, `Prefetch`). A ring of sector buffers between the fill interrupt and the reader.
- **Ordered wake-ups and the receive ring** (`BeamQueue`, `TimerQueue`, `SerialInput`, `SerialDevice`, `Modulo`). Signals by
  beam line, delays and metronomes, and the serial port's overflow buffer.

`Options` holds the option type. Hardware is an input: a status word or a beam position sampled at each look, the bytes
that have arrived, the time at which a handler runs. Where the headers leave it open, `bsData` is an unsigned 32-bit word
whose shift by 32 gives 0, `LI_LINE_MASK` is 0x3FFF and `FIELDINCREMENT` 0x4000, and `InternalPixelAddr` is
base + (y * width + x) * size.

`dafny verify dfyconfig.toml` checks everything.

## Where the code falls short

Each of these is stated with the exact condition under which the code does what it is for.

| what is not so | input | exact condition |
|---|---|---|
| a change of a non-intra coefficient is not always invisible (`Soundness.NonIntraCanChange`) | level -1, entry 7, scale 1 | `Soundness.NonIntraSame` |
| not every level that qualifies is flipped: an escape at a place where none does ends checking for the block | such an escape before it | `Blocks.BlockFlips` |
| a level that the end of a buffer cuts is rounded, and that can show (`SplitLevels.CutCanShow`) | level -1, entry 7, scale 1, cut after its sign | `SplitLevels.CutRounds` |
| bits that are no macroblock address increment are taken for one | 00000010 and three bits more | `HeaderTables.IncrementEncodes` |
| a request given back for DIPIR can be served before one of a higher priority | priority 1 current, 2 pending | `MicroslotOrder.DuckOrdered` |
| `VCDChangeBits` can write in front of the buffer | patched bits that an earlier buffer left over | `BitReaders.BitReader.InBuffer` |
| the microcommand ring can fill: nothing limits what precedes the zero entry of a sequence (`MicroslotRuns.UnendedSequenceOverflows`) | eleven entries of two microcommands, a waiting first one and a ping | `MicroslotRuns.RoomExactly` |
| `stomplists` can pass over a view that is shown (`Stomping.PatchCanMiss`) | StartY -10, ten lines, then a view of eight | `Stomping.PatchExact` |
| a BCD time stamp does not tell all addresses apart (`TimeStamps.LooksEarlier`) | 160 minutes | `TimeStamps.RoundTrip` |
| the last block of the prefetch ring can be refused, for it keeps its old seek mode tag | a ring filled in another mode before | `Prefetch.LastBlockFound` |
| the next write index can lie outside a short ring after the last fill | ring of fewer than 19 blocks | `Prefetch.NextInRing` |
| a metronome of interval 0 keeps `ProcessUSecWaiters` busy for ever | one that is due and reaches its client | `TimerQueue.EndsExactly` |
| the receive ring can lose its place when its unsigned start count wraps (`SerialDevice.PlacesCollide`) | three bytes, count 2^32 - 1 | `SerialDevice.TurnExact` |
| a lace view would not fill a display with one field (no view type of such a display is one) | a lace band of two lines | `ProgressiveLists.ProgressiveShown` |

## Model

| member | source | states |
|---|---|---|
| BitReaders.BitReader.NextBits | ws_root/src/devices/mpegvideo/mpQuantOpt.c:1482-1507 | peek: the value of the next n unread bits (register, then buffer) and nothing consumed; short of n bits it reports how many there are, sets the done flag and loses none of them |
| BitReaders.BitReader.GetBits | ws_root/src/devices/mpegvideo/mpQuantOpt.c:1427-1454 | take: the value of the next n bits, which move from unread to used; a failing call leaves the stream as it was |
| BitReaders.BitReader.SkipBits | ws_root/src/devices/mpegvideo/mpQuantOpt.c:1456-1480 | drop: as get, without the value |
| BitReaders.BitReader.Attach | ws_root/src/devices/mpegvideo/mpQuantOpt.c:133-135 | a new buffer goes behind the bits the register still holds, so the stream is the old register and then the new bytes |
| BitReaders.BitReader.Refill | ws_root/src/devices/mpegvideo/mpQuantOpt.c:1433-1450 | loading bytes into the register neither adds, drops nor reorders unread bits, and it fails only when buffer and register together are too short |
| BitReaders.BitReader.NextStartCode | ws_root/src/devices/mpegvideo/mpQuantOpt.c:1509-1552 | consumes exactly up to and including the first byte-aligned 00 00 01 xx and returns xx, or consumes what cannot begin one and reports the bits left |
| StartCodes.ScanExact | ws_root/src/devices/mpegvideo/mpQuantOpt.c:1534-1546 | although 1 to 4 bytes are skipped at a time, the code found is the first aligned one, and no skipped byte begins a start code whatever follows in later buffers |
| StartCodes.ScanResumes | ws_root/src/devices/mpegvideo/mpQuantOpt.c:1534-1551 | searching one buffer and then the next finds what one search over both finds |
| BitReaders.BitReader.ChangeBits | ws_root/src/devices/mpegvideo/mpQuantOpt.c:1554-1586 | the last n consumed bits, across one or two bytes, become the given value; the unread bits and all other consumed ones stay |
| BitReaders.BitReader.InBuffer | ws_root/src/devices/mpegvideo/mpQuantOpt.c:1560-1564 | the byte written to lies in the buffer exactly when the patched bits do not reach into what an earlier buffer left over; with an empty register at the attach it always does |
| VlcTable.CodeParses | ws_root/src/devices/mpegvideo/mpQuantOpt.c:724-1156 | decoding undoes encoding: every code of Tables 2-B.5c to 2-B.5g is parsed to its run and level |
| VlcTable.ParseEncodes | ws_root/src/devices/mpegvideo/mpQuantOpt.c:724-1156 | encoding undoes decoding: what is parsed as a run and level is exactly their code, and it is compared with a threshold just when the level is at most 7 |
| VlcTable.OnlyZerosAreBad | ws_root/src/devices/mpegvideo/mpQuantOpt.c:627-1156 | the decision tree is complete: of 17 bits only twelve leading zeros are no code |
| VlcTable.FastItemIsItem | ws_root/src/devices/mpegvideo/mpQuantOpt.c:627-705 | whenever the fast path has its look-ahead it takes the same number of bits for the same kind of item as the checking path |
| HeaderTables.IncrementDecodes | ws_root/src/devices/mpegvideo/mpQuantOpt.c:197-212 | decoding undoes encoding: the code of each macroblock address increment from 1 to 33 (Table 2-B.1) is taken for one, with its length |
| HeaderTables.IncrementEncodes | ws_root/src/devices/mpegvideo/mpQuantOpt.c:197-212 | what is taken for an increment is the code of one exactly unless it begins 00000010, which no code does |
| HeaderTables.AgainEncodes | ws_root/src/devices/mpegvideo/mpQuantOpt.c:190-195 | macroblock_stuffing and macroblock_escape are exactly what leads back to the start |
| HeaderTables.TypeDecodes | ws_root/src/devices/mpegvideo/mpQuantOpt.c:215-307 | decoding undoes encoding: every macroblock type of Tables 2-B.2a to 2-B.2c, in its kind of picture |
| HeaderTables.TypeEncodes | ws_root/src/devices/mpegvideo/mpQuantOpt.c:215-307 | encoding undoes decoding: the bits taken for a macroblock type are its code in that kind of picture |
| HeaderTables.MotionDecodes | ws_root/src/devices/mpegvideo/mpQuantOpt.c:334-376 | decoding undoes encoding: motion codes -16 to 16 of Table 2-B.4, with a residual to follow exactly when the code is not 0 |
| HeaderTables.MotionEncodes | ws_root/src/devices/mpegvideo/mpQuantOpt.c:334-376 | encoding undoes decoding: the bits taken for a motion code are the code of some magnitude and sign |
| HeaderTables.PatternDecodes | ws_root/src/devices/mpegvideo/mpQuantOpt.c:392-486 | decoding undoes encoding: coded block patterns 1 to 63 of Table 2-B.3, with as many luminance and chrominance blocks as the pattern has bits set |
| HeaderTables.PatternEncodes | ws_root/src/devices/mpegvideo/mpQuantOpt.c:392-486 | encoding undoes decoding: the bits taken for a pattern are the code of one |
| HeaderTables.LumaSizeDecodes | ws_root/src/devices/mpegvideo/mpQuantOpt.c:522-567 | decoding undoes encoding: luminance DC sizes 0 to 8 of Table 2-B.5a |
| HeaderTables.LumaSizeEncodes | ws_root/src/devices/mpegvideo/mpQuantOpt.c:522-567 | encoding undoes decoding: the bits taken for a luminance DC size are its code |
| HeaderTables.ChromaSizeDecodes | ws_root/src/devices/mpegvideo/mpQuantOpt.c:568-615 | decoding undoes encoding: chrominance DC sizes 0 to 8 of Table 2-B.5b |
| HeaderTables.ChromaSizeEncodes | ws_root/src/devices/mpegvideo/mpQuantOpt.c:568-615 | encoding undoes decoding: the bits taken for a chrominance DC size are its code |
| BlockSyntax.LevelParses | ws_root/src/devices/mpegvideo/mpQuantOpt.c:1164-1186 | a level behind an escape, 8 bits from -127 to 127 and 16 beyond, is read with its length, sign and value |
| BlockSyntax.ItemsParse | ws_root/src/devices/mpegvideo/mpQuantOpt.c:724-1297 | decoding undoes encoding: the items an encoder writes, by code or escape, the first of a non-intra block in its shorter code, parse to their coefficients, each behind its run of zeros |
| BlockSyntax.SameBits | ws_root/src/devices/mpegvideo/mpQuantOpt.c:724-1297 | encoding undoes decoding: bits that parse to the same coefficients, coded alike, are the same bits |
| SliceSyntax.HeaderPasses | ws_root/src/devices/mpegvideo/mpQuantOpt.c:183-490 | a macroblock header as section 2.4.2.7 of ISO/IEC 11172-2 has it is taken bit for bit: stuffing and escapes, increment, type, scale, two forward and two backward vectors with residuals of their own size, pattern; then its scale is in force and its blocks are counted |
| SliceSyntax.MacroblockPasses | ws_root/src/devices/mpegvideo/mpQuantOpt.c:183-1415 | a macroblock is taken whole, each block with the DC table of its kind, and what is left in its place is the same macroblock with its negligible coefficients positive |
| SliceSyntax.SliceOptimized | ws_root/src/devices/mpegvideo/mpQuantOpt.c:120-1425 | for any slice an encoder may write (section 2.4.2), of I, P and B pictures, the output is the encoding of the slice with exactly its negligible coefficients turned positive, save behind an escape where none is, bit for bit in the same places, and then the output of the run over what follows |
| SplitLevels.CutRounds | ws_root/src/devices/mpegvideo/mpQuantOpt.c:1188-1405 | a level from -8 to -1 that the end of a buffer cuts after any number of bits becomes just what a table of its threshold, the cut and the level says |
| SplitLevels.CutKeeps | ws_root/src/devices/mpegvideo/mpQuantOpt.c:1188-1405 | all other negative levels are left as they are wherever they are cut |
| SplitLevels.CutCanShow | ws_root/src/devices/mpegvideo/mpQuantOpt.c:1318-1320 | rounding can show: an intra level of -1 becomes -2 and no longer reconstructs to 0 |
| Rewriting.Progress | ws_root/src/devices/mpegvideo/mpQuantOpt.c:138-1422 | every step that does not end the run consumes a bit or falls in a fixed rank, so the parser halts on every buffer from every saved state |
| VcdOptimizers.LeastEntry | ws_root/src/devices/mpegvideo/mpQuantOpt.c:84-95 | the least entry of a quantizer matrix, 255 at most |
| VcdOptimizers.LevelTable | ws_root/src/devices/mpegvideo/mpQuantOpt.c:1598-1606 | one threshold for each coefficient and the last index with one above 0 |
| VcdOptimizers.VCDCheckQuant | ws_root/src/devices/mpegvideo/mpQuantOpt.c:1588-1625 | flags, tables and last indices become those of the scale; tables that are not needed keep their old contents |
| VcdOptimizers.VcdOptimizer.constructor | ws_root/src/devices/mpegvideo/mpQuantOpt.c:64-108 | an optimizer that has read nothing; its matrices can be used exactly when no entry is 0 |
| VcdOptimizers.VcdOptimizer.SliceStartStep | ws_root/src/devices/mpegvideo/mpQuantOpt.c:141-148 | the SLICE_START case, run on register and buffer, is one step of the transition function |
| VcdOptimizers.VcdOptimizer.HeaderStep | ws_root/src/devices/mpegvideo/mpQuantOpt.c:149-496 | so are the slice and macroblock header cases; HeaderPasses says what those steps take |
| VcdOptimizers.VcdOptimizer.BlockStep | ws_root/src/devices/mpegvideo/mpQuantOpt.c:497-723 | so are the DC and the fast run-level cases |
| VcdOptimizers.VcdOptimizer.CheckStep | ws_root/src/devices/mpegvideo/mpQuantOpt.c:724-1407 | so are the checking run-level cases, with the bits they overwrite |
| VcdOptimizers.VcdOptimizer.Step | ws_root/src/devices/mpegvideo/mpQuantOpt.c:139-1415 | one trip through the switch does what the transition function says to state, unread and consumed bits |
| VcdOptimizers.VcdOptimizer.Run | ws_root/src/devices/mpegvideo/mpQuantOpt.c:138-1420 | the loop leaves in the buffer the output of the run over all unread bits, and the state and bits the run ends with |
| VcdOptimizers.VcdOptimizer.DoVCDOptimize | ws_root/src/devices/mpegvideo/mpQuantOpt.c:120-1425 | nothing changes when there is nothing to do; otherwise the buffer holds the output of one run over the left-over bits and the buffer, and a run that did not end early leaves all unread bits in the register |
| Resuming.StepOn | ws_root/src/devices/mpegvideo/mpQuantOpt.c:138-1420 | a step that has the bits it needs does not depend on what follows them |
| Resuming.StepResumes | ws_root/src/devices/mpegvideo/mpQuantOpt.c:138-1422 | a step that ran out of bits, taken again with more of them, goes as if they had been there before |
| Resuming.RunGoesOn | ws_root/src/devices/mpegvideo/mpQuantOpt.c:120-1425 | a run over one buffer and then one over its left-over bits and the next buffer end and write as one run over both |
| Resuming.CutsAgree | ws_root/src/devices/mpegvideo/mpQuantOpt.c:120-1425 | however a stream is cut into buffers, the parser ends in the same state with the same bits left |
| Reparsing.Reparse | ws_root/src/devices/mpegvideo/mpQuantOpt.c:138-1422 | parsing the output visits the same states at the same bit positions, in spite of look-ahead over bits patched later, and a second pass changes nothing |
| Runs.OnlyChanges | ws_root/src/devices/mpegvideo/mpQuantOpt.c:138-1422 | a bit of the output that differs lies in the bits some step of the run overwrote |
| Soundness.StepTuned | ws_root/src/devices/mpegvideo/mpQuantOpt.c:308-326 | flags, thresholds and last index always belong to the scale in force and to the kind of the macroblock |
| Soundness.ChangesHarmless | ws_root/src/devices/mpegvideo/mpQuantOpt.c:724-1297 | everything a run overwrites is the sign bit of a code or the level byte of an escape, and the level changed qualifies |
| Soundness.ThresholdExact | ws_root/src/devices/mpegvideo/mpQuantOpt.c:1602-1604 | the threshold admits a level exactly when level times matrix entry times scale is below 8 |
| Soundness.OkMeansNone | ws_root/src/devices/mpegvideo/mpQuantOpt.c:1592-1594 | an ok flag is raised only where no level of any coefficient can qualify |
| Soundness.BeyondMaxIndex | ws_root/src/devices/mpegvideo/mpQuantOpt.c:915-918 | checking stops only where no later level can qualify |
| Soundness.IntraSame | ws_root/src/devices/mpegvideo/mpQuantOpt.c:1602-1604 | an intra level and its negation are reconstructed alike (section 2.4.4.1 of ISO/IEC 11172-2) exactly when the level qualifies, and then as 0 |
| Soundness.IntraUnseen | ws_root/src/devices/mpegvideo/mpQuantOpt.c:724-1297 | so an intra coefficient a run has changed is 0 before and after |
| Soundness.NonIntraSame | ws_root/src/devices/mpegvideo/mpQuantOpt.c:1613-1615 | for non-intra coefficients (section 2.4.4.2) the exact condition is (2 level + 1) times entry times scale below 16, which the code does not test |
| Soundness.NonIntraCanChange | ws_root/src/devices/mpegvideo/mpQuantOpt.c:1613-1615 | level -1 with entry 7 at scale 1 passes the test and changes from -1 to 1 |
| Blocks.FastIsSlow | ws_root/src/devices/mpegvideo/mpQuantOpt.c:627-1297 | from the same point of the same block, the fast and the checking states take exactly the same bits and end in the same state, block end or lost; the fast one leaves the bits alone |
| Blocks.OutputBlock | ws_root/src/devices/mpegvideo/mpQuantOpt.c:724-1297 | the block read from the output of a run is the block read from its input, coefficient by coefficient, with the flipped ones turned positive |
| Blocks.FlippedExactly | ws_root/src/devices/mpegvideo/mpQuantOpt.c:724-1297 | a coefficient flips exactly when it passes the test and no earlier escape met a threshold of 0 |
| Blocks.BlockBegins | ws_root/src/devices/mpegvideo/mpQuantOpt.c:497-626 | every block is entered on the checking path, or on the fast one with a scale that rules checks out |
| Blocks.BlockFlips | ws_root/src/devices/mpegvideo/mpQuantOpt.c:724-1297 | for any matrix and scale: a coefficient turns positive exactly when it is negative, its product with entry and scale is above -8, it is not written in 16 bits, and no escape before it stood where no level qualifies |
| Blocks.AllNegligibleFlip | ws_root/src/devices/mpegvideo/mpQuantOpt.c:724-1297 | with a matrix that does not fall along the scan, all such coefficients turn positive but those written in 16 bits |
| MicroslotDriver.Driver.AddMicroCommand | ws_root/src/devices/operator/microslot.c:282-300 | below 47 entries the microcommand is queued last; at 47 the ring reads as empty |
| MicroslotDriver.Driver.FetchMicroCommand | ws_root/src/devices/operator/microslot.c:317-332 | the first microcommand leaves the ring, its place staying readable; none is left when the ring is empty |
| MicroslotDriver.Driver.FlushMicroCommands | ws_root/src/devices/operator/microslot.c:338-359 | everything and the ping mark go, or just what is up to the end of the batch |
| MicroslotDriver.Driver.CompleteMicroslotIO | ws_root/src/devices/operator/microslot.c:365-373 | the current request, if any, is completed once and is current no longer |
| MicroslotDriver.Driver.CmdSeq | ws_root/src/devices/operator/microslot.c:379-439 | a sequence becomes its microcommands and a completion, or is refused; before an unknown entry it may overrun the ring, which is then flushed; OrderDoes says what the microcommands carry out |
| MicroslotDriver.Driver.CmdSetClock | ws_root/src/devices/operator/microslot.c:445-465 | a speed that exists is set and the request completed, another refused |
| MicroslotDriver.Driver.ExecuteMicroCommand | ws_root/src/devices/operator/microslot.c:479-743 | one microcommand against the status the hardware shows: dropped, waited for, timed out or carried out, as the value machine says |
| MicroslotDriver.Driver.DispatchMicroCommands | ws_root/src/devices/operator/microslot.c:752-879 | microcommands, and requests when none is left, until there is nothing to do, a timer to wait for or 128 have been executed |
| MicroslotDriver.Driver.AcceptNext | ws_root/src/devices/operator/microslot.c:808-876 | the next pending request becomes current, its slot to be selected first unless it is |
| MicroslotDriver.Driver.HandlePing | ws_root/src/devices/operator/microslot.c:886-922 | one ping batch behind what is queued, dispatched if nothing was |
| MicroslotDriver.Driver.AbortMicroslotIO | ws_root/src/devices/operator/microslot.c:928-954 | the request goes, with a reset of the hardware when it is the current one, and is completed as aborted |
| MicroslotDriver.Driver.MicroslotDuck | ws_root/src/devices/operator/microslot.c:961-989 | all microcommands go and the current request is the first pending one |
| MicroslotDriver.Driver.MicroslotRecover | ws_root/src/devices/operator/microslot.c:996-1005 | only the mark that held dispatching up is taken back |
| MicroslotDriver.Driver.DispatchMicroslotIO | ws_root/src/devices/operator/microslot.c:1031-1064 | a privileged request is queued by priority and dispatched unless the caller is the driver itself |
| MicroslotSafety.ExecSound | ws_root/src/devices/operator/microslot.c:479-743 | executing a microcommand, in every outcome, leaves the rest of the batch a batch of the current request that finds its slot selected and moves no byte outside a buffer |
| MicroslotSafety.AcceptSound | ws_root/src/devices/operator/microslot.c:808-876 | a request is taken up only when nothing is left to execute, and then none is current, so none is overwritten |
| MicroslotSafety.AdvanceRoomy | ws_root/src/devices/operator/microslot.c:765-802 | once a microcommand has been executed there is room in the ring for a ping |
| MicroslotSafety.StepSound | ws_root/src/devices/operator/microslot.c:752-1005 | every handler keeps the machine sound and the ring with room for a ping |
| MicroslotRuns.StepHeld | ws_root/src/devices/operator/microslot.c:338-1064 | no handler loses a request or completes one again, and none takes a completion back |
| MicroslotRuns.ExactlyOnce | ws_root/src/devices/operator/microslot.c:752-1064 | over any run a request submitted once is in exactly one place: pending, current, or completed once |
| MicroslotRuns.NothingFromNowhere | ws_root/src/devices/operator/microslot.c:365-373 | a request nobody submitted is never completed |
| MicroslotRuns.SlotIsolation | ws_root/src/devices/operator/microslot.c:598-743 | over any run, whatever is carried out for a request is carried out with its own slot selected |
| MicroslotWork.OnlyAsAsked | ws_root/src/devices/operator/microslot.c:379-439 | over any run, whatever is carried out for a request (read, write, verify, download, reset, identification, status) is asked for by an entry of that request, or by its stream, and a byte written is one it gave to be written |
| MicroslotWork.CompletedAsAsked | ws_root/src/devices/operator/microslot.c:365-743 | over any run, a request completed Ok has had everything its entries ask for carried out since it was taken up, byte by byte in order and nothing else; a bad card is reported for a verify that came upon another byte, everything before it as asked; a refused one, for the reason there is, had nothing carried out |
| MicroslotWork.OrderDoes | ws_root/src/devices/operator/microslot.c:379-439 | what a batch carries out is what the order asks for, stated from its entries |
| MicroslotWork.SpeedAsSet | ws_root/src/devices/operator/microslot.c:445-465 | over any run the speed in force is that of the last clock request completed Ok |
| MicroslotOrder.InsertPlace | ws_root/src/devices/operator/microslot.c:1054-1057 | a request goes behind every request of its own or a higher priority and before all others |
| MicroslotOrder.AcceptsHighest | ws_root/src/devices/operator/microslot.c:808-876 | the request taken up was first, and none left has a higher priority |
| MicroslotOrder.PendingOrdered | ws_root/src/devices/operator/microslot.c:808-1064 | over any run in which no request is given back while one of a higher priority is pending, the pending requests are in the order of their priorities |
| MicroslotOrder.DuckOrdered | ws_root/src/devices/operator/microslot.c:972-980 | giving the current request back keeps that order exactly when no pending one has a higher priority |
| MicroslotOrder.PingAsksEverySlot | ws_root/src/devices/operator/microslot.c:886-922 | the microcommands of a ping ask the card in each of the four slots for its identity and note it with that slot |
| MicroslotOrder.GivenUpAtThird | ws_root/src/devices/operator/microslot.c:549-586 | a request is completed as offline at the third look that finds the output register full, and not before; any byte that is taken starts the count again |
| MicroslotOrder.AttentionWaits | ws_root/src/devices/operator/microslot.c:490-499 | on an attention interrupt nothing is carried out, and the microcommand waits |
| MicroslotOrder.HeldUp | ws_root/src/devices/operator/microslot.c:758-762 | over any run, from then until recovery nothing is carried out for any request |
| MicroslotRuns.QueueBound | ws_root/src/devices/operator/microslot.c:204-208 | over any run the ring of 48 never holds more than 47 microcommands, so it never wraps onto itself or onto the one to repeat |
| MicroslotRuns.RoomExactly | ws_root/src/devices/operator/microslot.c:379-439 | the ring has room over all runs exactly for sequences of at most 20 microcommands and those that are refused |
| MicroslotRuns.Crowded | ws_root/src/devices/operator/microslot.c:886-922 | a longer sequence for a slot not selected, with its first microcommand waiting and a ping behind it, holds its length and 27 in the ring |
| MicroslotRuns.UnendedSequenceOverflows | ws_root/src/devices/operator/microslot.c:386-403 | a length that announces one entry does not keep eleven from being expanded |
| DisplayLists.DisplayTiled | ws_root/src/devices/bdavideo/bdavdl.c:435-529 | the spans handed to the compile routines fill the display from its first line to its last in order, no line twice |
| DisplayLists.FieldLinesExact | ws_root/src/devices/bdavideo/bdavdl.c:614-634 | the count of an entry is the number of its field's lines in the span, and its first line the first of them |
| DisplayLists.UnitLine | ws_root/src/devices/bdavideo/bdavdl.c:591-780 | the k-th line of an entry fetches the bitmap row that display line wants, for lace and other views |
| DisplayLists.FieldShown | ws_root/src/devices/bdavideo/bdavdl.c:435-848 | following the links of field f, its k-th line is display line 2k + f and shows what the view there wants; after the last line the list has ended |
| DisplayLists.LineShown | ws_root/src/devices/bdavideo/bdavdl.c:435-848 | line k of field f shows, of the transition that covers display line 2k + f, the bitmap pixel in the view's own row and column, given as an address; nothing without a bitmap or outside all transitions |
| DisplayLists.SpanCovering | ws_root/src/devices/bdavideo/bdavdl.c:435-529 | a display line is in the span of the transition whose heights reach it |
| DisplayLists.LeftExact | ws_root/src/devices/bdavideo/bdavdl.c:664-667 | the first column shown is the one a view left of the display has cut off in whole pixels |
| DisplayLists.FieldNotEmpty | ws_root/src/devices/bdavideo/bdavdl.c:435-578 | a field has an entry exactly when it has a line |
| DisplayLists.FieldsPartition | ws_root/src/devices/bdavideo/bdavdl.c:435-848 | the two fields have every display line between them, each exactly once |
| ProgressiveLists.ProgressiveShown | ws_root/src/devices/bdavideo/bdavdl.c:637-647 | on a display with one field a frame every line shows what the view there wants exactly when no lace view covers more than one line or one of odd number |
| VdlCompiler.VdlBuilder.Compile | ws_root/src/devices/bdavideo/bdavdl.c:591-848 | the compile routines in place: an entry for a span with lines in the field, and the mark taken from one without |
| VdlCompiler.VdlBuilder.BuildVdlEntry | ws_root/src/devices/bdavideo/bdavdl.c:532-578 | the entries and marks built so far, and this span's |
| VdlCompiler.VdlBuilder.ProcessTransitions | ws_root/src/devices/bdavideo/bdavdl.c:435-529 | sizing counts at least the entries either field needs; building leaves the field's list, ended by the terminator, and every transition's mark at its entry |
| VdlCompiler.ModifyUnit | ws_root/src/devices/bdavideo/bdavdl.c:853-870 | the entry a mark points at moves by the difference of the addresses |
| VdlCompiler.StompLists | ws_root/src/devices/bdavideo/stompomatic.c:45-104 | both lists patched at the marks of the view's transitions that pass the visibility test at StartY |
| VdlCompiler.StompCompiled | ws_root/src/devices/bdavideo/stompomatic.c:45-104 | lists built by a compile and then patched are what a new compile would build, for every StartY on the display |
| Stomping.PatchExact | ws_root/src/devices/bdavideo/stompomatic.c:45-104 | patching is recompiling exactly when no entry of the view belongs to a transition that is passed over, or the address has not really moved |
| Stomping.PatchIsRecompile | ws_root/src/devices/bdavideo/stompomatic.c:45-104 | with StartY on the display it always is |
| Stomping.PatchCanMiss | ws_root/src/devices/bdavideo/stompomatic.c:48-52 | with StartY above the display a shown view can go unpatched, because the top never advances |
| ListLifetime.CompiledHeld | ws_root/src/devices/bdavideo/bdavdl.c:250-257 | a compile, at whatever point it fails, loses none of its buffers and frees none twice |
| ListLifetime.OnePlace | ws_root/src/devices/bdavideo/bdavdl.c:333-428 | over any run of compiles and vertical blanks an allocated buffer is in exactly one place: on display, parked, safe to free, or released once, also when both fields share it |
| ListLifetime.ReleasedAfterBlank | ws_root/src/devices/bdavideo/firq.c:89-99 | no list that has been shown is released before a vertical blank has followed its replacement |
| ListLifetime.LastCompileShown | ws_root/src/devices/bdavideo/bdavdl.c:405-418 | over any run, the lists of field 0 and field 1 are the two buffers of the last compile that got through, in that order |
| ListLifetime.NoneShown | ws_root/src/devices/bdavideo/bdavdl.c:405-418 | until a compile has got through there is no list |
| ListLifetime.Lists.CompileVdl | ws_root/src/devices/bdavideo/bdavdl.c:236-432 | the globals after a compile: old lists freed, replaced lists parked, new ones on display |
| ListLifetime.Lists.VBlank | ws_root/src/devices/bdavideo/firq.c:89-99 | parked lists become safe to free |
| TimeStamps.Bin2Bcd | ws_root/src/devices/cdrom/m2cd.c:333-345 | tens and units of a byte, the tens in four bits |
| TimeStamps.RoundTrip | ws_root/src/devices/cdrom/m2cd.c:358-408 | an address comes back from its BCD time stamp exactly when it is below 160 minutes |
| TimeStamps.Distinct | ws_root/src/devices/cdrom/m2cd.c:358-408 | time stamps tell addresses below 160 minutes apart |
| TimeStamps.LooksEarlier | ws_root/src/devices/cdrom/m2cd.c:358-372 | every later address has the time stamp of an earlier one |
| TimeStamps.StampDigits | ws_root/src/devices/cdrom/m2cd.c:358-372 | the digits of a time stamp are minutes, seconds and frames of the address |
| Prefetch.Prepared | ws_root/src/devices/cdrom/m2cd.c:3437-3456 | RD_PREPARE leaves an empty segment and two blocks in use |
| Prefetch.FilledOn | ws_root/src/devices/cdrom/m2cd.c:4836-4871 | a fill makes the block behind the valid ones valid with the next sector, and either takes the next free block or stops prefetching; SectorFound says how blocks are tagged |
| Prefetch.FilledLast | ws_root/src/devices/cdrom/m2cd.c:4898-4930 | the last fill completes the ring with the sector after the others |
| Prefetch.Digested | ws_root/src/devices/cdrom/m2cd.c:3267-3281 | handing on or passing over the first valid block moves the whole segment on |
| Prefetch.RingKept | ws_root/src/devices/cdrom/m2cd.c:3437-3456 | from RD_PREPARE on, whatever is filled and read, the valid blocks are one segment of consecutive sectors from the start offset on |
| Prefetch.LookedFor | ws_root/src/devices/cdrom/m2cd.c:3984-4242 | looking for a sector passes over the blocks before it; its own block then decides by seek mode and format, and if it is not in the ring nothing is left |
| Prefetch.SectorFound | ws_root/src/devices/cdrom/m2cd.c:3437-4942 | over any run from RD_PREPARE, looking in the format and mode prefetching was started with for any sector in the ring, but for one filled after the overrun, finds it in its place |
| Prefetch.SoonExactly | ws_root/src/devices/cdrom/m2cd.c:4262-4273 | a sector is said to be available soon exactly when the ring is filling and has room for it behind its first, in the format it fills with |
| Prefetch.SoonIsTrue | ws_root/src/devices/cdrom/m2cd.c:4262-4273 | a sector that is said to be available soon is in the ring, or has been handed on, after as many further fills as the ring has blocks, whatever is read meanwhile |
| Prefetch.InUseCount | ws_root/src/devices/cdrom/m2cd.c:4932-4934 | the number of blocks in use that the interrupt computes is the number of valid blocks |
| Prefetch.LastBlockFound | ws_root/src/devices/cdrom/m2cd.c:4917-4922 | the last block keeps an old seek mode tag: it is found exactly when that tag is the mode in force, and otherwise asks for a new seek |
| Prefetch.FullRingLastSector | ws_root/src/devices/cdrom/m2cd.c:4820-4930 | in a ring filled from RD_PREPARE on and not read, the last sector is found exactly when the last place was tagged with that mode before |
| Prefetch.NextInRing | ws_root/src/devices/cdrom/m2cd.c:4924-4929 | the next write index lies in the ring after the last fill exactly when the ring has 19 blocks or the write index was not at its last place but one |
| Prefetch.Cdrom.InitDataSpace | ws_root/src/devices/cdrom/m2cd.c:2093-2107 | all headers are free, invalid and without an address, but keep their seek mode |
| Prefetch.Cdrom.InitPrefetchEngine | ws_root/src/devices/cdrom/m2cd.c:2147-2154 | the current and the next block are in use and DMA is on |
| Prefetch.Cdrom.StartPrefetching | ws_root/src/devices/cdrom/m2cd.c:3437-3461 | RD_PREPARE: empty headers, two blocks in use, offsets and time stamp at the sector, prefetching on |
| Prefetch.Cdrom.FreeBlock | ws_root/src/devices/cdrom/m2cd.c:4226-4236 | the first block is free, its time stamp marked when it was passed over, and start, end and read index move on |
| Prefetch.Cdrom.ChannelZeroFIRQ | ws_root/src/devices/cdrom/m2cd.c:4820-4946 | the interrupt on headers, indices, time stamp, tags and flags does one fill |
| Prefetch.Cdrom.DataAvailNow | ws_root/src/devices/cdrom/m2cd.c:3984-4242 | the loop over the headers gives the verdict on the sector and frees what it passes over |
| BeamQueue.SetVlineKeeps | ws_root/src/devices/bdavideo/firq.c:133-224 | what is sent is what was first in the list, in order, none of it the marker and all for this field; the rest stays |
| BeamQueue.SentWhenReached | ws_root/src/devices/bdavideo/firq.c:133-224 | a signal is sent only when the beam had reached its line, two to a line of an interlaced display, at one of the two looks, and the one left at the head had been reached at neither |
| BeamQueue.MarkerFirst | ws_root/src/devices/bdavideo/firq.c:101-107 | when the marker is first, decrementing the other lines does not wrap and makes them this field's |
| BeamQueue.ListInOrder | ws_root/src/devices/bdavideo/firq.c:309-336 | over any run the list is sorted and has exactly one marker |
| BeamQueue.SentOnce | ws_root/src/devices/bdavideo/firq.c:74-354 | over any run a signal installed and not taken out waits or has been sent, once |
| BeamQueue.SentInItsField | ws_root/src/devices/bdavideo/firq.c:74-122 | a signal is sent in the field it was installed for, so one for the next field only after the marker has been processed |
| BeamQueue.PerProj.SetVline0 | ws_root/src/devices/bdavideo/firq.c:133-224 | signals leave the head of the list until one is not due at either look at the beam |
| BeamQueue.PerProj.InstallLineIntr | ws_root/src/devices/bdavideo/firq.c:321-336 | the signal goes behind everything that is not later, and a new head is scheduled at once |
| BeamQueue.PerProj.RemoveLineIntr | ws_root/src/devices/bdavideo/firq.c:339-354 | the signal leaves the list, and if it was the head the next is scheduled |
| BeamQueue.PerProj.BeamFIRQ | ws_root/src/devices/bdavideo/firq.c:73-122 | the interrupt: a new field when the marker is first, what is due is sent, and the marker goes back |
| TimerQueue.EndsExactly | ws_root/src/devices/operator/timer.c:72-121 | with the clock standing still a pass over a sorted queue ends exactly when every metronome that is due and reaches its client has an interval above 0 |
| TimerQueue.PositiveEnds | ws_root/src/devices/operator/timer.c:424-438 | as long as metronomes are asked for with intervals above 0 every pass ends, at all times |
| TimerQueue.AskSound | ws_root/src/devices/operator/timer.c:313-438 | a delay, a metronome or a wait for a time keeps the queue sound, and afterwards nothing is due and the timer is loaded with what is left to the first target |
| TimerQueue.RunSound | ws_root/src/devices/operator/timer.c:72-208 | over any run the list is sorted, every metronome's target is its next turn, every ping was given in its turn and not early, and the timer goes off by the first target |
| TimerQueue.OnceOnly | ws_root/src/devices/operator/timer.c:72-208 | over any run every request is waiting or completed, and that exactly once |
| TimerQueue.PingsInTime | ws_root/src/devices/operator/timer.c:86-100 | no drift: over any run the nth ping of a metronome is due at the time it was asked for and n of its intervals, and is not given before |
| TimerQueue.NoPingMissing | ws_root/src/devices/operator/timer.c:72-121 | after a pass a metronome has been given every ping that was due by then |
| TimerQueue.DoneNotEarly | ws_root/src/devices/operator/timer.c:86-121 | over any run a delay is completed at or after the time it was asked for and its length, a wait at or after the time it named |
| TimerQueue.NoneOverdue | ws_root/src/devices/operator/timer.c:72-121 | after a pass every delay and wait whose time had come has been completed, once |
| TimerQueue.UsecTimer.ProcessUSecWaiters | ws_root/src/devices/operator/timer.c:72-121 | the loop over the waiters, on the fields, is one pass |
| TimerQueue.UsecTimer.CmdDelayUSec | ws_root/src/devices/operator/timer.c:313-346 | a delay is refused, or queued for now and its length and processed |
| TimerQueue.UsecTimer.CmdMetronomeUSec | ws_root/src/devices/operator/timer.c:424-438 | a metronome with signals that are not allowed is refused, another treated as a delay |
| TimerQueue.UsecTimer.CmdDelayUntilUSec | ws_root/src/devices/operator/timer.c:371-398 | a wait for a time is refused, or queued for that time and processed; DoneNotEarly and NoneOverdue say when it is completed |
| TimerQueue.UsecTimer.AbortTimerIO | ws_root/src/devices/operator/timer.c:194-208 | the waiter is completed as aborted and the timer left alone |
| SerialInput.NothingElseLost | ws_root/src/devices/ns16550/ns16550.c:569-764 | over any run, bytes delivered and then those in the ring are the data bytes received, in order, but for those counted as dropped |
| SerialInput.ReadersHaveIt | ws_root/src/devices/ns16550/ns16550.c:569-764 | over any run, what the readers have in their buffers, one after another, is exactly the bytes delivered, in order; none has more than it asked for; and output is held up exactly when software handshake is on and the last flow control byte was an XOFF |
| SerialInput.ServedExactly | ws_root/src/devices/ns16550/ns16550.c:644-764 | a reader is served until what it lacked is used up, flow control bytes included, or ring and FIFO have run out |
| SerialInput.DropsOldest | ws_root/src/devices/ns16550/ns16550.c:622-637 | a full ring drops its oldest byte for the new one and counts it |
| SerialInput.DrainConserved | ws_root/src/devices/ns16550/ns16550.c:644-764 | draining ring and FIFO to one reader after another keeps that account |
| SerialDevice.TurnExact | ws_root/src/devices/ns16550/ns16550.c:624-632 | a turn of the ring comes back to the oldest byte exactly when the unsigned count does not wrap inside it or the size divides 2^32 |
| SerialDevice.StoreOver | ws_root/src/devices/ns16550/ns16550.c:624-632 | on a full ring the byte stored takes the place of the oldest |
| SerialDevice.Device.HandleOverflow | ws_root/src/devices/ns16550/ns16550.c:569-638 | the FIFO is emptied: flow control bytes obeyed, data into the ring |
| SerialDevice.Device.DrainInputFIFO | ws_root/src/devices/ns16550/ns16550.c:644-764 | readers in turn get the ring and then the FIFO, a flow control byte counting against the length, until the FIFO or the readers run out; ReadersHaveIt says what they have |
| SerialDevice.Device.CmdStreamRead | ws_root/src/devices/ns16550/ns16550.c:963-984 | a read of no bytes does nothing; another is queued and served |

## Left out

- `RLP_CHECK_ESCAPE2` and the branch that leads to it are in `Parser` and `VcdOptimizer` as the code has them, case 0 falling into case 1 at line 1257, but runs that stop or resume inside a negative escape level are outside `Reparse`, `ChangesHarmless` and `RunGoesOn`: such levels are rounded on purpose, and `SplitLevels` says to what.
- BitReaders.BitReader.ChangeBits: a byte in front of the buffer, which belongs to an earlier one, is neither read nor written; `InBuffer` says when there is such a byte, so a patch of left-over bits is missing from the earlier buffer.
- Resuming.CutsAgree: claimed of state and unread bits and, in `RunGoesOn`, of the output over left-over bits and buffer; a run that ends at the start code of something else than a slice drops the rest of its buffer and is excluded.
- VcdOptimizers.VcdOptimizer.constructor: f_code 0, for which the code would shift by a negative count, is not modelled.
- VcdOptimizers.VcdOptimizer.DoVCDOptimize: a call that finds a matrix entry of 0 returns at once, as the code does, so no parsing is claimed for such matrices.
- SliceSyntax.SliceOptimized: slices of macroblocks whose levels lie between -255 and 255 and take an escape's short form where they can, as the standard asks; the parser's own states are not claimed for D pictures.
- Coefficient indices of 64 and above read past the threshold table: the second table, and beyond that arbitrary bytes; only claims on what they mean are limited to indices below 64.
- Reading into a buffer changes no buffer in the microslot model: the bytes read are on record in `ran`, in order. `io_Actual`, which is not reset when a request is requeued by a duck, and completion callbacks that call back into the driver.
- MicroslotDriver.Driver.AddMicroCommand: with 47 microcommands in the ring only what the code then sees, an empty ring, is stated; `RoomExactly` says when that happens.
- Progressive displays have a list and its meaning (`ProgressiveLists`) but no in-place compiler of their own.
- Display list words other than line count, address, pitch, DMA and link; field widths of line count and pitch; vertical averaging; the BDA 2.0 hack and `fieldstall`.
- VdlCompiler.VdlBuilder.ProcessTransitions: a StartY at or below the last line, or transitions that all lie above the display, for which `transbot` is unset or the trailing blank starts above line 0, are excluded.
- VdlCompiler.StompLists: where line signals are put is not modelled, because the top that decides it never advances.
- Marking views, and `SuperInternalMarkView` failing in the middle of a compile: a failed compile leaves the display unchanged and frees its buffers (`ListLifetime`), which does not depend on how far it came.
- Prefetch.SoonIsTrue: for sectors that stay below 160 minutes, where time stamps are unique.
- Sector contents, ECC, header checks and subcode; the drive commands before RD_PREPARE; a resize of the ring while it is filling.
- `INTRTYPE` dispatch of a line signal to its task, and the line register the hardware compares with.
- The clock moving on during one pass over the timer queue, waiters for vertical blanks, 64-bit wrap of tick counts, and the metronome flag that stays set when a request is used again.
- SerialDevice.Device.StoreByte: claimed while the unsigned start count does not wrap inside a turn of the ring; `TurnExact` says what a wrap does.
- Sending, RTS and XOFF to the other side, read time-outs, aborts and changes of configuration in the serial driver; reads are served in the order they were asked for, as equal priorities are.
- Register access, DMA programming, interrupt and item creation, privileges but the microslot driver's, and status replies: calls into code outside the drivers.
