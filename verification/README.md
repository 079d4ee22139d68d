# Verified model of the delay cores

This project models five parts of a live-stream delay plugin and proves what they promise.

- **`PacketDelay`**, a transactional delay for compressed packets on many lanes. It has a six-state
  machine, keyframe-aware pruning and cut planning, exact timestamp epochs over mixed time bases, a
  watermark-guarded merge and a two-phase return to live.
- **`OutputSession`**, the engine that rewrites live packets into carriers of hold or delayed payloads.
  It joins them on one timeline and realigns its lanes at a common GOP after a hole.
- **The PCM ring and window cursor**, a single-producer, single-consumer ring and the cursor that turns
  timestamped blocks into a drift-free stream of windows.
- **The multistream queue and FLV splitter**, a bounded queue that restarts on keyframes, and a tag
  splitter over arbitrary write chunks.
- **The preview history**, a trimmed and pinned list of frames with its sampling cadence.

## How the project is built

Each component has a specification over values (a state datatype and a function for each operation), lemmas
about runs of that specification, and imperative code proved against it. The imperative code keeps the
source's shape. Loops are loops, objects are classes whose methods update fields, and the ring's slots, the
limbs and the realignment cursors are arrays changed in place. A locked public method of the source is one
step of a run.

| files | contents |
|---|---|
| `Timestamps` | 192-bit products, exact timestamp comparison, least-increment search, tick conversions |
| `PacketTypes`, `PacketDelaySpec`, `PacketDelayStep`, `PacketDelayResults` | the delay engine's values, operations, answers and transitions |
| `PacketDelayInvariant`, `PacketDelayMerge`, `PacketDelayKeep`, `PacketDelayRun`, `PacketDelayLoss`, `PacketDelayAdmit` | the invariant, the merge, conservation over every run, what is let in and what may be given up |
| `PacketDelayDecode`, `PacketDelayPrune`, `PacketDelayCut`, `PacketDelayEpoch`, `PacketDelayOrder`, `PacketDelayHorizon`, `PacketDelayInterleave` | decodable output, invisible pruning, where a fill is cut, optimal epochs, DTS order, the horizons of a run |
| `PacketDelayAge`, `PacketDelayWaits` | delayed output is as old as asked for, and leaves as soon as it may |
| `PacketDelayReturn`, `PacketDelayGate`, `PacketDelayAwait`, `PacketDelayTwin`, `PacketDelayLive`, `PacketDelayWitness` | the return to live: its cuts, its gate, the lanes it waits for, the delayed output meanwhile, its pending list, a return that stops |
| `PacketDelayScan`, `PacketDelayOffsets`, `PacketDelaySearch`, `PacketDelayCounts`, `PacketDelayBuild`, `PacketDelay` | the engine's loops, counters and class |
| `SessionSpec`, `SessionRealign`, `SessionDrift`, `SessionTimeline`, `SessionEpoch`, `SessionSplices` | the session's operations, realignment, timeline and epoch starts |
| `SessionDelayLine`, `SessionSteady`, `SessionSmooth`, `SessionReturnLine`, `SessionHoldLine` | its lanes as queues: delayed, without cuts, turned off, and of the hold |
| `SessionTarget`, `SessionCadence`, `SessionContinuity`, `SessionPaced`, `SessionWitness`, `SessionBytes`, `SessionReturn` | the delay asked for, how fills start and end, payload continuity and the runs that break it, byte counts, error returns |
| `SessionSearch`, `Session` | the session's loops and class |
| `PcmRing`, `PcmCursor`, `PcmStart`, `PcmMoves`, `PcmDrift`, `PcmCorrection`, `Pcm` | the ring under every interleaving, the cursor, its start, its turns among arrivals, its drift and corrections, and the classes |
| `MultistreamQueue`, `FlvSplitter`, `FlvEncoding` | the queue, the splitter and its round trip |
| `Preview`, `PreviewTiming`, `PreviewAsked`, `PreviewCapture` | the history, cadence and target, what is asked for and sampled, and the classes |

`dafny verify dfyconfig.toml` checks everything.

## What the proofs turned up

- The second row of the 192-bit multiplication never reads the top limb of its operand, so a carry out of
  that limb goes unnoticed (`src/core/packet_delay.cpp:86-97`). `RowProductExact` says exactly when the result
  is right and `Product` shows that the engine's own calls are always right.
- Timestamps are compared as value / denominator; a time base's numerator has to be positive and is never read
  otherwise (`src/core/packet_delay.cpp:45-55`, `:123-138`). Every statement about order means that quotient.
- Pruning is invisible to a later cut exactly when the target is zero or gaps are checked and stay within the
  retention headroom. With gap checking switched off, or a gap limit above the headroom, pruning can delay a
  cut (`src/core/packet_delay.hpp:128-148` allows both).
- The return to live checks only the front of each lane for overflow (`src/core/packet_delay.cpp:1488-1496`), so
  a later packet may stop it. `ReturnDrains` gives the exact condition and `ReturnStops` a run that stops.
- Turning a delay off goes on with the delayed output exactly as before while pruning drops nothing: the running
  engine prunes after it drains and the returning one does not (`src/core/packet_delay.cpp:655-685`), so packets
  that still wait at the end of the retention leave only in the latter (`SameBufferExactly`).
- A realignment cut starts the video lane on the chosen keyframe exactly when every buffered DTS before it is
  lower. With rising live video DTS it always does (`EveryPacedContinues`); `BackwardTimeRun` is a run in which
  it does not, and the payload chain breaks.
- `usedFallback` is not looked at while returning from Filling (`src/output-session.cpp:845` and `:936`), so a
  hold lane may run dry there, and a hold packet that does not fit is dropped while those after it are kept
  (`src/output-session.cpp:995-1009`). Either way the next hold packet breaks the payload chain unless it is a
  keyframe or the very next one (`JoinExactly`); `DryHoldRun` and `LostHoldRun` are runs in which it does.
- Microsecond and tick timestamps of a packet are shifted separately, and ticks are rounded for each shift
  (`src/output-session.cpp:602-612`). Rising ticks never fall, but two adjacent ones may meet when the first starts
  an epoch; `TickOrderSurvives` says exactly when, `TicksMeet` gives such a pair.
- Block timestamps rounded down to nanoseconds are always judged contiguous exactly up to a sample rate of 5e8,
  or when a block lasts a whole number of nanoseconds (`ContiguousExactly`).
- The preview's history length wraps for the last three values of its 32-bit argument. A clock that steps back
  keeps the frames apart exactly when the step ends at or before the newest kept frame, which restarts the
  history, or an interval past it (`SampleSpacedExactly`). Shorter steps can fill the cap (`CrowdingFillsCap`).

## Model

| member | source | states |
|---|---|---|
| Timestamps.Multiply | src/core/packet_delay.cpp:78-101 | The in-place limb multiplication leaves either the unchanged value and false, or the row product and true; false exactly when a row carries out of the top limb. |
| Timestamps.RowProductExact | src/core/packet_delay.cpp:86-97 | The row product equals the true product if and only if the factor fits 32 bits or the top limb is clear: the second row never reads limb 5. |
| Timestamps.TopLimbCarryIsMissed | src/core/packet_delay.cpp:86-97 | A value and factor whose product overflows 192 bits and is still reported as representable, with result zero. |
| Timestamps.Product | src/core/packet_delay.cpp:103-110 | The product of any three 64-bit factors is exact, so the missed carry cannot occur on the path the engine uses. |
| Timestamps.CompareUnsigned | src/core/packet_delay.cpp:112-121 | Comparing from the top limb down orders the numbers the limbs stand for. |
| Timestamps.Magnitude | src/core/packet_delay.cpp:68-72 | The magnitude of every signed 64-bit value, the least one included. |
| Timestamps.CompareTimestamps | src/core/packet_delay.cpp:125-138 | For all 64-bit timestamps and positive denominators, the sign of the exact rational difference. |
| Timestamps.AddTimestamp | src/core/packet_delay.cpp:140-148 | The sum, or none exactly when it leaves the signed 64-bit range. |
| Timestamps.FirstSatisfyingNonnegative | src/core/packet_delay.cpp:151-179 | Bracketing and bisection find the least nonnegative solution of an upward closed predicate, and report none only when there is none up to the maximum. |
| Timestamps.LeastTickIsLeast | src/core/packet_delay.cpp:958-987 | A tick count clears a horizon, strictly or not, exactly from the least clearing tick on. |
| Timestamps.DelayTicksRounds | src/core/packet_delay.cpp:181-192 | Milliseconds to ticks: the exact product over 1000 rounded half up; none exactly for a negative delay, a bad time base or a rounded product outside 64 bits. |
| Timestamps.DurationTicksExceeds | src/core/packet_delay.cpp:194-208 | The least tick count that lasts strictly longer than the duration, no duration being no ticks; none exactly for a negative duration, a bad time base or a count outside 64 bits. |
| PacketDelayRun.StepKeeps | src/core/packet_delay.cpp:594-709 | Any one call keeps the invariant of the state and emits only packets that were held or pushed, each once, with pts - dts kept. |
| PacketDelayRun.EveryRunConserves | src/core/packet_delay.cpp:594-685 | In every reachable state all caps hold, sequence numbers held are distinct, no number is emitted twice or both emitted and held, and each output is its input with both timestamps shifted alike or not at all. |
| PacketDelayLoss.EveryPacketAccounted | src/core/packet_delay.cpp:594-709 | Nothing is lost: over every run each packet ever pushed is still buffered, or was handed out, or was given up at a call that may give it up, because the engine failed there, an accepted commit cut it off, or it was older than the target (while a change of a running delay fills, than the longer of the two) and the headroom. |
| PacketDelayLoss.StepLoses | src/core/packet_delay.cpp:342-709 | So it is for any one call, requests included. |
| PacketDelayAge.EveryRunAged | src/core/packet_delay.cpp:1134-1183 | Over every run a packet that is handed out as delayed leaves at the time of the call and was pushed at least the delay in force before, the delay being followed through requests and answers alone; where none was committed nothing is handed out as delayed. |
| PacketDelayAge.EveryRunTied | src/core/packet_delay.cpp:342-592 | Over every run the targets of the engine are the delays asked for and running, as the accepted requests say. |
| PacketDelayWaits.EveryRunSettles | src/core/packet_delay.cpp:1134-1254 | After a push or a poll of the running delay nothing is left that could have left: all buffered packets are younger than the target, or a lane that is waited for has nothing yet, or the first old front by shifted DTS waits for a lane whose newest DTS is not a reorder window past it. |
| PacketDelayWaits.PollEmpties | src/core/packet_delay.cpp:1134-1254 | Once every lane that is waited for is a reorder window past everything buffered, a poll leaves no packet as old as the target. |
| PacketDelayWaits.PushRests | src/core/packet_delay.cpp:594-653 | A push of the running delay leaves no more behind, and records its lane as waited for, seen now, with the later of its newest shifted DTS and the one before; other lanes keep their records. |
| PacketDelayAdmit.AdmittedExactly | src/core/packet_delay.cpp:880-943 | A packet is buffered if and only if its lane is free, its time base is valid, it can be dated (at its lane's offset, or at some offset that respects the delay and all horizons), and every limit holds with it. |
| PacketDelayAdmit.GenerationReplaces | src/core/packet_delay.cpp:850-878 | A lane is free exactly when it is known or there is room for one, and no other generation of it is buffered; its new generation then is the only one remembered anywhere, and other lanes stay. |
| PacketDelayAdmit.ExternalKnown | src/core/packet_delay.cpp:694-709 | Output shown outside the engine takes a lane as well, and is an error where none is left. |
| PacketDelayCut.EveryCommitCuts | src/core/packet_delay.cpp:438-469 | Over every run a commit of a fill changes nothing but the clock unless every required lane (or every lane, where none is required) can open; then each lane that can opens on its newest such packet and the others are gone, each first packet is put off by the delay or more, and the lanes waited for, their newest DTS and the target are as the cut says. |
| PacketDelayCut.StartIsNewest | src/core/packet_delay.cpp:1331-1366 | A lane is cut at the newest packet that is as old as the target, can be decoded from, has a target's length of packets behind it and no gap beyond the limit from it to now; nowhere exactly when there is none. |
| PacketDelayCut.EpochTight | src/core/packet_delay.cpp:1007-1080 | A committed epoch puts the lanes off no further than the delay and what was shown before require. |
| PacketDelayCut.NewLanePutOff | src/core/packet_delay.cpp:889-896 | A lane that comes in while the delay runs is put off by it as well. |
| PacketDelayMerge.MergeCorrect | src/core/packet_delay.cpp:1502-1524 | Sorting all kept lanes by shifted DTS and arrival yields a sequence with exactly the lanes' packets and their total weight. |
| PacketDelayMerge.MergesUnique | src/core/packet_delay.cpp:1506-1514 | Only one such sequence exists, so the order does not depend on map iteration. |
| PacketDelayDecode.EveryRunDecodable | src/core/packet_delay.cpp:1134-1254 | Over every run with keyframes required, the delayed output of each video lane of the latest committed cut starts with a keyframe and goes on with the lane's next packet or a keyframe. |
| PacketDelayDecode.CommitLinks | src/core/packet_delay.cpp:438-469 | Every video lane of a freshly committed cut opens on a keyframe. |
| PacketDelayDecode.GrownLinks | src/core/packet_delay.cpp:594-692 | Pruning, retargeting, cancelled retargeting and returning all keep a lane decodable. |
| PacketDelayPrune.LanePlanUnchanged | src/core/packet_delay.cpp:1277-1375 | With retention covering the target a pruned lane is cut at the same packet as the unpruned one, or neither is cut. |
| PacketDelayPrune.PruningInvisible | src/core/packet_delay.cpp:1277-1375 | However often a fill was pruned along the way, over pushes, polls, prunes, reported external output and refused requests, readiness, plan and cut queues are those of the same fill never pruned. |
| PacketDelayPrune.InvisibleExactly | src/core/packet_delay.cpp:1277-1375 | For any valid configuration and target, pruning never changes a later cut of a lane if and only if the target is zero or 0 < maximum gap <= retention headroom. |
| PacketDelayPrune.UncoveredDiffers | src/core/packet_delay.cpp:1344-1347 | Outside that condition, a lane for which the pruned queue cannot be cut while the unpruned one can. |
| PacketDelayEpoch.EpochOffsetOptimal | src/core/packet_delay.cpp:945-1005 | An offset is acceptable (at least the delay, clear of the lane DTS, global DTS and lane PTS horizons, no overflow) exactly from the created offset on; none is created exactly when none is acceptable. |
| PacketDelayEpoch.UnifiedJustReach | src/core/packet_delay.cpp:1007-1047 | Unification raises every lane just as far as the widest shift and never below its own offset. |
| PacketDelayEpoch.UnifiedConsistent | src/core/packet_delay.cpp:1007-1047 | After unification no lane is shifted further than another by as much as one of its own ticks. |
| PacketDelayEpoch.UnifiedAcceptable | src/core/packet_delay.cpp:1007-1047 | Unified offsets still clear every horizon of their lane. |
| PacketDelayEpoch.UnifiedTight | src/core/packet_delay.cpp:1007-1047 | Some lane could not be shifted by one tick less. |
| PacketDelayEpoch.UnifiedSame | src/core/packet_delay.cpp:1007-1047 | In one time base all lanes get the same offset. |
| PacketDelayReturn.EveryRunCutsOk | src/core/packet_delay.cpp:1185-1200 | In every reachable state before the commit each recorded return cut names the newest keyframe its lane still buffers. |
| PacketDelayGate.GateIsCut | src/core/packet_delay.cpp:1185-1220 | A return stops a front packet if and only if every awaited video lane has its cut or has gone quiet, and the packet is at or past its own lane's cut, or, on audio lanes, arrived no earlier than the earliest buffered cut, else than the request. |
| PacketDelayGate.KeyframeIsCut | src/core/packet_delay.cpp:1424-1436 | While a return waits, a keyframe pushed at or after the request is its lane's cut when the call returns, unless the engine failed. |
| PacketDelayTwin.DelayGoesOn | src/core/packet_delay.cpp:500-513 | Two runs that differ by one accepted request, to turn the delay off or to call off a change of it, while the delayed output runs: packet calls that prune nothing hand out the same in both, up to a call in which the second stops at a packet at or past the cut, which is what the first would hand out next. |
| PacketDelayTwin.SparedExactly | src/core/packet_delay.cpp:1277-1303 | Pruning drops nothing if and only if every possible cut point behind the lanes' fronts is younger than target and headroom. |
| PacketDelayTwin.SameBufferExactly | src/core/packet_delay.cpp:655-685 | After a poll that hands out nothing the returning engine has the whole buffer, and the running one has it if and only if that condition held. |
| PacketDelayTwin.FirstReturnSilent | src/core/packet_delay.cpp:655-685 | Where no delay was committed, a poll of a return hands out nothing before it is committed. |
| PacketDelayAwait.EveryReturnWaits | src/core/packet_delay.cpp:1400-1447 | Over every run a return is committed only once each video lane of the output at the request, or its later generation, has its cut, the newest keyframe it buffers, or has gone quiet. |
| PacketDelayLive.ReturnedVideo | src/core/packet_delay.cpp:1466-1483 | A lane with a recorded cut goes live as its contiguous suffix from the newest keyframe. |
| PacketDelayLive.ReturnedAudio | src/core/packet_delay.cpp:1466-1483 | Audio goes live exactly from the arrival of the live cut on, both directions. |
| PacketDelayLive.ReturnedAhead | src/core/packet_delay.cpp:1488-1496 | The first packet of each returned lane clears the stored horizons: the global DTS, the lane's DTS and the lane's PTS. |
| PacketDelayLive.ReturnedTight | src/core/packet_delay.cpp:1488-1496 | The returned lanes are put off no further than what was shown before requires; the delay is gone. |
| PacketDelayHorizon.EveryRunBehind | src/core/packet_delay.cpp:1093-1119 | In every reachable state each packet the run showed on a lane, delayed, returned, live or reported, lies at or below the stored DTS and PTS horizons of that lane, and every DTS at or below the global one. |
| PacketDelayHorizon.ShownIsOut | src/core/packet_delay.cpp:594-709 | What a run shows is exactly what its calls hand out, but for a live packet that passes because it cannot be shifted, which is an error. |
| PacketDelayHorizon.ReturnExceedsRun | src/core/packet_delay.cpp:1488-1496 | The first packet of each lane that goes live has a DTS and a PTS strictly above those of every packet the run showed on that lane. |
| PacketDelayHorizon.CutExceedsRun | src/core/packet_delay.cpp:438-469 | So has the first delayed packet of each lane of a committed cut. |
| PacketDelayLive.PendingDrains | src/core/packet_delay.cpp:1256-1275 | A pending list that is drainable up to a packet leaves up to there, in order, each packet shifted by its lane's offset. |
| PacketDelayLive.ReturnDrainsTo | src/core/packet_delay.cpp:1256-1275 | After a commit over lanes with nondecreasing DTS the pending list drains in order, without a DTS regression, exactly up to the first packet whose shifted PTS leaves 64 bits, which is an error. |
| PacketDelayLive.ReturnDrains | src/core/packet_delay.cpp:1449-1534 | It drains completely if and only if the PTS of every kept packet fits 64 bits after its lane's unified offset, a condition on the buffered queues before the drain. |
| PacketDelayWitness.ReturnStops | src/core/packet_delay.cpp:1256-1275 | A run from a new engine whose committed return stops with an error at its second packet: only the fronts are checked for overflow. |
| PacketDelayOrder.EveryRunRises | src/core/packet_delay.cpp:1093-1119 | Over every run the emission horizon only rises, as a rational, and delayed output is in DTS order at or above it. |
| PacketDelayOrder.HorizonNeverBack | src/core/packet_delay.cpp:1093-1119 | The horizon after any continuation of a run is never behind the one before. |
| PacketDelayInterleave.StepPaced | src/core/packet_delay.cpp:1134-1254 | While Delayed, with one offset and input in one time base interleaved so far, any call but a report of outside output keeps that pace or leaves the delay, without the late-packet error; a push needs a known lane, that time base and a DTS not below the last. |
| PacketDelayInterleave.LatePacketUnreachable | src/core/packet_delay.cpp:1246-1249 | No run of such calls ends in the late-packet error; refused and accepted requests are among them. |
| PacketDelayInterleave.CommitPaced | src/core/packet_delay.cpp:438-469 | An accepted commit over evenly interleaved lanes starts such a run. |
| PacketDelayInterleave.CommitNeverLate | src/core/packet_delay.cpp:1246-1249 | From an accepted commit over evenly interleaved lanes on, input on known lanes in that time base with nondecreasing DTS never meets that error, whatever is requested meanwhile. |
| PacketDelayResults.AcceptedMoves | src/core/packet_delay.cpp:342-592 | An accepted request takes one of the transitions of the state machine. |
| PacketDelayResults.RefusedOnlyTellsTime | src/core/packet_delay.cpp:342-592 | A refused request emits nothing and changes only the clock, unless it is a commit whose epoch fails, which is an error. |
| PacketDelayResults.OtherwiseStays | src/core/packet_delay.cpp:594-709 | Every other call stays in its state or enters Error. |
| PacketDelayResults.RequestLands | src/core/packet_delay.cpp:342-592 | The state each request leads to from each state, commits aside. |
| PacketDelayScan.ScanKeep | src/core/packet_delay.cpp:1286-1293 | The forward scan stops at the last anchor of the due prefix. |
| PacketDelayScan.PrunePrefix | src/core/packet_delay.cpp:1305-1317 | Packets below a sequence number are popped and their payload and retained sizes added up. |
| PacketDelayScan.ScanStart | src/core/packet_delay.cpp:1337-1364 | The backward scan finds the newest packet a lane may be cut at. |
| PacketDelayCounts.PlanCuts | src/core/packet_delay.cpp:1319-1375 | Lane after lane gets its start; a plan exactly when the queues allow one, and then the specified one. |
| PacketDelayScan.ScanKept | src/core/packet_delay.cpp:1467-1482 | The packets of a lane that go live, picked one by one. |
| PacketDelayOffsets.MaximumAdditional | src/core/packet_delay.cpp:977-982 | The largest increment that overflows neither offset nor shifted timestamp. |
| PacketDelayOffsets.RaiseToHorizon | src/core/packet_delay.cpp:958-987 | The search raises an offset to the least one that clears the horizon, or reports that none does. |
| PacketDelayOffsets.TicksToReach | src/core/packet_delay.cpp:1028-1035 | The search finds the least tick count of a lane that reaches the common shift. |
| PacketDelayOffsets.RaiseToCommon | src/core/packet_delay.cpp:1027-1045 | One lane raised to the common shift, or the news that its packet cannot be shifted that far. |
| PacketDelayOffsets.UnifiedFrom | src/core/packet_delay.cpp:1009-1046 | Whichever widest lane the iteration finds first, the unified offsets are the same. |
| PacketDelaySearch.FindWatermark | src/core/packet_delay.cpp:1148-1158 | The least newest DTS over the watched lanes, or none yet from one of them. |
| PacketDelaySearch.CheckWatermark | src/core/packet_delay.cpp:1222-1232 | Whether the watermark lets a candidate pass, or that the guarded candidate is not representable. |
| PacketDelaySearch.FindCandidate | src/core/packet_delay.cpp:1160-1183 | The due lane whose front comes first by shifted DTS, then by arrival. |
| PacketDelaySearch.IsReturnReady | src/core/packet_delay.cpp:1438-1447 | A return is ready exactly when every required, not stalled video lane has a cut. |
| PacketDelaySearch.FindLiveCut | src/core/packet_delay.cpp:1451-1462 | The earliest arrival of the recorded cuts, else the time the return was requested. |
| PacketDelaySearch.CheckGate | src/core/packet_delay.cpp:1185-1220 | Whether a return keeps a candidate from leaving delayed. |
| PacketDelayBuild.CollectKept | src/core/packet_delay.cpp:1466-1483 | All lanes that keep something, each with what it keeps. |
| PacketDelayBuild.SortAll | src/core/packet_delay.cpp:1506-1514 | All kept lanes in one list in the unique order. |
| PacketDelayBuild.Measure | src/core/packet_delay.cpp:1515-1529 | Packet, payload and retained counts of the pending list. |
| PacketDelayEngine.PacketDelay.constructor | src/core/packet_delay.cpp:319-340 | A new engine is in Bypass, holds nothing and satisfies the invariant. |
| PacketDelayEngine.PacketDelay.ClearDelayQueuesLocked | src/core/packet_delay.cpp:817-827 | Queues, pending list, counters and per-lane input state are emptied, nothing else. |
| PacketDelayEngine.PacketDelay.ClearAllLocked | src/core/packet_delay.cpp:803-815 | The whole transaction is forgotten; output horizons, known lanes and the clock stay. |
| PacketDelayEngine.PacketDelay.EnterErrorLocked | src/core/packet_delay.cpp:796-801 | The transaction is forgotten and the engine is in Error with the cause. |
| PacketDelayEngine.PacketDelay.ObserveTimeLocked | src/core/packet_delay.cpp:786-794 | The clock moves on; a step back is an error and false. |
| PacketDelayEngine.PacketDelay.PrepareStreamLocked | src/core/packet_delay.cpp:850-878 | A new lane is admitted within the limit; a buffered older generation is an error; state of replaced generations is dropped. |
| PacketDelayEngine.PacketDelay.CreateTimestampOffsetLocked | src/core/packet_delay.cpp:945-1005 | The lane keeps its offset or gets the least acceptable one; false exactly when there is none. |
| PacketDelayEngine.PacketDelay.CreateOffsetsLocked | src/core/packet_delay.cpp:1054-1061 | Each front gets its own least offset; true exactly when every front has one. |
| PacketDelayEngine.PacketDelay.UnifyTimestampOffsetsLocked | src/core/packet_delay.cpp:1007-1047 | Leaves the unified offsets, true exactly when they exist. |
| PacketDelayEngine.PacketDelay.BeginTimestampEpochLocked | src/core/packet_delay.cpp:1049-1080 | The fronts of the queues open a new epoch with unified offsets and shifted newest DTS; false exactly when it cannot exist. |
| PacketDelayEngine.PacketDelay.RetimestampLiveLocked | src/core/packet_delay.cpp:1082-1091 | A live packet is shifted by its lane's offset and noted; false when it cannot be. |
| PacketDelayEngine.PacketDelay.NoteOutputTimestampLocked | src/core/packet_delay.cpp:1093-1119 | Horizons move to the output; false, with nothing changed, exactly when it regresses a horizon or has no time base. |
| PacketDelayEngine.PacketDelay.OrderingDtsLocked | src/core/packet_delay.cpp:1121-1132 | The shifted DTS a packet is ordered by, none when it has no time base or overflows. |
| PacketDelayEngine.PacketDelay.PruneLocked | src/core/packet_delay.cpp:1277-1303 | Every lane loses what precedes the last anchor older than the retention window, the counters following. |
| PacketDelayEngine.PacketDelay.CutPlanLocked | src/core/packet_delay.cpp:1319-1375 | A plan exactly when every required lane can be cut, naming the packet each lane starts at. |
| PacketDelayEngine.PacketDelay.ApplyCutPlanLocked | src/core/packet_delay.cpp:1377-1398 | Every planned lane starts at its packet, other lanes are gone, the counters follow. |
| PacketDelayEngine.PacketDelay.EmitLocked | src/core/packet_delay.cpp:1241-1250 | A packet that left the buffer is shifted, noted and handed out, or an error is entered and nothing handed out. |
| PacketDelayEngine.PacketDelay.DrainOnceLocked | src/core/packet_delay.cpp:1147-1252 | One turn of the drain loop releases the packet the rules select, or stops. |
| PacketDelayEngine.PacketDelay.DrainReadyLocked | src/core/packet_delay.cpp:1134-1254 | The drain loop releases what the specified drain releases, in that order, and leaves its state. |
| PacketDelayEngine.PacketDelay.DrainReturnPendingLocked | src/core/packet_delay.cpp:1256-1275 | The pending list is released oldest first until it is empty or a packet cannot be emitted. |
| PacketDelayEngine.PacketDelay.HasRoomLocked | src/core/packet_delay.cpp:913-927 | True exactly when no checked addition overflows and none of the limits would be exceeded. |
| PacketDelayEngine.PacketDelay.AppendLocked | src/core/packet_delay.cpp:929-942 | The packet is stored with its accounting, the lane's newest DTS and arrival updated. |
| PacketDelayEngine.PacketDelay.EnqueueLocked | src/core/packet_delay.cpp:880-943 | Admission, epoch offset, pruning, limits and storage, with the error of each step. |
| PacketDelayEngine.PacketDelay.StartReturnLocked | src/core/packet_delay.cpp:1400-1422 | Opens the return and lists the video lanes that must offer a keyframe. |
| PacketDelayEngine.PacketDelay.ObserveReturnKeyframeLocked | src/core/packet_delay.cpp:1424-1436 | A keyframe that arrives after the request becomes its lane's cut. |
| PacketDelayEngine.PacketDelay.BuildReturnPendingLocked | src/core/packet_delay.cpp:1449-1534 | The queues are replaced by the merged live list in a new epoch; false exactly when none exists. |
| PacketDelayEngine.PacketDelay.RequestActivate | src/core/packet_delay.cpp:342-361 | New state and answer of an activation request, all cases. |
| PacketDelayEngine.PacketDelay.BeginFilling | src/core/packet_delay.cpp:363-384 | New state and answer, keeping the buffer only for a retarget of a running delay. |
| PacketDelayEngine.PacketDelay.RequestChangeDelay | src/core/packet_delay.cpp:386-430 | New state and answer in each of the six states. |
| PacketDelayEngine.PacketDelay.ReadyForDelayed | src/core/packet_delay.cpp:432-436 | True exactly when filling with a complete cut plan. |
| PacketDelayEngine.PacketDelay.CommitDelayed | src/core/packet_delay.cpp:438-469 | New state and answer; a failing epoch is an error. |
| PacketDelayEngine.PacketDelay.RequestCancel | src/core/packet_delay.cpp:471-498 | New state and answer: back to the running delay, or a return to live. |
| PacketDelayEngine.PacketDelay.RequestDeactivate | src/core/packet_delay.cpp:500-513 | New state and answer of a deactivation. |
| PacketDelayEngine.PacketDelay.ReadyForReturn | src/core/packet_delay.cpp:515-526 | True exactly when returning with a cut on every awaited lane. |
| PacketDelayEngine.PacketDelay.CommitReturn | src/core/packet_delay.cpp:528-551 | New state and answer; a failing live epoch is an error. |
| PacketDelayEngine.PacketDelay.FinishReturn | src/core/packet_delay.cpp:553-570 | New state and answer; only a drained, committed return may finish. |
| PacketDelayEngine.PacketDelay.ReportError | src/core/packet_delay.cpp:572-576 | An outside error empties the engine. |
| PacketDelayEngine.PacketDelay.Recover | src/core/packet_delay.cpp:578-592 | New state and answer; only Error is recovered from. |
| PacketDelayEngine.PacketDelay.Push | src/core/packet_delay.cpp:594-653 | Output and new state for every state, fail-open on a clock regression or a rejected packet; the invariant holds after. |
| PacketDelayEngine.PacketDelay.Poll | src/core/packet_delay.cpp:655-685 | Output and new state for every state; the invariant holds after. |
| PacketDelayEngine.PacketDelay.PruneNow | src/core/packet_delay.cpp:687-692 | A clock step and a prune. |
| PacketDelayEngine.PacketDelay.ObserveExternalOutput | src/core/packet_delay.cpp:694-709 | Horizons follow an output that bypassed the engine; false exactly when it is refused, which is an error. |
| SessionRealign.PickIsNaive | src/output-session.cpp:521-561 | For strictly rising video DTS the single pass with forward-only audio cursors picks exactly what the naive search picks, and nothing exactly when nothing is aligned. |
| SessionRealign.ChosenUnique | src/output-session.cpp:521-561 | The naive choice is unique. |
| SessionRealign.ChosenCovered | src/output-session.cpp:563-569 | With rising lanes the last guard never refuses a choice. |
| SessionRealign.CutAligned | src/output-session.cpp:570-580 | After the cut the video lane starts on the chosen keyframe, each active audio lane is nonempty and starts within one step and 2 ms at or after it, and no lane is longer. |
| SessionRealign.RealignCuts | src/output-session.cpp:482-583 | The whole realignment: untouched lanes unless drifted, the cut at the naive choice, or waiting when there is none. |
| SessionDrift.RealignExactly | src/output-session.cpp:482-583 | A realignment is carried out exactly when one is wanted or the next video packet comes a hole after the last, every active lane holds something, and some audio lane holds over 4 ms and over two steps more or less than the video lane; where none does the wish is dropped. |
| SessionContinuity.EveryVideoContinues | src/output-session.cpp:762-958 | Over every run with constant formats each video payload is its encoder's next one or a keyframe, unless a hold packet joined after a gap while returning from Filling or a realignment cut left no keyframe in front. |
| SessionContinuity.JoinExactly | src/output-session.cpp:935-937 | While returning from Filling a stored hold packet, once handed out, continues the chain if and only if it is a keyframe or the successor of the end of the lane, or of the last payload when the lane is dry. |
| SessionContinuity.DryHoldExactly | src/output-session.cpp:935-937 | After a dry hold lane has repeated its fallback, the next hold packet continues the chain if and only if it is a keyframe or the successor of that fallback. |
| SessionContinuity.CutExactlyContinues | src/output-session.cpp:570-583 | A cut hands out the new head of the lane at once, so the chain goes on if and only if that head is a keyframe or the next payload. |
| SessionPaced.EveryPacedContinues | src/output-session.cpp:762-958 | With live video DTS that rise within each connection no cut ever leaves the lane off a keyframe, so such runs continue unless a hold packet joins after a gap. |
| SessionWitness.DryHoldRun | src/output-session.cpp:935-937 | An intact run from a new session in which the delay is cancelled while filling, the hold lane runs dry, and the next hold packet breaks the chain. |
| SessionWitness.LostHoldRun | src/output-session.cpp:995-1006 | An intact run in which a hold packet that does not fit is lost while filling, and the one after it breaks the chain. |
| SessionWitness.BackwardTimeRun | src/output-session.cpp:570-583 | An intact run in which a live keyframe goes back in time and the cut at it hands out a packet that is neither a keyframe nor the next one. |
| SessionPaced.CutExactly | src/output-session.cpp:570-577 | A realignment cut starts the video lane at the chosen keyframe if and only if everything before it is earlier, which is what rising DTS provides. |
| SessionTimeline.EveryRunOrdered | src/output-session.cpp:602-645 | Between reconnects the shared offset is never negative and never decreases, every output carries its raw DTS plus the offset of its time, and every video presentation is noted. |
| SessionTimeline.RawOrderSurvives | src/output-session.cpp:602-645 | Two outputs of one connection in raw order leave in that order, on one lane or across lanes, unless an addition saturated. |
| SessionTimeline.TickOrderSurvives | src/output-session.cpp:602-645 | Two outputs in one time base whose ticks rise never leave in falling ticks. They leave in the same tick exactly when the ticks are adjacent, the earlier packet started an epoch and was rounded a tick above the offset it left, and the later one moved by no more than that offset. |
| SessionTimeline.TicksMeet | src/output-session.cpp:602-612 | Such a pair: 20 ms and another 20 ms at 30 ticks a second round up twice, 40 ms at once round up once. |
| SessionEpoch.EpochClears | src/output-session.cpp:614-633 | After an epoch start the payload's presentation is at least one frame duration above every video presentation noted before. |
| SessionEpoch.ReplacePresents | src/obs-packet.hpp:66-96 | The carrier keeps its own DTS and presents the payload with the payload's own composition offset. |
| SessionEpoch.RoomComposes | src/output-session.cpp:602-612 | Shifting a packet whose ticks have room keeps its composition offset. |
| SessionEpoch.HoldSplice | src/output-session.cpp:802-815 | The first hold payload clears everything presented before. |
| SessionEpoch.DelaySplice | src/output-session.cpp:858-867 | The first delayed payload clears everything presented before. |
| SessionEpoch.PlainRoom | src/output-session.cpp:602-612 | Tick counts and shifts of at most a quarter of the 64-bit range leave that room. |
| SessionEpoch.LiveSplice | src/output-session.cpp:817-836 | The resumed live payload keeps its composition offset and clears everything presented before. |
| SessionEpoch.UnderrunClears | src/output-session.cpp:922-926 | A repeated payload keeps its composition offset and clears everything presented before. |
| SessionSplices.StartClears | src/output-session.cpp:762-958 | Every way a live packet can start an epoch (first hold or delayed payload, realignment, underrun, full buffers, live again): the carrier leaves presenting its payload, composition offset kept, one frame above everything presented before; a packet that starts none leaves the offset alone. |
| SessionSplices.EveryStartClears | src/output-session.cpp:614-645 | Over every run, an epoch start presents at least one frame after every video output noted on its connection. |
| SessionDelayLine.DelayedStep | src/output-session.cpp:890-927 | Below the memory limit a Delayed packet takes no underrun branch, lengthens no lane, and hands out exactly the packet in front of what its lane keeps. |
| SessionDelayLine.CutDropsPrefix | src/output-session.cpp:570-577 | A realignment cut drops from a lane exactly the packets in front that are earlier than the origin. |
| SessionDelayLine.DelayLine | src/output-session.cpp:890-927 | Over every run of live packets, hold packets, maintenance and requests while Delayed, each lane hands out what it held and was given in order, each output late by the lane's length less what realignments have cut by then; nothing else shortens a lane. |
| SessionDelayLine.FixedDelay | src/output-session.cpp:890-927 | Without a cut the lane keeps its length and the i-th output is the packet that many places before the i-th input. |
| SessionSmooth.EverySmoothDelay | src/output-session.cpp:762-958 | From the request for a delay on, live input without holes in constant formats never causes a cut: once the delay runs each lane keeps its length and hands out exactly what came that many packets earlier. |
| SessionReturnLine.ReturnLine | src/output-session.cpp:928-953 | While a delay is being turned off each lane hands out what it held and what still joined it, in order and one for each live packet. |
| SessionReturnLine.ReturningStep | src/output-session.cpp:928-953 | A live packet that does not end that return joins its lane unless memory ran out once, and is exchanged for the front of it; a lane with nothing that fits fails the return. |
| SessionReturnLine.SourceExactly | src/output-session.cpp:704-737 | A delayed packet handed out is noted as the last of its lane, and a hole before it asks for a realignment. |
| SessionHoldLine.EveryHoldLine | src/output-session.cpp:762-1043 | From the request for a delay on, on every lane: the preroll is the newest part of what the hold encoder sent for it, and what is handed out from the hold is, in order and once each, that and what joined it since; the rest is still buffered. |
| SessionHoldLine.HoldLine | src/output-session.cpp:838-953 | So it is over any run while the hold stands in, from any state of it. |
| SessionHoldLine.LiveServed | src/output-session.cpp:685-740 | While the hold goes on or starts, a live packet is exchanged for the front of its hold lane; a fallback stands in only where that lane is empty or has another format, and no other lane moves. |
| SessionHoldLine.ServesGoesOn | src/output-session.cpp:838-953 | A lane that can serve a live packet does, and the hold goes on, unless the packet ends the fill or the return. |
| SessionHoldLine.HoldJoins | src/output-session.cpp:960-1009 | While the hold goes on a hold packet joins the end of its lane if all lanes together stay within the limit, else the fill is abandoned. |
| SessionHoldLine.PrerollJoins | src/output-session.cpp:960-1043 | During the preroll the first keyframe restarts the lanes at its time, each packet joins its lane, and audio lanes keep their newest 4096. |
| SessionSteady.EveryRunSteady | src/output-session.cpp:762-958 | Over every run with constant live formats the lanes keep them and only a return carries an error. |
| SessionSteady.EveryDelayLine | src/output-session.cpp:890-927 | Every Delayed state that a new session reaches under constant formats is such a delay line, over everything that goes on in it. |
| SessionSteady.EveryFixedDelay | src/output-session.cpp:890-927 | Between realignments that delay is a fixed number of packets. |
| SessionDelayLine.EveryRunFillHead | src/output-session.cpp:801-889 | In every reachable Filling state a nonempty video lane starts with the keyframe at the fill start. |
| SessionDelayLine.FirstDelayed | src/output-session.cpp:853-867 | One step: the first delayed video is that keyframe, at least the target old. |
| SessionSteady.EveryFirstDelayed | src/output-session.cpp:853-867 | Over every run with constant live formats the first delayed packet is the keyframe that began the fill, at least the target old. |
| SessionTarget.FirstAsAsked | src/output-session.cpp:853-867 | That keyframe came at least the seconds of the last accepted request before the packet it stands in for. |
| SessionTarget.EveryTarget | src/output-session.cpp:172-254 | Over every run the target and the active lanes are those of the last accepted request. |
| SessionTarget.RequestStarts | src/output-session.cpp:172-254 | An accepted request leaves nothing of an earlier delay behind; any other changes nothing. |
| SessionCadence.FillEndsExactly | src/output-session.cpp:853-867 | With room for the packet a fill ends in the delay if and only if a video packet comes the target or more after the one that began it. |
| SessionCadence.FillStartsExactly | src/output-session.cpp:801-815 | The hold takes over if and only if a live keyframe comes while the hold starts on a keyframe and, on every lane of the output, reaches half a second from there and has the live format; until then packets pass. |
| SessionCadence.EveryFillCovered | src/output-session.cpp:667-683 | Over every run, when a fill starts, the hold on every lane of the output reaches at least half a second past the keyframe that it opens on. |
| SessionCadence.PrerollFailsExactly | src/output-session.cpp:960-1026 | The preroll fails if and only if the hold is full, a lane of the output has two formats, or the first keyframe is not compatible. |
| SessionCadence.CadenceExactly | src/output-session.cpp:451-480 | What a live packet tells of its lane: its step, once known for good, else the frame time in whole microseconds, the audio step or the distance to the one before; a hole before it asks for a realignment. |
| SessionBytes.EveryRunCounted | src/output-session.cpp:438-449 | In every reachable state both byte counters are the exact sums over their queues and within their limits, so no subtraction is ever clamped. |
| SessionSearch.CheckFormats | src/output-session.cpp:647-665 | Compatibility and completeness of the lane formats, lane by lane. |
| SessionSearch.IsPrerollReady | src/output-session.cpp:667-683 | The preroll is ready exactly when the hold starts on a keyframe and every required lane reaches past the preroll. |
| SessionSearch.MeasureLanes | src/output-session.cpp:494-513 | Readiness, the latest head and the drift of the active lanes. |
| SessionSearch.ProbeAll | src/output-session.cpp:530-547 | The cursors move, in place, to the first packet at or after a candidate; whether all lanes continue there. |
| SessionSearch.ScanGops | src/output-session.cpp:522-561 | The loop over the video lane with its in-place cursors computes the single-pass search. |
| SessionSearch.MeasureStep | src/output-session.cpp:451-480 | The nominal or observed step of a lane and whether the packet leaves a hole. |
| SessionSearch.CutLanes | src/output-session.cpp:570-577 | Everything before the origin is popped from every lane and counted off with a floor of zero. |
| SessionEngine.OutputSession.constructor | src/output-session.cpp:76-81 | A new session is in Bypass with empty lanes. |
| SessionEngine.OutputSession.BeginTimelineEpochLocked | src/output-session.cpp:614-633 | Offset and carrier move forward just enough for the payload to clear the last presentation. |
| SessionEngine.OutputSession.NoteEmittedVideoLocked | src/output-session.cpp:635-645 | The highest video presentation is kept. |
| SessionEngine.OutputSession.NotePrimaryCadenceLocked | src/output-session.cpp:451-480 | Last raw DTS and step of the lane, and the request to realign after a hole. |
| SessionEngine.OutputSession.BufferPrimary | src/output-session.cpp:438-449 | The carrier is stored under its raw DTS; false, with nothing stored, exactly when it does not fit. |
| SessionEngine.OutputSession.ReplaceFromPrimary | src/output-session.cpp:685-740 | The delayed head, else a compatible fallback, is swapped into the carrier; holes in the source ask for realignment. |
| SessionEngine.OutputSession.ReplaceFromHold | src/output-session.cpp:685-740 | The hold head, else a compatible fallback, is swapped into the carrier. |
| SessionReturn.ErrorReturnLands | src/output-session.cpp:1072-1080 | However long an error return waits, each carrier has the fallback payload of its side or its own, and the first live keyframe leaves as itself and ends in Error. |
| SessionEngine.OutputSession.RealignPrimaryLocked | src/output-session.cpp:482-583 | The specified realignment, cut and epoch. |
| SessionEngine.OutputSession.FillLocked | src/output-session.cpp:838-889 | A packet while Filling: hold payload, first delayed payload or the memory limit. |
| SessionEngine.OutputSession.DelayLocked | src/output-session.cpp:890-927 | A packet while Delayed: delayed payload or the memory limit. |
| SessionEngine.OutputSession.ReturnLocked | src/output-session.cpp:928-953 | A packet while returning: error fallback, hold payload or delayed payload. |
| SessionEngine.OutputSession.GoLiveLocked | src/output-session.cpp:817-836 | A live keyframe ends the return. |
| SessionEngine.OutputSession.ProcessPrimaryPacket | src/output-session.cpp:762-958 | One live packet in any state: the rewritten carrier and the whole new state. |
| SessionEngine.OutputSession.NoteHoldLocked | src/output-session.cpp:972-994 | The first keyframe restarts the hold lanes; fallbacks are refreshed. |
| SessionEngine.OutputSession.TrimHoldLocked | src/output-session.cpp:1033-1039 | Audio preroll keeps its newest packets only. |
| SessionEngine.OutputSession.ReceiveHoldPacket | src/output-session.cpp:960-1043 | One hold packet in any state. |
| SessionEngine.OutputSession.RequestDelayLocked | src/output-session.cpp:172-254 | Starts a delay; true exactly for 1 to 300 seconds, from Bypass or Error, with a hold stream that starts. |
| SessionEngine.OutputSession.RequestBypassLocked | src/output-session.cpp:256-282 | Back to live at once, or at the next live keyframe. |
| SessionReturn.ReconnectedFresh | src/output-session.cpp:349-368 | After a reconnect all live packets pass unchanged, their times included, and the state stays as it is until another delay is requested. |
| SessionReturnLine.RetireExactly | src/output-session.cpp:302-323 | Maintenance frees everything once live or failed, the hold once the delay runs, and nothing else. |
| SessionEngine.OutputSession.Maintenance | src/output-session.cpp:302-323 | Buffers the state no longer needs are dropped. |
| PcmRing.EveryInterleaving | src/core/audio_spsc_fifo.hpp:79-110 | Under every interleaving of producer and consumer steps the indices stay within one capacity and the popped values are a prefix of the committed ones. |
| PcmRing.EveryRun | src/core/audio_spsc_fifo.hpp:79-126 | So it is for every interleaving from an empty ring on. |
| PcmRing.OwnersApart | src/core/audio_spsc_fifo.hpp:79-103 | A slot being written is never the slot being read. |
| PcmRing.StepSound | src/core/audio_spsc_fifo.hpp:79-103 | Each single step keeps the ring sound. |
| PcmCursor.Consume | src/core/audio_spsc_fifo.hpp:143-243 | The consumer loop terminates, never writes past the window and keeps the source offset inside a block. |
| PcmCursor.ConsumeContinues | src/core/audio_spsc_fifo.hpp:143-243 | For arbitrary blocks a window only grows to the right and its source frames follow, in order and once each, all frames of windows before it. |
| PcmCursor.DebtConserved | src/core/audio_spsc_fifo.hpp:212-222 | In one turn, while frames to skip are owed, every frame of progress pays one and nothing is written; the first frame written after is the one just past the debt. |
| PcmMoves.EveryMoveRises | src/core/audio_spsc_fifo.hpp:143-243 | Over any interleaving of turns, windows and blocks that arrive, in the middle of a call too, each source frame is heard at most once and in order. |
| PcmMoves.EveryStartRises | src/core/audio_spsc_fifo.hpp:143-243 | From the start on, with arbitrary blocks that arrive at any point, each source frame is heard at most once and in order. |
| PcmMoves.DebtSinceLoaded | src/core/audio_spsc_fifo.hpp:188-229 | From the turn that loads a debt on, over any turns, arrivals and windows, frames skipped plus frames still owed are the debt and only silence is written; the first frame heard is the one just past it. |
| PcmMoves.ConsumeIsMoves | src/core/audio_spsc_fifo.hpp:143-243 | A whole call is such a sequence of turns. |
| PcmCursor.DebtLoaded | src/core/audio_spsc_fifo.hpp:189-200 | A newly loaded debt starts at its full magnitude. |
| PcmDrift.NoDrift | src/core/audio_spsc_fifo.hpp:143-243 | For contiguous usable blocks that arrive at any point, also inside a call, and windows of any sizes: as long as no turn finds the ring empty after the start, all that was handed out, padding of short windows included, is silence for the windows asked for too early and from there on exactly the source shifted by the first alignment. |
| PcmDrift.EveryWindowFull | src/core/audio_spsc_fifo.hpp:143-243 | Every call hands out exactly as many frames as asked; meanwhile its window is full, or wholly silent because there was not enough to start with. |
| PcmDrift.DryExactly | src/core/audio_spsc_fifo.hpp:169-180 | A turn runs dry exactly when the cursor has started and finds nothing buffered. |
| PcmDrift.TurnsConsume | src/core/audio_spsc_fifo.hpp:143-243 | With nothing arriving meanwhile the turns of a call are the whole loop, and its window is padded with silence. |
| PcmDrift.FramesToNsIs | src/core/audio_spsc_fifo.hpp:282-288 | The split conversion is the exact floor. |
| PcmDrift.ScheduledContiguous | src/core/audio_spsc_fifo.hpp:314-321 | Timestamps base + floor(k * 1024 * 1e9 / rate) are always judged contiguous for rates up to 5e8. |
| PcmDrift.ContiguousExactly | src/core/audio_spsc_fifo.hpp:314-321 | All such timestamps are judged contiguous if and only if the rate is at most 5e8 or a block lasts a whole number of nanoseconds. |
| PcmCorrection.GapIsFilled | src/core/audio_spsc_fifo.hpp:188-229 | After a usable block that does not continue the one before, over any turns, arrivals and windows that do not run dry: what is handed out is silence, and the frames left out are those before the next, for the nearest whole number of frames to the time the block is late or early, by its timestamp and the one expected. |
| PcmCorrection.StartIsAligned | src/core/audio_spsc_fifo.hpp:188-229 | From a start, silence or skipped frames are as many as the first block's own alignment says. |
| PcmCorrection.TurnStartsOver | src/core/audio_spsc_fifo.hpp:169-186 | Running dry without a debt, or a refused block, makes the next block such a start. |
| PcmCorrection.FramesNear | src/core/audio_spsc_fifo.hpp:290-302 | A duration is converted to the nearest whole number of frames while that fits 64 bits. |
| PcmCorrection.ApartBreaks | src/core/audio_spsc_fifo.hpp:314-321 | A block a frame or more off is never taken for a continuation. |
| PcmCorrection.EveryLoopExpects | src/core/audio_spsc_fifo.hpp:254-265 | Over every run the timestamp expected next is that of the last used-up block and its length. |
| PcmStart.WaitsExactly | src/core/audio_spsc_fifo.hpp:158-168 | The cursor waits if and only if it has not started and nothing, or a single block that is not late, is buffered. |
| PcmStart.RefusesExactly | src/core/audio_spsc_fifo.hpp:181-187 | A block is passed over if and only if it has no timestamp, another rate or is not accepted, and the cursor then starts over. |
| PcmEngine.PcmSpscFifo.constructor | src/core/audio_spsc_fifo.hpp:75-77 | An empty ring. |
| PcmEngine.PcmSpscFifo.BeginPush | src/core/audio_spsc_fifo.hpp:79-88 | The slot after the contents, none and a drop counted when full. |
| PcmEngine.PcmSpscFifo.Fill | src/core/audio_spsc_fifo.hpp:79-88 | Writing that slot changes nothing the consumer can see. |
| PcmEngine.PcmSpscFifo.CommitPush | src/core/audio_spsc_fifo.hpp:90-90 | The filled slot becomes the last of the contents. |
| PcmEngine.PcmSpscFifo.BeginPop | src/core/audio_spsc_fifo.hpp:92-101 | The slot of the oldest block, none and an underrun counted when empty. |
| PcmEngine.PcmSpscFifo.CommitPop | src/core/audio_spsc_fifo.hpp:103-103 | The oldest block is gone. |
| PcmEngine.PcmSpscFifo.Reset | src/core/audio_spsc_fifo.hpp:118-126 | An empty ring. |
| PcmEngine.PcmWindowCursor.constructor | src/core/audio_spsc_fifo.hpp:330-336 | A cursor without alignment or continuity. |
| PcmEngine.PcmWindowCursor.FinishBlockLocked | src/core/audio_spsc_fifo.hpp:254-265 | A used-up block is popped and the next expected timestamp kept. |
| PcmEngine.PcmWindowCursor.CopyBlockLocked | src/core/audio_spsc_fifo.hpp:231-241 | As many frames of the front block as fit are written. |
| PcmEngine.PcmWindowCursor.SkipBlockLocked | src/core/audio_spsc_fifo.hpp:212-229 | Owed frames are skipped, then frames are written. |
| PcmEngine.PcmWindowCursor.QuietLocked | src/core/audio_spsc_fifo.hpp:202-210 | A late block leaves silence. |
| PcmEngine.PcmWindowCursor.AlignBlockLocked | src/core/audio_spsc_fifo.hpp:188-229 | A discontinuity loads its correction, then silence, skip and copy. |
| PcmEngine.PcmWindowCursor.PrimeLocked | src/core/audio_spsc_fifo.hpp:158-168 | The first block waits for one more behind it unless it starts late. |
| PcmEngine.PcmWindowCursor.TurnLocked | src/core/audio_spsc_fifo.hpp:150-242 | One turn of the loop. |
| PcmEngine.PcmWindowCursor.Consume | src/core/audio_spsc_fifo.hpp:143-243 | The loop fills the window exactly as specified and leaves the rest of it untouched. |
| Multistream.EveryRunKept | src/core/multistream-queue.hpp:27-77 | Over every run the byte count is the exact sum, both caps hold, and what was accepted since the last reset is what was delivered plus what is queued. |
| Multistream.EveryDelivery | src/multistream-transport.cpp:597-614 | What is delivered since a reset is a prefix of what was accepted, in time, from a video keyframe whose DTS is the epoch, with a DTS delta that is never negative. |
| Multistream.EveryPushAnswered | src/core/multistream-queue.hpp:35-61 | Over every run a packet with data waits for a keyframe until one was accepted, is refused as older than that keyframe, or is accepted exactly when bytes, count, waiting time of the oldest and true media span stay within the limits; otherwise the queue is emptied. |
| Multistream.EveryPopAnswered | src/core/multistream-queue.hpp:63-77 | A pop hands out the oldest packet exactly when it has not waited too long, else the queue is emptied. |
| Multistream.SendsDifference | src/multistream-transport.cpp:517-525 | A packet is sent exactly when it is no older than the epoch and both true differences fit 64 bits, and then with them, though the code subtracts unsigned. |
| Multistream.MultistreamQueue.Reset | src/core/multistream-queue.hpp:27-33 | An empty queue that waits for a keyframe. |
| Multistream.MultistreamQueue.Push | src/core/multistream-queue.hpp:35-61 | All five answers and the new queue; an overflow empties it. |
| Multistream.MultistreamQueue.Pop | src/core/multistream-queue.hpp:63-77 | The oldest packet, or nothing and an emptied queue when it is stale. |
| FlvSplitter.ChunkingInvisible | src/multistream-transport.cpp:372-406 | Two accepted chunkings of the same bytes write the same tags and keep the same pending bytes. |
| FlvSplitter.NothingLost | src/multistream-transport.cpp:372-406 | Header, written tags and pending bytes are exactly the bytes fed, every written tag is as long as its header says, and no complete tag stays pending. |
| FlvSplitter.ParseResumes | src/multistream-transport.cpp:388-405 | Splitting may stop anywhere and resume with what was left. |
| FlvSplitter.LengthInHeader | src/multistream-transport.cpp:388-392 | The length of a tag depends on its first eleven bytes only. |
| FlvEncoding.RoundTrip | src/multistream-transport.cpp:372-406 | For every list of tags built as type byte, payload length in base 256, seven more header bytes, payload and back pointer, and every accepted chunking of the file header and those tags: exactly those tags are written and nothing stays pending. |
| FlvEncoding.EveryStreamCut | src/multistream-transport.cpp:372-406 | So it is at every moment of such a stream: the tags complete so far are written and the begun one is pending. |
| FlvEncoding.TooLongRefused | src/multistream-transport.cpp:388-394 | A tag beyond the limit ends the stream in an error once its header is there. |
| FlvEncoding.OtherRefused | src/multistream-transport.cpp:381-386 | So does anything that does not start as an FLV file. |
| FlvSplitter.Destination.WriteTags | src/multistream-transport.cpp:388-401 | The loop writes the complete tags of the pending bytes until one is refused. |
| FlvSplitter.Destination.WriteFlv | src/multistream-transport.cpp:372-406 | One callback: answer, written tags and pending bytes, with every error path. |
| PreviewHistory.TrimmedAnswers | src/preview-capture.cpp:76-84 | With the cap unhit, every question at or after the largest cutoff used, pin included, gets the answer of the untrimmed history. |
| PreviewHistory.EveryRunAnswers | src/preview-capture.cpp:145-164 | Over every such run the kept frames are a tail of the full history reaching back past the largest cutoff. |
| PreviewHistory.CapUnreached | src/preview-capture.cpp:145-164 | Frames an interval apart never fill the cap while nothing is pinned. |
| PreviewHistory.PinnedAnswerKept | src/preview-capture.cpp:156-163 | A cap hit while something is pinned leaves the pinned answer alone. |
| PreviewHistory.ShownStays | src/preview-capture.cpp:59-74 | Once told that a delayed frame is emitted, or that playback is or was paused on the hold with the buffer starting there, the frame for that time stays the same however many newer samples come, the cap included. |
| PreviewTiming.HistoryCovers | src/core/preview-timing.hpp:73-78 | The history kept is at least three seconds longer than the delay. |
| PreviewTiming.HistoryWraps | src/core/preview-timing.hpp:73-78 | For the last three values of the unsigned type the sum wraps and the history is too short for any delay. |
| PreviewTiming.TargetAnswered | src/core/preview-timing.hpp:68-78 | The frame the preview asks for is the one the untrimmed history would give. |
| PreviewAsked.TargetExactly | src/core/preview-timing.hpp:60-71 | The time asked for is the delay back from now to the nanosecond, or the start of the clock. |
| PreviewAsked.DelayExactly | src/core/preview-timing.hpp:60-66 | A delay of up to an hour counts to the nanosecond, a longer one as an hour, anything else as none. |
| PreviewAsked.DrawExactly | src/preview-capture.cpp:92-125 | Over every run a callback stages a sample exactly when its frame is new, playback was not last told to be paused, half a second has passed, the clock stepped back or nothing was sampled yet, and the copy was made. |
| PreviewAsked.StagedIsSaved | src/preview-capture.cpp:127-164 | A staged frame that is read back is the newest of the history, unless a pinned history is full. |
| PreviewTiming.EveryRunPaced | src/preview-capture.cpp:92-125 | Over every run of the capture on an advancing clock with nothing protected, kept frames stay an interval apart. |
| PreviewTiming.CapNeverReached | src/preview-capture.cpp:127-164 | Such a run never drops or refuses a frame for the cap. |
| PreviewTiming.SaveSpacedExactly | src/preview-capture.cpp:145-164 | While nothing is protected, a saved frame leaves a spaced history spaced if and only if it restarts the history or is an interval past the newest frame, and then it never meets the cap. |
| PreviewTiming.SampleSpacedExactly | src/preview-capture.cpp:92-164 | A sampled frame, saved when the next one is drawn, keeps the frames spaced if and only if its time fits; a clock step back forces a sample, so it is the step's target that has to fit. |
| PreviewTiming.StepBackSamples | src/core/preview-timing.hpp:37-46 | Every clock step back of a running capture is sampled, whatever was sampled just before. |
| PreviewTiming.EverySoberRun | src/preview-capture.cpp:92-164 | Wherever the clock goes, runs whose samples fit keep their frames an interval apart. |
| PreviewTiming.SoberCap | src/preview-capture.cpp:155-163 | Such a run never meets the cap. |
| PreviewTiming.CrowdingFillsCap | src/preview-capture.cpp:155-163 | For every history length there is a run of short backward steps that fills the cap with nothing protected. |
| PreviewTiming.BackwardStepCrowds | src/core/preview-timing.hpp:37-53 | A backward clock step shorter than the interval resets the cadence but not the history: frames two nanoseconds apart. |
| PreviewEngine.PreviewCadence.BeginFrame | src/core/preview-timing.hpp:37-45 | True once per frame; a step back forgets the last sample. |
| PreviewEngine.PreviewCadence.Sampled | src/core/preview-timing.hpp:53-53 | The next sample is due exactly an interval after this one, clock steps back aside. |
| PreviewEngine.PreviewCapture.SetHistorySeconds | src/preview-capture.cpp:54-57 | The length kept is the admissible length, from 3 to 3603 seconds, nearest to the one asked for. |
| PreviewEngine.PreviewCapture.SetPlaybackState | src/preview-capture.cpp:59-74 | Protected time, pin and suspension for every playback state. |
| PreviewEngine.PreviewCapture.AnswerAt | src/preview-capture.cpp:76-84 | The binary search answers with the newest frame at or before the time. |
| PreviewEngine.PreviewCapture.TrimTo | src/preview-capture.cpp:154-155 | Frames are popped while the next one is still at or before the cutoff. |
| PreviewEngine.PreviewCapture.SaveFrame | src/preview-capture.cpp:145-164 | A frame enters the history: restart on a clock step back, cutoff, trim and cap. |
| PreviewEngine.PreviewCapture.ReadPendingFrame | src/preview-capture.cpp:127-164 | The staged frame is saved unless its readback failed. |
| PreviewEngine.PreviewCapture.CaptureFrame | src/preview-capture.cpp:92-125 | One rendered frame: read back, then sample when due and not suspended. |

## Left out

- Timestamps.DelayTicksRounds: about the rounded exact rational where the source rounds a `long double`.
- Timestamps.DurationTicksExceeds: about the next integer above the exact rational where the source takes the ceiling of the next representable `long double`.
- PacketDelayEngine.PacketDelay.constructor: configurations that the source rejects with an exception are excluded by its precondition.
- PacketDelayEngine.PacketDelay.CommitDelayed: the offsets that a failing epoch leaves behind depend on the iteration order of a hash map, so the contract only says that some such offsets exist; the state is Error either way.
- PacketDelayEngine.PacketDelay.CommitReturn: as above.
- PacketDelayEngine.PacketDelay.CreateOffsetsLocked: as above, nothing is said about the offsets when some front has none.
- PacketDelayInterleave.CommitNeverLate: output that bypasses the engine is not among the calls, since it may raise the horizon above what is still delayed; lanes that first appear while Delayed are not either.
- PacketDelayTwin.DelayGoesOn: calls in which the run without the request prunes something are not compared; `SameBufferExactly` shows that the buffers then differ.
- PacketDelayGate.KeyframeIsCut: for a positive target; without one the keyframe may leave in the same call.
- PacketDelayWaits.EveryRunSettles: about Delayed and a change being prepared; while returning the gate may stop the output as well, see `GateIsCut`.
- PacketDelayBuild.SortAll: inserts into a sorted list where the source calls `std::sort`; the result is the unique sorted list.
- PacketDelay: placeholder horizons with an invalid time base, which the source ignores wherever it reads them, are left out of the maps.
- PacketDelay: error texts, rejected, pruned and emitted counters, fill progress, metrics, 64-bit wrap of the sequence number, payload ownership, allocation failure.
- SessionContinuity.EveryVideoContinues: the runs in which the code breaks the chain are excluded, call by call; `JoinExactly` and `CutExactlyContinues` show that those calls break it.
- SessionSplices.StartClears: assumes that the times involved stay clear of the 64-bit limits, where the source saturates.
- SessionEngine.OutputSession: the fields are kept in one record that the methods update in place; OBS calls, whether the hold pipeline starts and whether it is bitstream-compatible are parameters.
- SessionEngine.OutputSession.Maintenance: the clean-up flag and the pipeline's stop are left out, so the clean-up may come at any time.
- SessionEngine.OutputSession.RequestDelayLocked: the two locked sections and the pipeline start are one step.
- SessionEngine.OutputSession: capture times, throughput, effective seconds, pause handling, logging, overflow of raw pts - dts, and the references held by `ObsPacket`.
- PcmEngine.PcmWindowCursor.Consume: as a method it sees the blocks queued when it starts; blocks that arrive during a call are covered by `NoDrift`, `EveryMoveRises` and `DebtSinceLoaded`, whose turns are those of this loop (`TurnsConsume`).
- PcmCorrection.GapIsFilled: for distances whose frames fit 64 bits, beyond which the source saturates.
- SessionCadence.CadenceExactly: the frame time is stated for a positive denominator and a duration that fits 64 bits in microseconds.
- PcmEngine.PcmSpscFifo: memory orders below the acquire and release steps, and wrap of the sequence numbers.
- PcmEngine: samples are frame numbers, channels and mixers are left out, the compatibility test is a flag of the block.
- Multistream: the mutex and the wake-up of the sender, connecting, deadlines and backoff, and the difference between a packet without data and one with empty data, both refused.
- FlvSplitter.Destination.WriteFlv: the network is a count of accepted tags; other `Destination` methods are left out.
- PreviewEngine.PreviewCapture.CaptureFrame: rendering, staging and conversion are parameters; images are numbers.
- PreviewTiming: seconds are exact reals or not finite.
- The choice of the preview's output, `DelayController`, `MultistreamController`, `HoldMediaHub`, `HoldPipeline`, audio preflight, encoder cloning, docks and settings: decision tables and lifecycle over foreign objects that would only add easy members.
