/** The packet delay as an object. */
module PacketDelayEngine {
  // Fields are updated in place by locked methods, each proved against the state machine on values.

  import opened Options
  import opened Timestamps
  import opened PacketTypes
  import opened PacketDelaySpec
  import opened PacketDelayStep
  import opened PacketDelayInvariant
  import opened PacketDelayMerge
  import opened PacketDelayKeep
  import opened PacketDelayRun
  import opened PacketDelayDecode
  import opened PacketDelayEpoch
  import opened PacketDelayScan
  import opened PacketDelayOffsets
  import opened PacketDelaySearch
  import opened PacketDelayResults
  import opened PacketDelayBuild
  import opened PacketDelayCounts

  class PacketDelay {
    const config: Config
    var mode: Mode
    var target: nat
    var pendingTarget: nat
    var previousTarget: nat
    var lastObserved: Option<i64>
    var fault: Option<Fault>
    var queues: Queues
    var pending: Queue
    var known: set<StreamKey>
    var active: set<StreamKey>
    var latest: map<StreamKey, Horizon>
    var seen: map<StreamKey, i64>
    var offsets: map<StreamKey, i64>
    var outputDts: map<StreamKey, Horizon>
    var outputPts: map<StreamKey, Horizon>
    var returnKeys: map<StreamKey, nat>
    var returnVideo: set<StreamKey>
    var returnRequested: Option<i64>
    var emitted: Option<Horizon>
    var preparingChange: bool
    var originDelayed: bool
    var returnFromDelayed: bool
    var returnCommitted: bool
    var counts: Counts
    var nextSequence: nat

    function Abs(): State
      reads this
    {
      State(mode, target, pendingTarget, previousTarget, lastObserved, fault, queues, pending, known, active, latest,
            seen, offsets, outputDts, outputPts, returnKeys, returnVideo, returnRequested, emitted, preparingChange,
            originDelayed, returnFromDelayed, returnCommitted)
    }

    ghost predicate Counted()
      reads this
    {
      counts == CountsOf(Abs())
    }

    /** Conservation: the counters are exactly the sums, on a well-formed state. */
    ghost predicate Valid()
      reads this
    {
      config.Valid() && Ok(config, Abs(), nextSequence) && Counted()
    }

    constructor (c: Config)
      requires c.Valid()
      ensures Valid() && config == c && Abs() == Initial(c) && nextSequence == 0
    {
      config := c;
      mode, target, pendingTarget, previousTarget := Bypass, 0, 0, 0;
      lastObserved, fault, queues, pending := None, None, map[], [];
      known, active := (set k | k in c.required :: Timeline(k)), {};
      latest, seen, offsets, outputDts, outputPts := map[], map[], map[], map[], map[];
      returnKeys, returnVideo, returnRequested, emitted := map[], {}, None, None;
      preparingChange, originDelayed, returnFromDelayed, returnCommitted := false, false, false, false;
      counts, nextSequence := Counts(0, 0, 0), 0;
      new;
      OkInitial(c);
      NoCounts(Abs());
    }

    // -------------------------------------------------------------------
    // Clearing, errors, the clock

    method ResetTransitionLocked()
      modifies `preparingChange, `originDelayed, `returnFromDelayed, `returnCommitted
      modifies `returnKeys, `returnVideo, `returnRequested
      ensures !preparingChange && !originDelayed && !returnFromDelayed && !returnCommitted
      ensures returnKeys == map[] && returnVideo == {} && returnRequested == None
    {
      preparingChange := false;
      originDelayed := false;
      returnFromDelayed := false;
      returnCommitted := false;
      returnKeys := map[];
      returnVideo := {};
      returnRequested := None;
    }

    method ClearDelayQueuesLocked()
      modifies `queues, `pending, `counts, `active, `latest, `seen
      ensures queues == map[] && pending == [] && counts == Counts(0, 0, 0)
      ensures active == {} && latest == map[] && seen == map[]
    {
      queues := map[];
      pending := [];
      counts := Counts(0, 0, 0);
      active := {};
      latest := map[];
      seen := map[];
    }

    method ClearAllLocked()
      modifies this
      ensures Abs() == ClearAll(old(Abs())) && Counted() && nextSequence == old(nextSequence)
    {
      ClearDelayQueuesLocked();
      ResetTransitionLocked();
      NoCounts(Abs());
    }

    method EnterErrorLocked(f: Fault)
      modifies this
      ensures Abs() == EnterError(old(Abs()), f) && Counted() && nextSequence == old(nextSequence)
    {
      ClearAllLocked();
      fault := Some(f);
      mode := Failed;
    }

    method ObserveTimeLocked(now: i64) returns (ok: bool)
      requires Counted()
      modifies this
      ensures ok == !old(Regresses(Abs(), now)) && Abs() == Observe(old(Abs()), now)
      ensures Counted() && nextSequence == old(nextSequence)
    {
      if lastObserved.Some? && now < lastObserved.value {
        EnterErrorLocked(ClockRegression);
        return false;
      }
      lastObserved := Some(now);
      ok := true;
    }

    // -------------------------------------------------------------------
    // Lanes and offsets

    method HasOldGenerationLocked(stream: StreamKey) returns (stale: bool)
      ensures stale == HasOldGeneration(Abs(), stream)
    {
      var lanes := queues.Keys;
      while lanes != {}
        invariant lanes <= queues.Keys
        invariant forall k :: k in queues && k !in lanes ==> !(Replaced(stream, k) && queues[k] != [])
        decreases |lanes|
      {
        var lane :| lane in lanes;
        if Replaced(stream, lane) && queues[lane] != [] {
          return true;
        }
        lanes := lanes - {lane};
      }
      stale := false;
    }

    method PrepareStreamLocked(stream: StreamKey) returns (ok: bool)
      requires Counted()
      modifies this
      ensures Checked(Abs(), ok) == PrepareStream(config, old(Abs()), stream)
      ensures Counted() && nextSequence == old(nextSequence)
    {
      hide DropReplaced, HasOldGeneration, CountsOf;
      var known_ := KnowTimelineLocked(Timeline(stream));
      if !known_ {
        EnterErrorLocked(TooManyTimelines);
        return false;
      }
      ghost var s1 := Abs();
      var stale := HasOldGenerationLocked(stream);
      if stale {
        EnterErrorLocked(GenerationChanged);
        return false;
      }
      ForgetReplacedLocked(stream);
      KeepsCounts(s1, stream);
      ok := true;
    }

    method EraseReplacedLocked(stream: StreamKey)
      modifies `active, `latest, `seen, `offsets, `returnKeys, `returnVideo
      ensures active == Stay(old(active), stream) && latest == Keep(old(latest), stream)
      ensures seen == Keep(old(seen), stream) && offsets == Keep(old(offsets), stream)
      ensures returnKeys == Keep(old(returnKeys), stream) && returnVideo == Awaited(old(returnVideo), stream)
    {
      active := Stay(active, stream);
      latest := Keep(latest, stream);
      seen := Keep(seen, stream);
      offsets := Keep(offsets, stream);
      var lost := exists k :: k in returnVideo && Replaced(stream, k);
      returnKeys := Keep(returnKeys, stream);
      returnVideo := if lost && stream.kind == Video then Stay(returnVideo, stream) + {stream} else Stay(returnVideo, stream);
    }

    method ForgetReplacedLocked(stream: StreamKey)
      modifies this
      ensures Abs() == DropReplaced(old(Abs()), stream) && counts == old(counts) && nextSequence == old(nextSequence)
    {
      hide Stay, Keep, Awaited;
      EraseReplacedLocked(stream);
    }

    /** Adds the lane's offset unless it has one; false when no offset is representable. */
    method CreateTimestampOffsetLocked(p: Packet, delay: nat) returns (ok: bool)
      requires HorizonsOk(Abs())
      modifies this`offsets
      ensures ok <==> p.stream in old(offsets) || EpochOffset(old(Abs()), p, delay).Some?
      ensures !ok || p.stream in old(offsets) ==> offsets == old(offsets)
      ensures ok && p.stream !in old(offsets) ==>
                offsets == old(offsets)[p.stream := EpochOffset(old(Abs()), p, delay).value]
    {
      hide RaisedTo, DelayTicks, HorizonsOk;
      if p.stream in offsets {
        return true;
      }
      KnownHorizons(Abs(), p);
      var base := DelayTicks(delay, p.tb);
      if base.None? {
        return false;
      }
      var offset := base.value;
      var lane := Timeline(p.stream);
      if AddTimestamp(p.dts, offset).None? {
        RaisedAtLeast(Abs(), p, delay);
        return false;
      }
      var byDts := RaiseIfKnown(p.dts, offset, p.tb.den, Find(outputDts, lane), true);
      if byDts.None? {
        RaisedAtLeast(Abs(), p, delay);
        return false;
      }
      var byGlobal := RaiseIfKnown(p.dts, byDts.value, p.tb.den, emitted, false);
      if byGlobal.None? {
        RaisedAtLeast(Abs(), p, delay);
        return false;
      }
      var byPts := RaiseIfKnown(p.pts, byGlobal.value, p.tb.den, Find(outputPts, lane), true);
      if byPts.None? {
        return false;
      }
      offset := byPts.value;
      if AddTimestamp(p.dts, offset).None? || AddTimestamp(p.pts, offset).None? {
        return false;
      }
      offsets := offsets[p.stream := offset];
      ok := true;
    }

    // -------------------------------------------------------------------
    // Timestamp epochs

    /** Gives every lane of a new epoch its own least offset. */
    method CreateOffsetsLocked(fronts: Fronts, delay: nat) returns (ok: bool)
      requires HorizonsOk(Abs()) && Keyed(fronts)
      modifies `offsets
      ensures ok <==> Offsettable(old(Abs()), fronts, delay)
      ensures ok ==> offsets == Shifts(old(Abs()), fronts, delay)
    {
      hide EpochOffset, HorizonsOk, Timeline;
      ghost var s0 := Abs();
      offsets := map[];
      var lanes := fronts.Keys;
      while lanes != {}
        invariant lanes <= fronts.Keys && offsets.Keys == fronts.Keys - lanes
        invariant forall k :: k in offsets ==> EpochOffset(s0, fronts[k], delay) == Some(offsets[k])
        decreases |lanes|
      {
        var lane :| lane in lanes;
        OffsetOfHorizons(s0, Abs(), fronts[lane], delay);
        HorizonsSame(s0, Abs());
        var created := CreateTimestampOffsetLocked(fronts[lane], delay);
        if !created {
          return false;
        }
        lanes := lanes - {lane};
      }
      ok := true;
    }

    /** The shift of the lane that is shifted furthest. */
    method CommonShiftLocked(fronts: Fronts) returns (common: Horizon)
      requires fronts != map[] && fronts.Keys <= offsets.Keys && TimeBased(fronts)
      ensures WidestOf(offsets, fronts, fronts.Keys, common)
    {
      hide Cmp;
      var lane :| lane in fronts.Keys;
      common := Horizon(offsets[lane], fronts[lane].tb);
      SameDen(common.value, common.value, common.tb.den);
      var lanes := fronts.Keys - {lane};
      while lanes != {}
        invariant lanes <= fronts.Keys && WidestOf(offsets, fronts, fronts.Keys - lanes, common) && common.tb.den > 0
        decreases |lanes|
      {
        var next :| next in lanes;
        WidestMore(offsets, fronts, fronts.Keys - lanes, common, next);
        var order := CompareTimestamps(offsets[next], fronts[next].tb, common.value, common.tb);
        if order > 0 {
          common := Horizon(offsets[next], fronts[next].tb);
        }
        assert fronts.Keys - lanes + {next} == fronts.Keys - (lanes - {next});
        lanes := lanes - {next};
      }
      assert fronts.Keys - lanes == fronts.Keys;
    }

    /** Raises every lane to the common shift; false when some lane's front cannot be shifted that far. */
    method RaiseLanesLocked(fronts: Fronts, common: Horizon) returns (ok: bool)
      requires TimeBased(fronts) && offsets.Keys == fronts.Keys && common.tb.Valid() && common.value >= 0
      requires forall k :: k in fronts ==> offsets[k] >= 0
      modifies `offsets
      ensures ok <==> forall k :: k in fronts ==> Shiftable(fronts[k], Raised(fronts, old(offsets), common, k))
      ensures ok ==> offsets.Keys == fronts.Keys
      ensures ok ==> forall k :: k in fronts ==> offsets[k] == Raised(fronts, old(offsets), common, k)
    {
      hide Shiftable, Max, CommonTicks;
      ghost var before := offsets;
      var lanes := fronts.Keys;
      while lanes != {}
        invariant lanes <= fronts.Keys && offsets.Keys == fronts.Keys
        invariant forall k :: k in lanes ==> offsets[k] == before[k]
        invariant forall k :: k in fronts && k !in lanes ==>
                    offsets[k] == Raised(fronts, before, common, k) && Shiftable(fronts[k], offsets[k])
        decreases |lanes|
      {
        var lane :| lane in lanes;
        var raised := RaiseToCommon(fronts[lane], offsets[lane], common);
        if raised.None? {
          return false;
        }
        offsets := offsets[lane := raised.value];
        lanes := lanes - {lane};
      }
      ok := true;
    }

    method UnifyTimestampOffsetsLocked(fronts: Fronts, ghost s: State, ghost delay: nat) returns (ok: bool)
      requires TimeBased(fronts) && Offsettable(s, fronts, delay) && offsets == Shifts(s, fronts, delay)
      modifies `offsets
      ensures ok <==> UnifiedOffsets(s, fronts, delay).Some?
      ensures ok ==> offsets == UnifiedOffsets(s, fronts, delay).value
    {
      hide EpochOffset, CommonTicks, UnifiedOffsets, WidestOf, Max, Shiftable;
      if fronts == map[] {
        NothingToUnify(s, delay);
        return true;
      }
      var common := CommonShiftLocked(fronts);
      UnifiedFrom(s, fronts, delay, common);
      CommonIsShift(s, fronts, delay, common);
      forall k | k in fronts ensures offsets[k] >= 0 {
        ShiftNonnegative(s, fronts[k], delay);
      }
      ok := RaiseLanesLocked(fronts, common);
    }

    method OpenEpochLocked(fronts: Fronts, delay: nat) returns (ok: bool)
      requires HorizonsOk(Abs()) && Keyed(fronts)
      modifies `offsets
      ensures ok <==> UnifiedOffsets(old(Abs()), fronts, delay).Some?
      ensures ok ==> offsets == UnifiedOffsets(old(Abs()), fronts, delay).value
    {
      hide EpochOffset, UnifiedOffsets, HorizonsOk;
      ghost var s0 := Abs();
      ok := CreateOffsetsLocked(fronts, delay);
      NotOffsettable(s0, fronts, delay);
      if ok {
        ok := UnifyTimestampOffsetsLocked(fronts, s0, delay);
      }
    }

    method BeginTimestampEpochLocked() returns (ok: bool)
      requires HorizonsOk(Abs()) && forall k :: k in queues ==> queues[k] != [] && queues[k][0].packet.stream == k
      modifies `offsets, `latest
      ensures ok <==> BeginEpoch(old(Abs())).Some?
      ensures ok ==> Abs() == BeginEpoch(old(Abs())).value
    {
      hide UnifiedOffsets, HorizonsOk, BackDts, BeginEpoch;
      ghost var s0 := Abs();
      ok := OpenEpochLocked(QueueFronts(queues), target);
      if !ok {
        NoEpoch(s0);
        return;
      }
      ghost var s1 := Abs();
      assert s1 == s0.(offsets := offsets);
      var dates := BackDates(queues, offsets, s1);
      if dates.None? {
        ghost var k :| k in queues && BackDts(s1, k).None?;
        EpochStops(s0, offsets, k);
        return false;
      }
      latest := dates.value;
      EpochBegins(s0, offsets, latest);
    }

    function OrderingDtsLocked(p: Packet): (dts: Option<Horizon>)
      reads this
      ensures dts == Ordering(Abs(), p)
    {
      DtsWith(offsets, p)
    }

    // -------------------------------------------------------------------
    // Pruning and cutting

    /** Drops the front of one lane and counts it off. */
    method DropPrefixLocked(k: StreamKey, keep: nat)
      requires k in queues && keep < |queues[k]| && Arrived(queues[k]) && Counted()
      modifies `queues, `counts
      ensures queues == old(queues)[k := old(queues)[k][keep..]] && Counted()
    {
      var rest, payload, retained := PrunePrefix(queues[k], keep);
      TailCounts(Abs(), k, queues[k], keep, payload, retained);
      counts := Counts(counts.packets - keep, counts.payload - payload, counts.retained - retained);
      queues := queues[k := rest];
    }

    method PruneLaneLocked(lane: StreamKey, now: i64, retention: int)
      requires lane in queues && queues[lane] != [] && Arrived(queues[lane]) && queues[lane][0].packet.stream == lane && Counted()
      modifies `queues, `counts
      ensures queues == old(queues)[lane := PruneQueue(config, old(queues)[lane], now, retention)] && Counted()
    {
      hide PruneQueue, CountsOf, KeepIndex;
      var keep := ScanKeep(config, queues[lane], now, retention);
      PrunedFrom(config, queues[lane], now, retention, keep);
      if |queues[lane]| >= 2 && keep > 0 {
        DropPrefixLocked(lane, keep);
      }
    }

    method PruneLocked(now: i64, ghost bound: nat)
      requires LanesOk(config, queues, bound, lastObserved) && Counted()
      modifies `queues, `counts
      ensures Abs() == Prune(config, old(Abs()), now) && Counted()
    {
      hide PruneQueue, CountsOf, Prune, LaneOk, KeepIndex;
      ghost var s0 := Abs();
      var retention := (if mode == Filling && originDelayed then Max(target, previousTarget) else target) + config.headroom;
      var lanes := queues.Keys;
      while lanes != {}
        invariant lanes <= queues.Keys == s0.queues.Keys && Counted()
        invariant forall k :: k in lanes ==> queues[k] == s0.queues[k]
        invariant forall k :: k in queues && k !in lanes ==> queues[k] == PruneQueue(config, s0.queues[k], now, retention)
        decreases |lanes|
      {
        var lane :| lane in lanes;
        LaneShape(config, s0, lane, bound);
        PruneLaneLocked(lane, now, retention);
        lanes := lanes - {lane};
      }
      PrunedAll(config, s0, now, queues);
    }

    /** The number of the packet each lane would be cut at, when the core may switch to delayed output. */
    method CutPlanLocked(now: i64, ghost bound: nat) returns (plan: Option<map<StreamKey, nat>>)
      requires LanesOk(config, queues, bound, lastObserved)
      ensures plan.Some? <==> PlanReady(config, Abs(), now)
      ensures plan.Some? ==> plan.value == Plan(config, Abs(), now)
    {
      hide LaneStart, LaneOk, PlanReady, Plan;
      NonemptyLanes(config, queues, bound, lastObserved);
      plan := PlanCuts(config, Abs(), now);
    }

    /** Shortens every lane to its start in the plan; a lane without one is dropped. */
    method ApplyCutPlanLocked(plan: map<StreamKey, nat>, now: i64, ghost bound: nat)
      requires LanesOk(config, queues, bound, lastObserved) && Counted() && plan == Plan(config, Abs(), now)
      modifies `queues, `counts
      ensures Abs() == ApplyPlan(config, old(Abs()), now) && Counted()
    {
      hide CountsOf, ApplyPlan, Plan, LanesOk, CutLane;
      ghost var s0 := Abs();
      CutLanesLocked(plan, now, s0, bound);
      CutAll(config, s0, now, queues);
    }

    method CutLanesLocked(plan: map<StreamKey, nat>, now: i64, ghost s: State, ghost bound: nat)
      requires queues == s.queues && LanesOk(config, s.queues, bound, s.lastObserved) && Counted()
      requires plan == Plan(config, s, now)
      modifies `queues, `counts
      ensures Counted()
      ensures forall k :: k in s.queues ==> (k in queues <==> k in plan)
      ensures forall k :: k in queues ==> CutLane(config, s, now, k, queues[k])
    {
      hide CountsOf, Plan, LanesOk, CutLane;
      var lanes := queues.Keys;
      while lanes != {}
        invariant Counted() && forall k :: k in lanes ==> k in s.queues && k in queues && queues[k] == s.queues[k]
        invariant forall k :: k in s.queues && k !in lanes ==> (k in queues <==> k in plan)
        invariant forall k :: k in queues && k !in lanes ==> k in s.queues && CutLane(config, s, now, k, queues[k])
        decreases |lanes|
      {
        var lane :| lane in lanes;
        CutLaneLocked(lane, plan, now, s, bound);
        lanes := lanes - {lane};
      }
    }

    method CutLaneLocked(k: StreamKey, plan: map<StreamKey, nat>, now: i64, ghost s: State, ghost bound: nat)
      requires k in queues && k in s.queues && queues[k] == s.queues[k] && Counted()
      requires LanesOk(config, s.queues, bound, s.lastObserved) && plan == Plan(config, s, now)
      modifies `queues, `counts
      ensures Counted() && (k in queues <==> k in plan) && (k in queues ==> CutLane(config, s, now, k, queues[k]))
      ensures queues == if k in queues then old(queues)[k := queues[k]] else old(queues) - {k}
    {
      hide LaneStart, CountsOf, Plan, LanesOk;
      LaneShape(config, s, k, bound);
      PlannedLane(config, s, now, k);
      if k in plan {
        var keep := FindSequence(queues[k], plan[k]);
        SequenceIndex(queues[k], LaneStart(config, s.queues[k], now, s.target).value, keep);
        DropPrefixLocked(k, keep);
      } else {
        DropLaneLocked(k);
      }
    }

    method DropLaneLocked(k: StreamKey)
      requires k in queues && Counted()
      modifies `queues, `counts
      ensures queues == old(queues) - {k} && Counted()
    {
      var rest, payload, retained := queues[k], 0, 0;
      while rest != []
        invariant payload + SeqWeight(rest, Payload) == SeqWeight(queues[k], Payload)
        invariant retained + SeqWeight(rest, Retained) == SeqWeight(queues[k], Retained)
        decreases |rest|
      {
        payload := payload + rest[0].packet.retained;
        retained := retained + rest[0].retained;
        rest := rest[1..];
      }
      DroppedCounts(Abs(), k);
      counts := Counts(counts.packets - |queues[k]|, counts.payload - payload, counts.retained - retained);
      queues := queues - {k};
    }

    // -------------------------------------------------------------------
    // Output timestamps

    method NoteOutputTimestampLocked(p: Packet) returns (ok: bool)
      requires HorizonsOk(Abs())
      modifies `emitted, `outputDts, `outputPts
      ensures ok <==> Note(old(Abs()), p).Some?
      ensures Abs() == if ok then Note(old(Abs()), p).value else old(Abs())
    {
      hide Cmp;
      if !p.tb.Valid() {
        return false;
      }
      if emitted.Some? {
        var order := CompareTimestamps(p.dts, p.tb, emitted.value.value, emitted.value.tb);
        if order < 0 {
          return false;
        }
      }
      var lane := Timeline(p.stream);
      var highest := HigherPts(Find(outputPts, lane), p);
      RecordOutputLocked(lane, Horizon(p.dts, p.tb), highest);
      ok := true;
    }

    method RecordOutputLocked(lane: StreamKey, dts: Horizon, pts: Horizon)
      modifies `emitted, `outputDts, `outputPts
      ensures emitted == Some(dts) && outputDts == old(outputDts)[lane := dts] && outputPts == old(outputPts)[lane := pts]
    {
      emitted := Some(dts);
      outputDts := outputDts[lane := dts];
      outputPts := outputPts[lane := pts];
    }

    method NoteLocked(p: Packet) returns (ok: bool)
      requires HorizonsOk(Abs()) && Counted()
      modifies `emitted, `outputDts, `outputPts
      ensures ok <==> Note(old(Abs()), p).Some?
      ensures Abs() == (if ok then Note(old(Abs()), p).value else old(Abs())) && Counted()
    {
      hide Note, CountsOf, HorizonsOk;
      ghost var s := Abs();
      ok := NoteOutputTimestampLocked(p);
      if ok {
        NotedQueues(s, p);
      }
      SameCounts(s, Abs());
    }

    /** Shifts, records and hands out one packet that has left the buffer. */
    method EmitLocked(item: Queued, now: i64, delayed: bool, onOverflow: Fault, onRegress: Fault) returns (out: seq<Output>)
      requires HorizonsOk(Abs()) && Counted()
      modifies this
      ensures Drained(Abs(), out) == Emit(old(Abs()), item, now, delayed, onOverflow, onRegress)
      ensures Counted() && nextSequence == old(nextSequence)
    {
      hide Note, EnterError, CountsOf, HorizonsOk;
      if item.packet.stream !in offsets {
        EnterErrorLocked(onOverflow);
        return [];
      }
      var shifted := Retimestamp(item.packet, offsets[item.packet.stream]);
      if shifted.None? {
        EnterErrorLocked(onOverflow);
        return [];
      }
      var noted := NoteLocked(shifted.value);
      if !noted {
        EnterErrorLocked(onRegress);
        return [];
      }
      out := [Output(shifted.value, item.receivedAt, now, item.sequence, delayed)];
    }

    // -------------------------------------------------------------------
    // Draining

    method PopLocked(k: StreamKey) returns (item: Queued)
      requires k in queues && queues[k] != [] && Counted()
      modifies `queues, `counts
      ensures item == old(queues)[k][0] && Abs() == PopFront(old(Abs()), k) && Counted()
    {
      hide CountsOf;
      item := queues[k][0];
      PopCounts(Abs(), k);
      var rest := queues[k][1..];
      queues := if rest == [] then queues - {k} else queues[k := rest];
      counts := Counts(counts.packets - 1, counts.payload - item.packet.retained, counts.retained - item.retained);
    }

    method DrainOnceLocked(now: i64, ghost bound: nat) returns (out: seq<Output>)
      requires config.Valid() && Ok(config, Abs(), bound) && Counted()
      modifies this
      ensures Drained(Abs(), out) == DrainOnce(config, old(Abs()), now)
      ensures Counted() && nextSequence == old(nextSequence)
    {
      hide Ok, CountsOf, DrainLane, LowestOf, EnterError, DrainOnce, Ordering;
      var found, low := FindStep(config, Abs(), now, bound);
      match found
      case NothingDue =>
        out := [];
      case Undatable =>
        EnterErrorLocked(InvalidQueuedTimeBase);
        out := [];
      case Found(lane) =>
        out := DrainLaneLocked(now, lane, low, bound);
    }

    method DrainLaneLocked(now: i64, k: StreamKey, low: Option<Horizon>, ghost bound: nat) returns (out: seq<Output>)
      requires config.Valid() && Ok(config, Abs(), bound) && Counted()
      requires k in queues && queues[k] != [] && Ordering(Abs(), queues[k][0].packet).Some?
      requires LowestOf(config, Abs(), now, active, low)
      modifies this
      ensures Drained(Abs(), out) == DrainLane(config, old(Abs()), now, k)
      ensures Counted() && nextSequence == old(nextSequence)
    {
      hide Ok, CountsOf, GateStops, GateErases, Watermark, Emit, EnterError, PopFront, LowestOf, Ordering;
      ghost var s0 := Abs();
      var dts := OrderingDtsLocked(queues[k][0].packet);
      var stops := CheckGate(config, Abs(), now, k);
      if stops {
        return [];
      }
      EraseReachedLocked(k);
      ghost var s1 := Abs();
      ErasedKeeps(config, s0, now, k, low, bound);
      var guard := CheckWatermark(config, Abs(), now, low, dts.value);
      match guard
      case Unrepresentable =>
        EnterErrorLocked(ReorderWindow);
        out := [];
      case Hold =>
        out := [];
      case Pass =>
        PoppedHorizons(s1, k);
        var item := PopLocked(k);
        out := EmitLocked(item, now, true, RetimestampOverflow, LatePacket);
    }

    method EraseReachedLocked(k: StreamKey)
      requires k in queues && queues[k] != [] && Counted()
      modifies `returnKeys
      ensures Abs() == GateErases(old(Abs()), k) && Counted()
    {
      hide CountsOf;
      if mode == Returning && !returnCommitted && k.kind == Video && k in returnKeys &&
         queues[k][0].sequence >= returnKeys[k] {
        returnKeys := returnKeys - {k};
      }
      SameCounts(old(Abs()), Abs());
    }

    /** Releases due packets in order until nothing may leave. */
    method DrainReadyLocked(now: i64, ghost bound: nat) returns (out: seq<Output>)
      requires config.Valid() && Ok(config, Abs(), bound) && Counted()
      modifies this
      ensures Drained(Abs(), out) == Drain(config, old(Abs()), now)
      ensures Counted() && nextSequence == old(nextSequence)
    {
      hide Ok, CountsOf, DrainOnce, Packets;
      out := [];
      ghost var fuel := Packets(Abs()) + 1;
      ghost var whole := DrainUpTo(config, Abs(), now, fuel);
      var more := true;
      while more
        invariant Ok(config, Abs(), bound) && Counted() && nextSequence == old(nextSequence)
        invariant more ==> fuel > Packets(Abs())
        invariant more ==> whole == Drained(DrainUpTo(config, Abs(), now, fuel).state, out + DrainUpTo(config, Abs(), now, fuel).out)
        invariant !more ==> whole == Drained(Abs(), out)
        decreases more, fuel
      {
        ghost var s := Abs();
        var one := DrainOnceLocked(now, bound);
        OkDrainOnce(config, s, now, bound);
        DrainStep(config, s, now, fuel, out, bound);
        out := out + one;
        if one == [] {
          more := false;
        } else {
          fuel := fuel - 1;
        }
      }
    }

    /** Releases the pending return, oldest first. */
    method DrainReturnPendingLocked(now: i64, ghost bound: nat) returns (out: seq<Output>)
      requires config.Valid() && Ok(config, Abs(), bound) && Counted()
      modifies this
      ensures Drained(Abs(), out) == DrainPending(old(Abs()), now)
      ensures Counted() && nextSequence == old(nextSequence)
    {
      hide Ok, CountsOf, Emit, EnterError;
      out := [];
      ghost var whole := DrainPending(Abs(), now);
      while pending != []
        invariant Ok(config, Abs(), bound) && Counted() && nextSequence == old(nextSequence)
        invariant whole == Drained(DrainPending(Abs(), now).state, out + DrainPending(Abs(), now).out)
        decreases |pending|
      {
        ghost var s := Abs();
        PendingStep(config, s, now, out, bound);
        var item := PopPendingLocked();
        var one := EmitLocked(item, now, false, ReturnRegression, ReturnRegression);
        out := out + one;
        if one == [] {
          return;
        }
      }
    }

    method PopPendingLocked() returns (item: Queued)
      requires pending != [] && Counted()
      modifies `pending, `counts
      ensures item == old(pending)[0] && Abs() == old(Abs()).(pending := old(pending)[1..]) && Counted()
    {
      hide CountsOf;
      item := pending[0];
      PendingCounts(Abs());
      counts := Counts(counts.packets - 1, counts.payload - item.packet.retained, counts.retained - item.retained);
      pending := pending[1..];
    }

    // -------------------------------------------------------------------
    // Enqueueing

    method EnqueueLocked(p: Packet, now: i64, sequence: nat) returns (ok: bool)
      requires config.Valid() && Ok(config, Abs(), sequence) && Counted()
      modifies this
      ensures Checked(Abs(), ok) == Enqueue(config, old(Abs()), p, now, sequence)
      ensures Counted() && nextSequence == old(nextSequence)
    {
      hide Ok, CountsOf, PrepareStream, Place, EnterError;
      OkPrepare(config, Abs(), p.stream, sequence);
      ok := PrepareStreamLocked(p.stream);
      if !ok {
        return;
      }
      if !p.tb.Valid() {
        EnterErrorLocked(InvalidTimeBase);
        return false;
      }
      ok := PlaceLocked(p, now, sequence);
    }

    /** Gives a lane that joins a running epoch its offset. */
    method JoinEpochLocked(p: Packet) returns (ok: bool)
      requires HorizonsOk(Abs()) && Counted()
      modifies `offsets
      ensures ok <==> WithOffset(old(Abs()), p).Some?
      ensures Abs() == if ok then WithOffset(old(Abs()), p).value else old(Abs())
      ensures Counted()
    {
      hide EpochOffset, CountsOf, HorizonsOk;
      ok := true;
      if mode == Delayed || mode == Returning || (mode == Preparing && preparingChange) {
        ok := CreateTimestampOffsetLocked(p, target);
      }
      SameCounts(old(Abs()), Abs());
    }

    method PlaceLocked(p: Packet, now: i64, sequence: nat) returns (ok: bool)
      requires config.Valid() && Ok(config, Abs(), sequence) && Counted()
      modifies this
      ensures Checked(Abs(), ok) == Place(config, old(Abs()), p, now, sequence)
      ensures Counted() && nextSequence == old(nextSequence)
    {
      hide Ok, CountsOf, WithOffset, Ordering, Prune, Append, EnterError, OverCapacity;
      ghost var s := Abs();
      OkHorizons(config, s, sequence);
      var based := JoinEpochLocked(p);
      if !based {
        EnterErrorLocked(NewStreamOffset);
        return false;
      }
      OkWithOffset(config, s, p, sequence);
      OkParts(config, Abs(), sequence);
      OrderingValid(Abs(), p);
      var dts := OrderingDtsLocked(p);
      if dts.None? {
        EnterErrorLocked(OrderingOverflow);
        return false;
      }
      ok := AdmitLocked(p, now, sequence, dts.value);
    }

    /** Prunes unless returning, then appends if the limits allow it. */
    method AdmitLocked(p: Packet, now: i64, sequence: nat, dts: Horizon) returns (ok: bool)
      requires LanesOk(config, queues, sequence, lastObserved) && HorizonsOk(Abs()) && dts.tb.Valid() && Counted()
      modifies this
      ensures var room := if old(mode) == Returning then old(Abs()) else Prune(config, old(Abs()), now);
              && ok == !OverCapacity(config, room, p)
              && Abs() == if ok then Append(config, room, p, now, sequence, dts) else EnterError(room, Capacity)
      ensures Counted() && nextSequence == old(nextSequence)
    {
      hide CountsOf, Prune, Append, EnterError, OverCapacity;
      if mode != Returning {
        PrunedHorizons(config, Abs(), now);
        PruneLocked(now, sequence);
      }
      ok := HasRoomLocked(p);
      if ok {
        AppendLocked(p, now, sequence, dts);
      } else {
        EnterErrorLocked(Capacity);
      }
    }

    /** The checked additions and the three limits of the buffer. */
    method HasRoomLocked(p: Packet) returns (fits: bool)
      requires Counted()
      ensures fits <==> !OverCapacity(config, Abs(), p)
    {
      hide Weight, SeqWeight;
      var retained := p.retained + config.metadataBytes;
      var nextPayload := counts.payload + p.retained;
      var nextRetained := counts.retained + retained;
      var representable := retained <= SIZE_MAX && nextPayload <= SIZE_MAX && nextRetained <= SIZE_MAX;
      var exceedsPayload := config.maxPayload != 0 && nextPayload > config.maxPayload;
      var exceedsRetained := config.maxRetained != 0 && nextRetained > config.maxRetained;
      fits := representable && !exceedsPayload && !exceedsRetained && counts.packets < config.maxPackets;
    }

    method AppendLocked(p: Packet, now: i64, sequence: nat, dts: Horizon)
      requires HorizonsOk(Abs()) && dts.tb.Valid() && Counted()
      modifies this
      ensures Abs() == Append(config, old(Abs()), p, now, sequence, dts) && Counted() && nextSequence == old(nextSequence)
    {
      hide Append, CountsOf, Find, HorizonsOk, NewerOf;
      LatestValid(Abs(), p.stream);
      var newest := NewerDts(Find(latest, p.stream), dts);
      var joins := EpochActive(Abs());
      AppendNewestLocked(p, now, sequence, dts, newest, joins);
    }

    method AppendNewestLocked(p: Packet, now: i64, sequence: nat, dts: Horizon, newest: Horizon, joins: bool)
      requires Counted() && joins == EpochActive(Abs())
      requires newest == NewerOf(Find(latest, p.stream), dts)
      modifies this
      ensures Abs() == Append(config, old(Abs()), p, now, sequence, dts) && Counted() && nextSequence == old(nextSequence)
    {
      hide Appended, Append, EpochActive, Find, CountsOf, NewerOf;
      ghost var s := Abs();
      AppendedCounts(config, s, p, now, sequence, dts);
      StoreLocked(NewItem(config, p, now, sequence), newest, joins);
      AppendIs(config, s, Abs(), p, now, sequence, dts, newest);
    }

    method StoreLocked(item: Queued, newest: Horizon, joins: bool)
      modifies `queues, `counts, `latest, `seen, `active
      ensures queues == Appended(old(queues), item)
      ensures counts == Counts(old(counts).packets + 1, old(counts).payload + item.packet.retained, old(counts).retained + item.retained)
      ensures latest == old(latest)[item.packet.stream := newest] && seen == old(seen)[item.packet.stream := item.receivedAt]
      ensures active == if joins then old(active) + {item.packet.stream} else old(active)
    {
      var k := item.packet.stream;
      queues := queues[k := (if k in queues then queues[k] else []) + [item]];
      counts := Counts(counts.packets + 1, counts.payload + item.packet.retained, counts.retained + item.retained);
      latest := latest[k := newest];
      seen := seen[k := item.receivedAt];
      if joins {
        active := active + {k};
      }
    }

    // -------------------------------------------------------------------
    // Packets that bypass the buffer

    method RetimestampLiveLocked(p: Packet) returns (live: Live)
      requires HorizonsOk(Abs()) && Counted()
      modifies this
      ensures live == RetimestampLive(config, old(Abs()), p) && Abs() == live.state
      ensures Counted() && nextSequence == old(nextSequence)
    {
      hide CountsOf, PrepareStream, LiveFrom, HorizonsOk;
      PreparedHorizons(config, Abs(), p.stream);
      var prepared := PrepareStreamLocked(p.stream);
      if !prepared {
        return Live(Abs(), p, false);
      }
      live := ShiftLiveLocked(p);
    }

    method ShiftLiveLocked(p: Packet) returns (live: Live)
      requires HorizonsOk(Abs()) && Counted()
      modifies this
      ensures live == LiveFrom(old(Abs()), p) && Abs() == live.state
      ensures Counted() && nextSequence == old(nextSequence)
    {
      hide EpochOffset, CountsOf, HorizonsOk, Note, Retimestamp, LiveFrom;
      ghost var s := Abs();
      var created := CreateTimestampOffsetLocked(p, 0);
      LiveFromIs(s, Abs(), p);
      SameCounts(s, Abs());
      if !created {
        return Live(Abs(), p, false);
      }
      ghost var s1 := Abs();
      HorizonsSame(s, s1);
      var shifted := Retimestamp(p, offsets[p.stream]);
      if shifted.None? {
        return Live(Abs(), p, false);
      }
      var noted := NoteLocked(shifted.value);
      live := Live(Abs(), shifted.value, noted);
    }

    /** Lets a packet through now; an error when its timestamps cannot stay monotonic. */
    method BypassLocked(p: Packet, now: i64, sequence: nat, f: Fault) returns (out: seq<Output>)
      requires HorizonsOk(Abs()) && Counted()
      modifies this
      ensures Drained(Abs(), out) == Bypassed(config, old(Abs()), p, now, sequence, f)
      ensures Counted() && nextSequence == old(nextSequence)
    {
      hide CountsOf, RetimestampLive, EnterError, HorizonsOk;
      var live := RetimestampLiveLocked(p);
      if !live.ok {
        EnterErrorLocked(f);
      }
      out := [Output(live.packet, now, now, sequence, false)];
    }

    // -------------------------------------------------------------------
    // The return to live

    method StartReturnLocked(fromDelayed: bool, now: i64)
      requires Counted()
      modifies this
      ensures Abs() == StartReturn(config, old(Abs()), fromDelayed, now)
      ensures Counted() && nextSequence == old(nextSequence)
    {
      hide CountsOf, ReturnLanes, StartReturn;
      ghost var s := Abs();
      var awaited := ReturnLanes(config, Abs());
      OpenReturnLocked(fromDelayed, awaited, now);
      ReturnStarted(config, s, Abs(), fromDelayed, now, awaited);
      SameCounts(s, Abs());
    }

    method OpenReturnLocked(fromDelayed: bool, awaited: set<StreamKey>, now: i64)
      modifies `mode, `returnFromDelayed, `returnCommitted, `returnRequested, `returnKeys, `returnVideo, `preparingChange, `originDelayed
      ensures mode == Returning && returnFromDelayed == fromDelayed && !returnCommitted && returnRequested == Some(now)
      ensures returnKeys == map[] && returnVideo == awaited && !preparingChange && !originDelayed
    {
      mode := Returning;
      returnFromDelayed := fromDelayed;
      returnCommitted := false;
      returnRequested := Some(now);
      returnKeys := map[];
      returnVideo := awaited;
      preparingChange := false;
      originDelayed := false;
    }

    method ObserveReturnKeyframeLocked(item: Queued)
      requires Counted()
      modifies `returnKeys
      ensures Abs() == ObserveReturnKey(config, old(Abs()), item) && Counted()
    {
      hide CountsOf;
      var k := item.packet.stream;
      if k.kind == Video && config.requireKeyframe && returnRequested.Some? &&
         item.receivedAt >= returnRequested.value && item.packet.keyframe {
        returnKeys := returnKeys[k := item.sequence];
      }
      SameCounts(old(Abs()), Abs());
    }

    /** Keeps what goes live, gives it a new epoch and sorts it; false when the epoch fails. */
    method BuildReturnPendingLocked(ghost bound: nat) returns (ok: bool)
      requires Ok(config, Abs(), bound) && Counted()
      modifies this
      ensures nextSequence == old(nextSequence) && Counted() && ok == BuildPending(config, old(Abs())).Some?
      ensures Abs() == if ok then BuildPending(config, old(Abs())).value else old(Abs()).(offsets := offsets)
    {
      hide Ok, CountsOf, KeptQueues, UnifiedOffsets, LiveCut, AllOrdered, Merge, Mergeable, BuildPending, Keyed, QueueFronts;
      ghost var s := Abs();
      OkParts(config, s, bound);
      var cut := FindLiveCut(Abs());
      var kept := CollectKept(config, Abs(), cut, bound);
      BuiltFrom(config, s, s.offsets, bound);
      var begun := OpenEpochLocked(QueueFronts(kept), 0);
      SameCounts(s, Abs());
      if !begun {
        return false;
      }
      ok := SortReturnLocked(kept, s, bound);
    }

    method SortReturnLocked(kept: Queues, ghost s: State, ghost bound: nat) returns (ok: bool)
      requires Ok(config, s, bound) && Counted() && kept == KeptQueues(config, s, LiveCut(s))
      requires Abs() == s.(offsets := offsets) && UnifiedOffsets(s, QueueFronts(kept), 0) == Some(offsets)
      modifies this
      ensures nextSequence == old(nextSequence) && Counted() && ok == BuildPending(config, s).Some?
      ensures Abs() == if ok then BuildPending(config, s).value else old(Abs())
    {
      hide Ok, CountsOf, KeptQueues, UnifiedOffsets, LiveCut, AllOrdered, Merge, Mergeable, BuildPending, Keyed, QueueFronts;
      BuiltFrom(config, s, offsets, bound);
      ok := CheckOrdered(Abs(), kept);
      if ok {
        var sorted := SortAll(Abs(), kept);
        ReplaceQueuesLocked(sorted);
      }
    }

    method ReplaceQueuesLocked(sorted: Queue)
      modifies this
      ensures Abs() == old(Abs()).(queues := map[], pending := sorted, active := {}, latest := map[], seen := map[])
      ensures Counted() && nextSequence == old(nextSequence)
    {
      ClearDelayQueuesLocked();
      counts := Measure(sorted);
      pending := sorted;
      OnlyPending(Abs());
    }

    // -------------------------------------------------------------------
    // Requests

    /** Writes the fields that say where a transaction stands. */
    method SetControlLocked(control: Control)
      requires Counted()
      modifies `mode, `target, `pendingTarget, `previousTarget, `preparingChange, `originDelayed, `fault
      ensures Abs() == With(old(Abs()), control) && Counted()
    {
      hide CountsOf;
      ghost var s := Abs();
      WriteControlLocked(control);
      SameCounts(s, Abs());
    }

    method WriteControlLocked(control: Control)
      modifies `mode, `target, `pendingTarget, `previousTarget, `preparingChange, `originDelayed, `fault
      ensures mode == control.mode && target == control.target && pendingTarget == control.pendingTarget
      ensures previousTarget == control.previousTarget && preparingChange == control.preparingChange
      ensures originDelayed == control.originDelayed && fault == control.fault
    {
      mode := control.mode;
      target := control.target;
      pendingTarget := control.pendingTarget;
      previousTarget := control.previousTarget;
      preparingChange := control.preparingChange;
      originDelayed := control.originDelayed;
      fault := control.fault;
    }

    method RequestActivate(delay: int, now: i64) returns (result: RequestResult)
      requires Valid()
      modifies this
      ensures Valid() && nextSequence == old(nextSequence) && Abs() == DoActivate(config, old(Abs()), delay, now)
      ensures result == ActivateResult(config, old(Abs()), delay, now)
    {
      hide Ok, CountsOf, ClearAll, EnterError, With;
      ghost var s := Abs();
      StepOk(config, s, Activate(delay, now), nextSequence);
      var ok := ObserveTimeLocked(now);
      if !ok {
        return ClockRegressed;
      }
      if !ValidDelay(config, delay) {
        return InvalidDelay;
      }
      if mode == Preparing && !preparingChange {
        return if delay == pendingTarget then NoOp else InvalidState;
      }
      if mode != Bypass {
        return InvalidState;
      }
      ClearAllLocked();
      ActivateIs(config, s, delay, now);
      SetControlLocked(Control(Preparing, delay, delay, 0, false, false, None));
      result := Accepted;
    }

    method ForgetQueuesLocked()
      modifies this
      ensures Abs() == ClearQueues(old(Abs())) && Counted() && nextSequence == old(nextSequence)
    {
      ClearDelayQueuesLocked();
      NoCounts(Abs());
    }

    method BeginFilling(now: i64) returns (result: RequestResult)
      requires Valid()
      modifies this
      ensures Valid() && nextSequence == old(nextSequence) && Abs() == DoBeginFilling(old(Abs()), now)
      ensures result == BeginResult(old(Abs()), now)
    {
      hide Ok, CountsOf, EnterError, ClearQueues, With;
      ghost var s := Abs();
      StepOk(config, s, PacketDelayStep.BeginFilling(now), nextSequence);
      var ok := ObserveTimeLocked(now);
      if !ok {
        return ClockRegressed;
      }
      if mode == Filling {
        return NoOp;
      }
      if mode != Preparing {
        return InvalidState;
      }
      BeginFillingIs(s, now);
      var control := Control(Filling, pendingTarget, pendingTarget, previousTarget, false, preparingChange && originDelayed, fault);
      if !preparingChange {
        ForgetQueuesLocked();
      }
      SetControlLocked(control);
      result := Accepted;
    }

    method RequestChangeDelay(delay: int, now: i64) returns (result: RequestResult)
      requires Valid()
      modifies this
      ensures Valid() && nextSequence == old(nextSequence) && Abs() == DoChangeDelay(config, old(Abs()), delay, now)
      ensures result == ChangeResult(config, old(Abs()), delay, now)
    {
      hide Ok, CountsOf, EnterError, ClearAll, Retarget, DoChangeDelay, RetargetResult, ChangeResult, Observe;
      ghost var s := Abs();
      ChangeRefused(config, s, delay, now);
      ChangeKeeps(config, s, delay, now, nextSequence);
      var ok := ObserveTimeLocked(now);
      if !ok {
        return ClockRegressed;
      }
      if !ValidDelay(config, delay) {
        return InvalidDelay;
      }
      ChangeIs(config, s, delay, now);
      if mode == Bypass {
        FreshTargetLocked(delay);
        result := Accepted;
      } else {
        result := RetargetLocked(delay);
      }
    }

    method FreshTargetLocked(delay: nat)
      modifies this
      ensures Abs() == ClearAll(old(Abs())).(target := delay, pendingTarget := delay, mode := Preparing)
      ensures Counted() && nextSequence == old(nextSequence)
    {
      hide CountsOf, With, ClearAll;
      var control := Control(Preparing, delay, delay, previousTarget, false, false, fault);
      FreshTarget(Abs(), delay);
      ClearAllLocked();
      SetControlLocked(control);
    }

    method RetargetLocked(delay: nat) returns (result: RequestResult)
      requires Counted() && mode != Bypass
      modifies `mode, `target, `pendingTarget, `previousTarget, `preparingChange, `originDelayed, `fault
      ensures Abs() == Retarget(old(Abs()), delay) && Counted()
      ensures result == RetargetResult(old(Abs()), delay)
    {
      hide CountsOf, With, Retarget;
      RetargetIs(Abs(), delay);
      match mode
      case Preparing =>
        if delay == ReportedTarget(Abs()) {
          return NoOp;
        }
        SetControlLocked(Control(Preparing, if preparingChange then target else delay, delay, previousTarget,
                                 preparingChange, originDelayed, fault));
        result := Accepted;
      case Filling =>
        if delay == target {
          return NoOp;
        }
        SetControlLocked(Control(Filling, delay, delay, if originDelayed then previousTarget else target,
                                 preparingChange, originDelayed, fault));
        result := Accepted;
      case Delayed =>
        if delay == target {
          return NoOp;
        }
        SetControlLocked(Control(Preparing, target, delay, target, true, true, fault));
        result := Accepted;
      case _ =>
        result := InvalidState;
    }

    method ReadyForDelayed(now: i64) returns (ready: bool)
      requires Valid()
      ensures ready <==> mode == Filling && PlanReady(config, Abs(), now)
    {
      OkParts(config, Abs(), nextSequence);
      if mode != Filling {
        return false;
      }
      var plan := CutPlanLocked(now, nextSequence);
      ready := plan.Some?;
    }

    method CommitDelayed(now: i64) returns (result: RequestResult)
      requires Valid()
      modifies this
      ensures Valid() && nextSequence == old(nextSequence)
      ensures exists left: map<StreamKey, i64> :: Abs() == DoCommitDelayed(config, old(Abs()), now, left)
      ensures result == CommitDelayedResult(config, old(Abs()), now)
    {
      hide Ok, CountsOf, EnterError, DoCommitDelayed, PlanReady, Plan, ApplyPlan, BeginEpoch;
      ghost var s := Abs();
      var ok := ObserveTimeLocked(now);
      ghost var s1 := Abs();
      CommitOk(config, s, now, offsets, nextSequence);
      if !ok {
        return ClockRegressed;
      }
      if mode != Filling {
        return InvalidState;
      }
      OkParts(config, s1, nextSequence);
      var plan := CutPlanLocked(now, nextSequence);
      if plan.None? {
        return NotReady;
      }
      ghost var left;
      ok, left := CutOverLocked(plan.value, now);
      CommitOk(config, s, now, left, nextSequence);
      result := if ok then Accepted else InvalidState;
    }

    /** Cuts every lane over to delayed output; the offsets a failed epoch leaves behind are reported. */
    method CutOverLocked(plan: map<StreamKey, nat>, now: i64) returns (ok: bool, ghost left: map<StreamKey, i64>)
      requires Ok(config, Abs(), nextSequence) && Counted() && plan == Plan(config, Abs(), now)
      modifies this
      ensures Abs() == CutOver(config, old(Abs()), now, left) && ok == BeginEpoch(ApplyPlan(config, old(Abs()), now)).Some?
      ensures Counted() && nextSequence == old(nextSequence)
    {
      hide Ok, CountsOf, EnterError, Plan, ApplyPlan, BeginEpoch, EnterDelayed;
      OkParts(config, Abs(), nextSequence);
      CutParts(config, Abs(), now, nextSequence);
      ApplyCutPlanLocked(plan, now, nextSequence);
      ghost var cut := Abs();
      ok := BeginTimestampEpochLocked();
      left := offsets;
      SameCounts(cut, Abs());
      if ok {
        EnterDelayedLocked();
      } else {
        EpochErrorSame(cut, Abs(), offsets);
        EnterErrorLocked(DelayedEpoch);
      }
    }

    method EnterDelayedLocked()
      requires Counted()
      modifies this
      ensures Abs() == EnterDelayed(config, old(Abs())) && Counted() && nextSequence == old(nextSequence)
    {
      hide CountsOf, With;
      ghost var s := Abs();
      active := config.required + queues.Keys;
      SameCounts(s, Abs());
      SetControlLocked(Control(Delayed, target, target, previousTarget, false, false, fault));
    }

    method RequestCancel(now: i64) returns (result: RequestResult)
      requires Valid()
      modifies this
      ensures Valid() && nextSequence == old(nextSequence) && Abs() == DoCancel(config, old(Abs()), now)
      ensures result == CancelResult(old(Abs()), now)
    {
      hide Ok, CountsOf, EnterError, With, StartReturn, Cancelled;
      ghost var s := Abs();
      StepOk(config, s, Cancel(now), nextSequence);
      var ok := ObserveTimeLocked(now);
      if !ok {
        return ClockRegressed;
      }
      result := CancelLocked(now);
    }

    method CancelLocked(now: i64) returns (result: RequestResult)
      requires Counted()
      modifies this
      ensures Abs() == Cancelled(config, old(Abs()), now) && Counted() && nextSequence == old(nextSequence)
      ensures result == match old(mode)
                        case Bypass => NoOp
                        case Returning => NoOp
                        case Preparing => Accepted
                        case Filling => Accepted
                        case _ => InvalidState
    {
      hide CountsOf, With, StartReturn, Cancelled;
      CancelledIs(config, Abs(), now);
      if mode == Bypass || mode == Returning {
        return NoOp;
      }
      if mode == Preparing && preparingChange {
        SetControlLocked(Control(Delayed, target, target, previousTarget, false, false, fault));
        return Accepted;
      }
      if mode == Filling && originDelayed {
        SetControlLocked(Control(Delayed, previousTarget, previousTarget, previousTarget, false, false, fault));
        return Accepted;
      }
      if mode != Preparing && mode != Filling {
        return InvalidState;
      }
      StartReturnLocked(originDelayed, now);
      result := Accepted;
    }

    method RequestDeactivate(now: i64) returns (result: RequestResult)
      requires Valid()
      modifies this
      ensures Valid() && nextSequence == old(nextSequence) && Abs() == DoDeactivate(config, old(Abs()), now)
      ensures result == DeactivateResult(old(Abs()), now)
    {
      hide Ok, CountsOf, EnterError, StartReturn;
      StepOk(config, Abs(), Deactivate(now), nextSequence);
      var ok := ObserveTimeLocked(now);
      if !ok {
        return ClockRegressed;
      }
      if mode == Bypass || mode == Returning {
        return NoOp;
      }
      if mode == Failed {
        return InvalidState;
      }
      StartReturnLocked(mode == Delayed || (mode == Preparing && preparingChange) || originDelayed, now);
      result := Accepted;
    }

    method ReadyForReturn(now: i64) returns (ready: bool)
      ensures ready <==> mode == Returning && ReturnReady(config, Abs(), now)
    {
      if mode != Returning {
        return false;
      }
      ready := IsReturnReady(config, Abs(), now);
    }

    method CommitReturn(now: i64) returns (result: RequestResult)
      requires Valid()
      modifies this
      ensures Valid() && nextSequence == old(nextSequence)
      ensures exists left: map<StreamKey, i64> :: Abs() == DoCommitReturn(config, old(Abs()), now, left)
      ensures result == CommitReturnResult(config, old(Abs()), now)
    {
      hide Ok, CountsOf, EnterError, DoCommitReturn, ReturnReady, BuildPending;
      ghost var s := Abs();
      var ok := ObserveTimeLocked(now);
      CommitReturnOk(config, s, now, offsets, nextSequence);
      if !ok {
        return ClockRegressed;
      }
      if mode != Returning {
        return InvalidState;
      }
      if returnCommitted {
        return NoOp;
      }
      var ready := IsReturnReady(config, Abs(), now);
      if !ready {
        return NotReady;
      }
      ghost var left;
      ok, left := GoLiveLocked();
      CommitReturnOk(config, s, now, left, nextSequence);
      result := if ok then Accepted else InvalidState;
    }

    method GoLiveLocked() returns (ok: bool, ghost left: map<StreamKey, i64>)
      requires Ok(config, Abs(), nextSequence) && Counted()
      modifies this
      ensures Abs() == GoLive(config, old(Abs()), left) && ok == BuildPending(config, old(Abs())).Some?
      ensures ok ==> returnCommitted
      ensures Counted() && nextSequence == old(nextSequence)
    {
      hide Ok, CountsOf, EnterError, BuildPending;
      ok := BuildReturnPendingLocked(nextSequence);
      left := offsets;
      if ok {
        ghost var built := Abs();
        returnCommitted := true;
        returnFromDelayed := false;
        SameCounts(built, Abs());
      } else {
        EnterErrorLocked(LiveEpoch);
      }
    }

    method FinishReturn(now: i64) returns (result: RequestResult)
      requires Valid()
      modifies this
      ensures Valid() && nextSequence == old(nextSequence) && Abs() == DoFinishReturn(old(Abs()), now)
      ensures result == FinishResult(old(Abs()), now)
    {
      hide Ok, CountsOf, EnterError, ClearAll, With;
      StepOk(config, Abs(), PacketDelayStep.FinishReturn(now), nextSequence);
      var ok := ObserveTimeLocked(now);
      if !ok {
        return ClockRegressed;
      }
      if mode == Bypass {
        return NoOp;
      }
      if mode != Returning {
        return InvalidState;
      }
      if !returnCommitted || pending != [] {
        return NotReady;
      }
      ToBypass(Abs());
      ghost var s1 := Abs();
      ClearAllLocked();
      ClearedFault(s1);
      SetControlLocked(Control(Bypass, 0, 0, 0, false, false, fault));
      result := Accepted;
    }

    method ReportError()
      requires Valid()
      modifies this
      ensures Valid() && nextSequence == old(nextSequence) && Abs() == EnterError(old(Abs()), Reported)
    {
      hide Ok, CountsOf, EnterError;
      StepOk(config, Abs(), PacketDelayStep.ReportError, nextSequence);
      EnterErrorLocked(Reported);
    }

    method Recover(now: i64) returns (result: RequestResult)
      requires Valid()
      modifies this
      ensures Valid() && nextSequence == old(nextSequence) && Abs() == DoRecover(old(Abs()), now)
      ensures result == RecoverResult(old(Abs()), now)
    {
      hide Ok, CountsOf, EnterError, ClearAll, With;
      StepOk(config, Abs(), PacketDelayStep.Recover(now), nextSequence);
      var ok := ObserveTimeLocked(now);
      if !ok {
        return ClockRegressed;
      }
      if mode != Failed {
        return NoOp;
      }
      ToBypass(Abs());
      ClearAllLocked();
      SetControlLocked(Control(Bypass, 0, 0, 0, false, false, None));
      result := Accepted;
    }

    // -------------------------------------------------------------------
    // Packets in and out

    method Push(p: Packet, now: i64) returns (out: seq<Output>)
      requires Valid()
      modifies this
      ensures Valid() && nextSequence == old(nextSequence) + 1
      ensures Drained(Abs(), out) == DoPush(config, old(Abs()), p, now, old(nextSequence))
    {
      hide Ok, CountsOf, EnterError, RetimestampLive, Bypassed, PushCommitted, PushBuffered, PassesLive, Observe;
      ghost var s := Abs();
      var sequence := nextSequence;
      nextSequence := nextSequence + 1;
      assert Abs() == s;
      PushOk(config, s, p, now, sequence);
      var ok := ObserveTimeLocked(now);
      ghost var s1 := Abs();
      if !ok {
        var live := RetimestampLiveLocked(p);
        return [Output(live.packet, now, now, sequence, false)];
      }
      if PassesLive(Abs()) {
        out := BypassLocked(p, now, sequence, FailOpenTimestamps);
        return;
      }
      if mode == Returning && returnCommitted {
        out := PushCommittedLocked(p, now, sequence);
        return;
      }
      BuffersNow(config, s1, sequence);
      out := PushBufferedLocked(p, now, sequence);
    }

    method PushCommittedLocked(p: Packet, now: i64, sequence: nat) returns (out: seq<Output>)
      requires config.Valid() && Ok(config, Abs(), sequence) && Counted()
      modifies this
      ensures Drained(Abs(), out) == PushCommitted(config, old(Abs()), p, now, sequence)
      ensures Counted() && nextSequence == old(nextSequence)
    {
      hide Ok, CountsOf, DrainPending, Bypassed;
      PendingHorizons(config, Abs(), now, sequence);
      out := DrainReturnPendingLocked(now, sequence);
      var live := BypassLocked(p, now, sequence, LiveTimestamps);
      out := out + live;
    }

    method PushBufferedLocked(p: Packet, now: i64, sequence: nat) returns (out: seq<Output>)
      requires config.Valid() && Ok(config, Abs(), sequence) && Counted()
      requires Buffering(Abs()) && !returnCommitted && lastObserved == Some(now)
      modifies this
      ensures Drained(Abs(), out) == PushBuffered(config, old(Abs()), p, now, sequence)
      ensures Counted() && nextSequence == old(nextSequence)
    {
      hide Ok, CountsOf, Enqueue, Bypassed, Prune, Drain, DrainAndPrune, ObserveReturnKey;
      EnqueuedOk(config, Abs(), p, now, sequence);
      var queued := EnqueueLocked(p, now, sequence);
      if !queued {
        out := BypassLocked(p, now, sequence, FailOpenTimestamps);
        return;
      }
      out := [];
      if mode == Preparing {
        PruneKeepsOk(config, Abs(), now, sequence + 1);
        PruneLocked(now, sequence + 1);
        out := DrainReadyLocked(now, sequence + 1);
      } else if mode == Filling {
        PruneLocked(now, sequence + 1);
      } else if mode == Delayed {
        out := DrainAndPruneLocked(now, sequence + 1);
      } else {
        ObserveReturnKeyframeLocked(NewItem(config, p, now, sequence));
        if returnFromDelayed {
          out := DrainReadyLocked(now, sequence + 1);
        }
      }
    }

    method DrainAndPruneLocked(now: i64, ghost bound: nat) returns (out: seq<Output>)
      requires config.Valid() && Ok(config, Abs(), bound) && Counted()
      modifies this
      ensures Drained(Abs(), out) == DrainAndPrune(config, old(Abs()), now)
      ensures Counted() && nextSequence == old(nextSequence)
    {
      hide Ok, CountsOf, Drain, Prune;
      DrainKeepsOk(config, Abs(), now, bound);
      out := DrainReadyLocked(now, bound);
      if mode == Delayed {
        PruneLocked(now, bound);
      }
    }

    method Poll(now: i64) returns (out: seq<Output>)
      requires Valid()
      modifies this
      ensures Valid() && nextSequence == old(nextSequence) && Drained(Abs(), out) == DoPoll(config, old(Abs()), now)
    {
      hide Ok, CountsOf, EnterError, Drain, Prune, DrainAndPrune, DrainPending, Observe;
      PollOk(config, Abs(), now, nextSequence);
      var ok := ObserveTimeLocked(now);
      out := [];
      if !ok {
        return;
      }
      if mode == Preparing && preparingChange {
        out := DrainReadyLocked(now, nextSequence);
      } else if mode == Filling {
        PruneLocked(now, nextSequence);
      } else if mode == Delayed {
        out := DrainAndPruneLocked(now, nextSequence);
      } else if mode == Returning {
        if returnCommitted {
          out := DrainReturnPendingLocked(now, nextSequence);
        } else if returnFromDelayed {
          out := DrainReadyLocked(now, nextSequence);
        }
      }
    }

    method PruneNow(now: i64)
      requires Valid()
      modifies this
      ensures Valid() && nextSequence == old(nextSequence)
      ensures Abs() == if Regresses(old(Abs()), now) then Observe(old(Abs()), now)
                       else Prune(config, Observe(old(Abs()), now), now)
    {
      hide Ok, CountsOf, EnterError, Prune, Observe;
      StepOk(config, Abs(), PacketDelayStep.PruneNow(now), nextSequence);
      PollOk(config, Abs(), now, nextSequence);
      var ok := ObserveTimeLocked(now);
      if ok {
        PruneLocked(now, nextSequence);
      }
    }

    method ObserveExternalOutput(p: Packet) returns (ok: bool)
      requires Valid()
      modifies this
      ensures Valid() && nextSequence == old(nextSequence) && Abs() == DoExternal(config, old(Abs()), p)
      ensures ok == ExternalAccepted(config, old(Abs()), p)
    {
      hide Ok, CountsOf, EnterError, Note, DoExternal, HorizonsOk, ExternalAccepted;
      ghost var s := Abs();
      StepOk(config, s, External(p), nextSequence);
      OkParts(config, s, nextSequence);
      ExternalIs(config, s, p);
      ok := KnowTimelineLocked(Timeline(p.stream));
      if !ok {
        EnterErrorLocked(TooManyTimelines);
        return;
      }
      ok := NoteLocked(p);
      if !ok {
        EnterErrorLocked(ExternalOutput);
      }
    }

    method KnowTimelineLocked(lane: StreamKey) returns (ok: bool)
      requires Counted()
      modifies `known
      ensures ok <==> lane in old(known) || |old(known)| < config.maxStreams
      ensures Abs() == (if ok then old(Abs()).(known := old(known) + {lane}) else old(Abs())) && Counted()
    {
      hide CountsOf;
      ok := lane in known || |known| < config.maxStreams;
      if ok {
        known := known + {lane};
      }
      SameCounts(old(Abs()), Abs());
    }
  }
}
