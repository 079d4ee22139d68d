/** What the fields of the packet delay count, and the small facts about the specification that its methods
    rest on, each stated over values so that the methods stay short. */
module PacketDelayCounts {
  import opened Options
  import opened Timestamps
  import opened PacketTypes
  import opened PacketDelaySpec
  import opened PacketDelayStep
  import opened PacketDelayInvariant
  import opened PacketDelayMerge
  import opened PacketDelayKeep
  import opened PacketDelayRun
  import opened PacketDelayResults
  import opened PacketDelayDecode
  import opened PacketDelayEpoch
  import opened PacketDelayReturn
  import opened PacketDelayScan
  import opened PacketDelayOffsets
  import opened PacketDelaySearch

  /** Buffered packet, payload byte and retained byte counts. */
  datatype Counts = Counts(packets: nat, payload: nat, retained: nat)

  ghost function CountsOf(s: State): Counts {
    Counts(Packets(s), PayloadBytes(s), RetainedBytes(s))
  }

  /** Two candidates for the next packet are the same lane. */
  lemma NextUnique(c: Config, s: State, now: i64, k: StreamKey, j: StreamKey, bound: nat)
    requires Ok(c, s, bound) && Next(s, now, k) && Next(s, now, j)
    ensures k == j
  {
    if k != j {
      assert Apart(s.queues[k], s.queues[j]);
      PrecedesBoth(s, s.queues[k][0], s.queues[j][0]);
    }
  }

  lemma PrecedesBoth(s: State, a: Queued, b: Queued)
    requires Precedes(s, a, b) && Precedes(s, b, a)
    ensures a.sequence == b.sequence
  {
    var x, y := Ordering(s, a.packet).value, Ordering(s, b.packet).value;
    CmpFlip(x.value, x.tb.den, y.value, y.tb.den);
  }

  lemma FrontWeight(q: Queue, w: Queued -> nat)
    requires q != []
    ensures SeqWeight(q, w) == w(q[0]) + SeqWeight(q[1..], w)
    ensures SeqWeight([], w) == 0
  {
  }


  /** Popping the front takes its own weight off the sums. */
  lemma PopWeight(s: State, k: StreamKey, w: Queued -> nat)
    requires k in s.queues && s.queues[k] != []
    ensures Weight(PopFront(s, k).queues, w) == Weight(s.queues, w) - w(s.queues[k][0])
  {
    hide Weight, SeqWeight, PopFront;
    PoppedQueues(s, k);
    var rest := s.queues[k][1..];
    FrontWeight(s.queues[k], w);
    WeightRemove(s.queues, k, w);
    if rest != [] {
      WeightUpdate(s.queues, k, rest, w);
    }
  }

  lemma PopCounts(s: State, k: StreamKey)
    requires k in s.queues && s.queues[k] != []
    ensures var x := s.queues[k][0]; var before := CountsOf(s);
            && before.packets > 0 && before.payload >= x.packet.retained && before.retained >= x.retained
            && CountsOf(PopFront(s, k))
                 == Counts(before.packets - 1, before.payload - x.packet.retained, before.retained - x.retained)
  {
    hide PopFront;
    PoppedQueues(s, k);
    PopWeight(s, k, One);
    PopWeight(s, k, Payload);
    PopWeight(s, k, Retained);
  }

  lemma NoCounts(s: State)
    requires s.queues == map[] && s.pending == []
    ensures CountsOf(s) == Counts(0, 0, 0)
  {
  }

  lemma SameCounts(s: State, r: State)
    requires r.queues == s.queues && r.pending == s.pending
    ensures CountsOf(r) == CountsOf(s)
  {
  }

  lemma KeepsCounts(s: State, stream: StreamKey)
    ensures CountsOf(DropReplaced(s, stream)) == CountsOf(s)
  {
    hide Keep, Stay, Awaited, CountsOf;
    SameCounts(s, DropReplaced(s, stream));
  }

  lemma HorizonsSame(s: State, r: State)
    requires HorizonsOk(s) && r.latest == s.latest && r.outputDts == s.outputDts && r.outputPts == s.outputPts && r.emitted == s.emitted
    ensures HorizonsOk(r)
  {
  }

  lemma NothingToUnify(s: State, delay: int)
    ensures UnifiedOffsets(s, map[], delay) == Some(map[])
  {
  }

  function Raised(fronts: Fronts, offsets: map<StreamKey, i64>, common: Horizon, k: StreamKey): int
    requires k in fronts && k in offsets
  {
    Max(offsets[k], CommonTicks(common, fronts[k].tb.den))
  }

  /** A lane without an offset leaves the epoch without offsets. */
  lemma NotOffsettable(s: State, fronts: Fronts, delay: int)
    ensures if Offsettable(s, fronts, delay) then TimeBased(fronts) else UnifiedOffsets(s, fronts, delay).None?
  {
    hide EpochOffset;
    forall k | k in fronts && EpochOffset(s, fronts[k], delay).Some? ensures fronts[k].tb.Valid() {
      ShiftNonnegative(s, fronts[k], delay);
    }
  }

  lemma CommonIsShift(s: State, fronts: Fronts, delay: int, h: Horizon)
    requires Offsettable(s, fronts, delay) && WidestOf(Shifts(s, fronts, delay), fronts, fronts.Keys, h)
    ensures h.value >= 0
  {
    hide EpochOffset;
    var k :| k in fronts.Keys && h == Horizon(Shifts(s, fronts, delay)[k], fronts[k].tb);
    ShiftNonnegative(s, fronts[k], delay);
  }

  /** A lane shortened to its tail takes the dropped packets off the counts. */
  lemma TailCounts(s: State, k: StreamKey, q: Queue, drop: nat, payload: nat, retained: nat)
    requires k in s.queues && s.queues[k] == q && drop <= |q|
    requires payload + SeqWeight(q[drop..], Payload) == SeqWeight(q, Payload)
    requires retained + SeqWeight(q[drop..], Retained) == SeqWeight(q, Retained)
    ensures var before := CountsOf(s);
            && before.packets >= drop && before.payload >= payload && before.retained >= retained
            && CountsOf(s.(queues := s.queues[k := q[drop..]]))
                 == Counts(before.packets - drop, before.payload - payload, before.retained - retained)
  {
    hide Weight, SeqWeight;
    WeightUpdate(s.queues, k, q[drop..], One);
    WeightUpdate(s.queues, k, q[drop..], Payload);
    WeightUpdate(s.queues, k, q[drop..], Retained);
    SeqWeightOne(q);
    SeqWeightOne(q[drop..]);
    WeightRemove(s.queues, k, One);
    WeightRemove(s.queues, k, Payload);
    WeightRemove(s.queues, k, Retained);
  }

  /** A lane that is dropped takes all its packets off the counts. */
  lemma DroppedCounts(s: State, k: StreamKey)
    requires k in s.queues
    ensures var q := s.queues[k]; var before := CountsOf(s);
            && before.packets >= |q| && before.payload >= SeqWeight(q, Payload) && before.retained >= SeqWeight(q, Retained)
            && CountsOf(s.(queues := s.queues - {k}))
                 == Counts(before.packets - |q|, before.payload - SeqWeight(q, Payload), before.retained - SeqWeight(q, Retained))
  {
    hide Weight, SeqWeight;
    SeqWeightOne(s.queues[k]);
    WeightRemove(s.queues, k, One);
    WeightRemove(s.queues, k, Payload);
    WeightRemove(s.queues, k, Retained);
  }

  lemma AppendedCounts(c: Config, s: State, p: Packet, now: i64, n: nat, dts: Horizon)
    ensures var before := CountsOf(s);
            CountsOf(Append(c, s, p, now, n, dts))
              == Counts(before.packets + 1, before.payload + p.retained, before.retained + p.retained + c.metadataBytes)
  {
    hide Weight, SeqWeight, Append;
    var item := NewItem(c, p, now, n);
    AppendedSame(c, s, p, now, n, dts);
    AppendedPending(c, s, p, now, n, dts);
    AppendWeight(s.queues, item, One);
    AppendWeight(s.queues, item, Payload);
    AppendWeight(s.queues, item, Retained);
  }

  lemma AppendedPending(c: Config, s: State, p: Packet, now: i64, n: nat, dts: Horizon)
    ensures Append(c, s, p, now, n, dts).pending == s.pending
  {
  }

  lemma KnownHorizons(s: State, p: Packet)
    requires HorizonsOk(s)
    ensures var lane := Timeline(p.stream);
            && (Find(s.outputDts, lane).Some? ==> Find(s.outputDts, lane).value.tb.den > 0)
            && (s.emitted.Some? ==> s.emitted.value.tb.den > 0)
            && (Find(s.outputPts, lane).Some? ==> Find(s.outputPts, lane).value.tb.den > 0)
  {
  }

  /** Each stage of an epoch offset is at least the one before. */
  lemma RaisedAtLeast(s: State, p: Packet, delay: int)
    requires DelayTicks(delay, p.tb).Some?
    ensures var base := DelayTicks(delay, p.tb).value; var lane := Timeline(p.stream);
            var byDts := RaisedTo(Find(s.outputDts, lane), p.dts, p.tb.den, true, base);
            var byGlobal := RaisedTo(s.emitted, p.dts, p.tb.den, false, byDts);
            base <= byDts <= byGlobal <= RaisedTo(Find(s.outputPts, lane), p.pts, p.tb.den, true, byGlobal)
  {
    hide LeastTick;
  }

  function DtsWith(offsets: map<StreamKey, i64>, p: Packet): Option<Horizon> {
    var sum := AddTimestamp(p.dts, if p.stream in offsets then offsets[p.stream] else 0);
    if sum.None? || !p.tb.Valid() then None else Some(Horizon(sum.value, p.tb))
  }

  /** Shifted DTS of the newest packet of a lane. */
  function BackDts(s: State, k: StreamKey): Option<Horizon>
    requires k in s.queues && s.queues[k] != []
  {
    Ordering(s, s.queues[k][|s.queues[k]| - 1].packet)
  }

  method BackDates(queues: Queues, offsets: map<StreamKey, i64>, ghost s: State) returns (dates: Option<map<StreamKey, Horizon>>)
    requires s.queues == queues && s.offsets == offsets && forall k :: k in queues ==> queues[k] != []
    ensures dates.None? ==> exists k :: k in queues && BackDts(s, k).None?
    ensures dates.Some? ==> dates.value.Keys == queues.Keys && forall k :: k in queues ==> BackDts(s, k) == Some(dates.value[k])
  {
    var latest: map<StreamKey, Horizon> := map[];
    var lanes := queues.Keys;
    while lanes != {}
      invariant lanes <= queues.Keys && latest.Keys == queues.Keys - lanes
      invariant forall k :: k in latest ==> BackDts(s, k) == Some(latest[k])
      decreases |lanes|
    {
      var lane :| lane in lanes;
      var dts := DtsWith(offsets, queues[lane][|queues[lane]| - 1].packet);
      assert dts == BackDts(s, lane);
      if dts.None? {
        return None;
      }
      latest := latest[lane := dts.value];
      lanes := lanes - {lane};
    }
    dates := Some(latest);
  }

  lemma NoEpoch(s: State)
    requires UnifiedOffsets(s, QueueFronts(s.queues), s.target).None?
    ensures BeginEpoch(s).None?
  {
    hide UnifiedOffsets;
  }

  lemma EpochStops(s: State, offsets: map<StreamKey, i64>, k: StreamKey)
    requires UnifiedOffsets(s, QueueFronts(s.queues), s.target) == Some(offsets)
    requires k in s.queues && s.queues[k] != [] && BackDts(s.(offsets := offsets), k).None?
    ensures BeginEpoch(s).None?
  {
    hide UnifiedOffsets, Ordering;
    var s1 := s.(offsets := offsets);
    var backs := map j | j in s.queues && s.queues[j] != [] :: Ordering(s1, s.queues[j][|s.queues[j]| - 1].packet);
    assert k in backs && backs[k].None?;
  }

  lemma EpochBegins(s: State, offsets: map<StreamKey, i64>, latest: map<StreamKey, Horizon>)
    requires UnifiedOffsets(s, QueueFronts(s.queues), s.target) == Some(offsets)
    requires latest.Keys == s.queues.Keys
    requires forall k :: k in s.queues ==> s.queues[k] != [] && BackDts(s.(offsets := offsets), k) == Some(latest[k])
    ensures BeginEpoch(s) == Some(s.(offsets := offsets, latest := latest))
  {
    hide UnifiedOffsets, Ordering;
    var s1 := s.(offsets := offsets);
    var backs := map k | k in s.queues && s.queues[k] != [] :: Ordering(s1, s.queues[k][|s.queues[k]| - 1].packet);
    assert backs.Keys == latest.Keys && forall k :: k in backs ==> backs[k] == Some(latest[k]);
    assert latest == map k | k in backs :: backs[k].value;
  }

  lemma PrunedFrom(c: Config, q: Queue, now: i64, retention: int, keep: nat)
    requires q != [] && keep == KeepIndex(c, q, now, retention, |q|)
    ensures keep < |q| && PruneQueue(c, q, now, retention) == q[keep..] && (|q| < 2 || keep == 0 ==> q[keep..] == q)
  {
    assert q[0..] == q;
  }

  lemma PrunedAll(c: Config, s: State, now: i64, queues: Queues)
    requires queues.Keys == s.queues.Keys
    requires forall k :: k in queues ==> queues[k] == PruneQueue(c, s.queues[k], now, Retention(c, s))
    ensures Prune(c, s, now) == s.(queues := queues)
  {
    hide PruneQueue;
    assert queues == Prune(c, s, now).queues;
  }

  lemma LaneShape(c: Config, s: State, k: StreamKey, bound: nat)
    requires LanesOk(c, s.queues, bound, s.lastObserved) && k in s.queues
    ensures s.queues[k] != [] && Arrived(s.queues[k]) && s.queues[k][0].packet.stream == k
  {
    assert LaneOk(c, k, s.queues[k], bound, s.lastObserved);
  }

  lemma NonemptyLanes(c: Config, m: Queues, bound: nat, clock: Option<i64>)
    requires LanesOk(c, m, bound, clock)
    ensures forall k :: k in m ==> m[k] != []
  {
    forall k | k in m ensures m[k] != [] {
      assert LaneOk(c, k, m[k], bound, clock);
    }
  }

  // ---------------------------------------------------------------------
  // Cutting

  ghost predicate CutLane(c: Config, s: State, now: i64, k: StreamKey, q: Queue) {
    k in s.queues && LaneStart(c, s.queues[k], now, s.target).Some? &&
    q == s.queues[k][LaneStart(c, s.queues[k], now, s.target).value..]
  }

  /** The plan so far is right about one lane: its start, or that it may go without one. */
  predicate PlannedAt(c: Config, s: State, now: i64, starts: map<StreamKey, nat>, k: StreamKey)
    requires k in s.queues
  {
    var start := LaneStart(c, s.queues[k], now, s.target);
    if k in starts then start.Some? && starts[k] == s.queues[k][start.value].sequence
    else start.None? && c.required != {} && k !in c.required
  }

  /** Planning one more lane leaves the others as they are. */
  lemma PlannedOne(c: Config, s: State, now: i64, before: map<StreamKey, nat>, after: map<StreamKey, nat>, lane: StreamKey)
    requires lane in s.queues && lane !in before
    requires var start := LaneStart(c, s.queues[lane], now, s.target);
             if start.Some? then after == before[lane := s.queues[lane][start.value].sequence]
             else after == before && c.required != {} && lane !in c.required
    ensures PlannedAt(c, s, now, after, lane)
    ensures forall k :: k in s.queues && k != lane && PlannedAt(c, s, now, before, k) ==> PlannedAt(c, s, now, after, k)
  {
    hide LaneStart;
  }

  /** Starts of all lanes make the plan; no start at all makes none. */
  lemma PlanIs(c: Config, s: State, now: i64, starts: map<StreamKey, nat>)
    requires s.queues != map[] && (forall k :: k in s.queues ==> s.queues[k] != []) && c.required <= s.queues.Keys
    requires starts.Keys <= s.queues.Keys && forall k :: k in s.queues ==> PlannedAt(c, s, now, starts, k)
    ensures PlanReady(c, s, now) <==> starts != map[]
    ensures starts == Plan(c, s, now)
  {
    hide LaneStart;
    assert forall k :: k in s.queues ==> (k in starts <==> LaneStart(c, s.queues[k], now, s.target).Some?);
    if starts != map[] {
      var some :| some in starts;
      assert some in s.queues && LaneStart(c, s.queues[some], now, s.target).Some?;
    }
    assert starts == Plan(c, s, now);
  }

  lemma PlanRefused(c: Config, s: State, now: i64)
    ensures s.queues == map[] || !(c.required <= s.queues.Keys) ==> !PlanReady(c, s, now)
  {
    hide LaneStart;
  }

  lemma RequiredMissing(c: Config, s: State, now: i64, lane: StreamKey)
    requires lane in s.queues && (c.required == {} || lane in c.required) && LaneStart(c, s.queues[lane], now, s.target).None?
    ensures !PlanReady(c, s, now)
  {
    hide LaneStart;
  }

  /** One lane after another gets its start; no plan once a required lane has none. */
  method PlanCuts(c: Config, s: State, now: i64) returns (plan: Option<map<StreamKey, nat>>)
    requires forall k :: k in s.queues ==> s.queues[k] != []
    ensures plan.Some? <==> PlanReady(c, s, now)
    ensures plan.Some? ==> plan.value == Plan(c, s, now)
  {
    hide LaneStart, PlanReady, Plan, PlannedAt;
    PlanRefused(c, s, now);
    if s.queues == map[] || !(c.required <= s.queues.Keys) {
      return None;
    }
    var starts: map<StreamKey, nat> := map[];
    var lanes := s.queues.Keys;
    while lanes != {}
      invariant lanes <= s.queues.Keys && starts.Keys <= s.queues.Keys - lanes
      invariant forall k :: k in s.queues && k !in lanes ==> PlannedAt(c, s, now, starts, k)
      decreases |lanes|
    {
      var lane :| lane in lanes;
      var start := ScanStart(c, s.queues[lane], now, s.target);
      ghost var before := starts;
      if start.None? {
        if c.required == {} || lane in c.required {
          RequiredMissing(c, s, now, lane);
          return None;
        }
      } else {
        starts := starts[lane := s.queues[lane][start.value].sequence];
      }
      PlannedOne(c, s, now, before, starts, lane);
      lanes := lanes - {lane};
    }
    PlanIs(c, s, now, starts);
    plan := if starts == map[] then None else Some(starts);
  }

  lemma PlannedLane(c: Config, s: State, now: i64, k: StreamKey)
    requires k in s.queues
    ensures var start := LaneStart(c, s.queues[k], now, s.target);
            && (k in Plan(c, s, now) <==> start.Some?)
            && (start.Some? ==> start.value < |s.queues[k]| && Plan(c, s, now)[k] == s.queues[k][start.value].sequence)
  {
  }

  lemma SequenceIndex(q: Queue, at: nat, i: nat)
    requires Arrived(q) && at < |q| && i <= |q| && (i < |q| ==> q[i].sequence == q[at].sequence)
    requires forall j :: 0 <= j < i ==> q[j].sequence != q[at].sequence
    ensures i == at
  {
    var x := q[at];
    if i < at {
      assert false;
    } else if at < i {
      assert false;
    }
  }

  lemma CutAll(c: Config, s: State, now: i64, queues: Queues)
    requires forall k :: k in queues ==> CutLane(c, s, now, k, queues[k])
    requires forall k :: k in s.queues ==> (k in queues <==> k in Plan(c, s, now))
    ensures ApplyPlan(c, s, now) == s.(queues := queues)
  {
    hide LaneStart;
    forall k | k in s.queues ensures k in Plan(c, s, now) <==> LaneStart(c, s.queues[k], now, s.target).Some? {
      PlannedLane(c, s, now, k);
    }
    assert queues == ApplyPlan(c, s, now).queues;
  }

  // ---------------------------------------------------------------------
  // Draining

  lemma OkHorizons(c: Config, s: State, bound: nat)
    requires Ok(c, s, bound)
    ensures HorizonsOk(s)
  {
  }

  /** The larger of a lane's highest PTS and the PTS of a new output. */
  method HigherPts(known: Option<Horizon>, p: Packet) returns (highest: Horizon)
    requires p.tb.Valid() && (known.Some? ==> known.value.tb.Valid())
    ensures highest == if known.Some? && Cmp(p.pts, p.tb.den, known.value.value, known.value.tb.den) <= 0
                       then known.value else Horizon(p.pts, p.tb)
  {
    if known.Some? {
      var order := CompareTimestamps(p.pts, p.tb, known.value.value, known.value.tb);
      if order <= 0 {
        return known.value;
      }
    }
    highest := Horizon(p.pts, p.tb);
  }

  /** What a drain step does once the watermark and the candidate are known. */
  lemma DrainOnceIs(c: Config, s: State, now: i64, missing: bool, found: Candidate, bound: nat)
    requires Ok(c, s, bound) && (missing <==> exists k :: k in s.active && Watching(c, s, now, k) && k !in s.latest)
    requires !missing && found.NothingDue? ==> forall k :: k in s.queues ==> !DueFront(s, now, k)
    requires !missing && found.Undatable? ==> !Ordered(s, now)
    requires !missing && found.Found? ==> Ordered(s, now) && Next(s, now, found.lane)
    ensures !missing && found.Found? ==>
              && found.lane in s.queues && s.queues[found.lane] != []
              && Ordering(s, s.queues[found.lane][0].packet).Some?
    ensures DrainOnce(c, s, now)
         == if missing || found.NothingDue? then Drained(s, [])
            else if found.Undatable? then Drained(EnterError(s, InvalidQueuedTimeBase), [])
            else DrainLane(c, s, now, found.lane)
  {
    hide DrainLane, Ok, EnterError, Watching, Due, Ordering, Precedes;
    if !missing && found.Found? {
      NextIsLane(c, s, now, found.lane, bound);
    }
  }

  lemma NextIsLane(c: Config, s: State, now: i64, k: StreamKey, bound: nat)
    requires Ok(c, s, bound) && Ordered(s, now) && Next(s, now, k)
    ensures DueFront(s, now, k) && NextLane(s, now) == k
    ensures k in s.queues && s.queues[k] != [] && Ordering(s, s.queues[k][0].packet).Some?
  {
    hide Ok, Ordering, Precedes;
    NextUnique(c, s, now, NextLane(s, now), k, bound);
  }

  /** The lane that a drain step releases from, if any, and the watermark it must respect. */
  method FindStep(c: Config, s: State, now: i64, ghost bound: nat) returns (found: Candidate, low: Option<Horizon>)
    requires Ok(c, s, bound)
    ensures found.Found? ==>
              && found.lane in s.queues && s.queues[found.lane] != []
              && Ordering(s, s.queues[found.lane][0].packet).Some? && LowestOf(c, s, now, s.active, low)
    ensures DrainOnce(c, s, now)
         == match found
            case NothingDue => Drained(s, [])
            case Undatable => Drained(EnterError(s, InvalidQueuedTimeBase), [])
            case Found(lane) => DrainLane(c, s, now, lane)
  {
    hide Ok, DrainLane, Ordered, DueFront, Watching, LowestOf, EnterError, Next, DrainOnce, Ordering, HorizonsOk;
    OkHorizons(c, s, bound);
    var missing: bool;
    missing, low := FindWatermark(c, s, now);
    if missing {
      DrainOnceIs(c, s, now, true, NothingDue, bound);
      return NothingDue, None;
    }
    found := FindCandidate(s, now);
    DrainOnceIs(c, s, now, false, found, bound);
  }

  lemma ErasedKeeps(c: Config, s: State, now: i64, k: StreamKey, low: Option<Horizon>, bound: nat)
    requires Ok(c, s, bound) && k in s.queues && s.queues[k] != [] && LowestOf(c, s, now, s.active, low)
    requires Ordering(s, s.queues[k][0].packet).Some?
    ensures var r := GateErases(s, k);
            && HorizonsOk(r) && r.queues == s.queues && LowestOf(c, r, now, r.active, low)
            && Ordering(s, s.queues[k][0].packet).value.tb.Valid()
  {
    hide Ok;
    OkHorizons(c, s, bound);
    var r := GateErases(s, k);
    if s.mode == Returning && !s.returnCommitted && k.kind == Video && k in s.returnKeys &&
       s.queues[k][0].sequence >= s.returnKeys[k] {
      assert r == s.(returnKeys := s.returnKeys - {k});
      LowestSame(c, s, r, now, low);
    } else {
      assert r == s;
    }
  }

  lemma LowestSame(c: Config, s: State, r: State, now: i64, low: Option<Horizon>)
    requires r.active == s.active && r.latest == s.latest && r.seen == s.seen && LowestOf(c, s, now, s.active, low)
    ensures LowestOf(c, r, now, r.active, low)
  {
    assert forall k :: Watching(c, r, now, k) <==> Watching(c, s, now, k);
  }

  lemma PoppedHorizons(s: State, k: StreamKey)
    requires HorizonsOk(s) && k in s.queues && s.queues[k] != []
    ensures HorizonsOk(PopFront(s, k))
  {
  }

  /** One turn of the drain loop against the fuelled specification. */
  lemma DrainStep(c: Config, s: State, now: i64, fuel: nat, out: seq<Output>, bound: nat)
    requires c.Valid() && Ok(c, s, bound) && fuel > Packets(s)
    ensures var one := DrainOnce(c, s, now);
            var all := DrainUpTo(c, s, now, fuel);
            if one.out == [] then all == one
            else
              var rest := DrainUpTo(c, one.state, now, fuel - 1);
              fuel - 1 > Packets(one.state) && all.state == rest.state && out + all.out == (out + one.out) + rest.out
  {
    hide Ok, DrainOnce, Packets;
    if DrainOnce(c, s, now).out != [] {
      DrainShrinks(c, s, now, bound);
    }
  }

  lemma DrainShrinks(c: Config, s: State, now: i64, bound: nat)
    requires c.Valid() && Ok(c, s, bound) && DrainOnce(c, s, now).out != []
    ensures Packets(DrainOnce(c, s, now).state) < Packets(s)
  {
    hide DrainOnce, Weight, PopFront;
    var r := DrainOnce(c, s, now);
    DrainOncePops(c, s, now, bound);
    OkDrainOnce(c, s, now, bound);
    DrainOnceMode(c, s, now);
    var j :| j in s.queues && s.queues[j] != [] && r.state.queues == PopFront(s, j).queues;
    PopWeight(s, j, One);
  }

  lemma PendingCounts(s: State)
    requires s.pending != []
    ensures var x := s.pending[0]; var before := CountsOf(s);
            && before.packets > 0 && before.payload >= x.packet.retained && before.retained >= x.retained
            && CountsOf(s.(pending := s.pending[1..]))
                 == Counts(before.packets - 1, before.payload - x.packet.retained, before.retained - x.retained)
  {
    hide Weight;
    FrontWeight(s.pending, Payload);
    FrontWeight(s.pending, Retained);
  }

  /** One turn of the pending loop. */
  lemma PendingStep(c: Config, s: State, now: i64, out: seq<Output>, bound: nat)
    requires c.Valid() && Ok(c, s, bound) && s.pending != []
    ensures var popped := s.(pending := s.pending[1..]);
            var one := Emit(popped, s.pending[0], now, false, ReturnRegression, ReturnRegression);
            && HorizonsOk(popped)
            && (if one.out == [] then DrainPending(s, now) == one
                else
                  && Ok(c, one.state, bound) && one.state.pending == s.pending[1..]
                  && DrainPending(s, now).state == DrainPending(one.state, now).state
                  && out + DrainPending(s, now).out == (out + one.out) + DrainPending(one.state, now).out)
  {
    hide Emit, Ok;
    OkEmitPending(c, s, now, bound);
    PendingParts(c, s, now, bound);
  }

  lemma PendingParts(c: Config, s: State, now: i64, bound: nat)
    requires Ok(c, s, bound) && s.pending != []
    ensures var popped := s.(pending := s.pending[1..]);
            var one := Emit(popped, s.pending[0], now, false, ReturnRegression, ReturnRegression);
            HorizonsOk(popped) && (one.out != [] ==> one.state.pending == s.pending[1..])
  {
    hide EnterError;
  }

  // ---------------------------------------------------------------------
  // Enqueueing

  lemma OkParts(c: Config, s: State, bound: nat)
    requires Ok(c, s, bound)
    ensures LanesOk(c, s.queues, bound, s.lastObserved) && HorizonsOk(s)
  {
  }

  function NewerOf(known: Option<Horizon>, dts: Horizon): Horizon {
    if known.None? || Cmp(dts.value, dts.tb.den, known.value.value, known.value.tb.den) > 0 then dts else known.value
  }

  /** The later of a lane's newest DTS and a new one. */
  method NewerDts(known: Option<Horizon>, dts: Horizon) returns (newest: Horizon)
    requires dts.tb.Valid() && (known.Some? ==> known.value.tb.Valid())
    ensures newest == NewerOf(known, dts)
  {
    if known.Some? {
      var order := CompareTimestamps(dts.value, dts.tb, known.value.value, known.value.tb);
      if order <= 0 {
        return known.value;
      }
    }
    newest := dts;
  }

  lemma LatestValid(s: State, k: StreamKey)
    requires HorizonsOk(s)
    ensures Find(s.latest, k).Some? ==> Find(s.latest, k).value.tb.Valid()
  {
  }

  lemma OrderingValid(s: State, p: Packet)
    ensures Ordering(s, p).Some? ==> Ordering(s, p).value.tb.Valid()
  {
  }

  lemma PrunedHorizons(c: Config, s: State, now: i64)
    requires HorizonsOk(s)
    ensures HorizonsOk(Prune(c, s, now))
  {
    hide PruneQueue;
  }

  lemma AppendIs(c: Config, s: State, r: State, p: Packet, now: i64, n: nat, dts: Horizon, newest: Horizon)
    requires newest == NewerOf(Find(s.latest, p.stream), dts)
    requires r == s.(queues := r.queues, latest := r.latest, seen := r.seen, active := r.active)
    requires r.queues == Appended(s.queues, NewItem(c, p, now, n)) && r.latest == s.latest[p.stream := newest]
    requires r.seen == s.seen[p.stream := now] && r.active == if EpochActive(s) then s.active + {p.stream} else s.active
    ensures r == Append(c, s, p, now, n, dts)
  {
    hide Cmp;
  }

  // ---------------------------------------------------------------------
  // Live packets and the return

  lemma PreparedHorizons(c: Config, s: State, stream: StreamKey)
    requires HorizonsOk(s)
    ensures HorizonsOk(PrepareStream(c, s, stream).state)
  {
    hide HasOldGeneration, EnterError, DropReplaced, HorizonsOk;
    var s1 := s.(known := s.known + {Timeline(stream)});
    HorizonsSame(s, s1);
    ErrorHorizons(s, TooManyTimelines);
    ErrorHorizons(s1, GenerationChanged);
    DroppedHorizons(s1, stream);
  }

  lemma ErrorHorizons(s: State, fault: Fault)
    requires HorizonsOk(s)
    ensures HorizonsOk(EnterError(s, fault))
  {
  }

  lemma DroppedHorizons(s: State, stream: StreamKey)
    requires HorizonsOk(s)
    ensures HorizonsOk(DropReplaced(s, stream))
  {
    hide Stay, Awaited;
  }

  /** What live retimestamping comes to once the lane's offset is settled. */
  lemma LiveFromIs(s: State, r: State, p: Packet)
    requires r == s.(offsets := r.offsets)
    requires p.stream in s.offsets ==> r.offsets == s.offsets
    requires p.stream !in s.offsets && EpochOffset(s, p, 0).Some? ==>
               r.offsets == s.offsets[p.stream := EpochOffset(s, p, 0).value]
    requires p.stream !in s.offsets && EpochOffset(s, p, 0).None? ==> r.offsets == s.offsets
    ensures p.stream in r.offsets <==> p.stream in s.offsets || EpochOffset(s, p, 0).Some?
    ensures LiveFrom(s, p)
         == if p.stream !in r.offsets then Live(r, p, false)
            else
              var shifted := Retimestamp(p, r.offsets[p.stream]);
              if shifted.None? then Live(r, p, false)
              else
                var noted := Note(r, shifted.value);
                Live(if noted.Some? then noted.value else r, shifted.value, noted.Some?)
  {
    hide EpochOffset, Note, Retimestamp;
    if p.stream in s.offsets {
      assert s.offsets[p.stream := s.offsets[p.stream]] == s.offsets;
    }
  }

  lemma ReturnStarted(c: Config, s: State, r: State, fromDelayed: bool, now: i64, awaited: set<StreamKey>)
    requires awaited == ReturnLanes(c, s)
    requires r == s.(mode := Returning, returnFromDelayed := fromDelayed, returnCommitted := false,
                     returnRequested := Some(now), returnKeys := map[], returnVideo := awaited,
                     preparingChange := false, originDelayed := false)
    ensures r == StartReturn(c, s, fromDelayed, now)
  {
  }

  lemma OnlyPending(s: State)
    requires s.queues == map[]
    ensures CountsOf(s) == Counts(|s.pending|, SeqWeight(s.pending, Payload), SeqWeight(s.pending, Retained))
  {
  }

  lemma StepOk(c: Config, s: State, op: Op, n: nat)
    requires c.Valid() && Ok(c, s, n)
    ensures Ok(c, Step(c, s, op, n).state, NextSequence(op, n))
  {
    hide Step, Ok;
    StepKeeps(c, s, op, n);
  }

  // ---------------------------------------------------------------------
  // Requests

  /** Where a transaction stands. */
  datatype Control = Control(
    mode: Mode, target: nat, pendingTarget: nat, previousTarget: nat, preparingChange: bool, originDelayed: bool,
    fault: Option<Fault>)

  function With(s: State, k: Control): State {
    s.(mode := k.mode, target := k.target, pendingTarget := k.pendingTarget, previousTarget := k.previousTarget,
       preparingChange := k.preparingChange, originDelayed := k.originDelayed, fault := k.fault)
  }

  lemma ActivateIs(c: Config, s: State, delay: int, now: i64)
    requires !Regresses(s, now) && ValidDelay(c, delay) && s.mode == Bypass
    ensures DoActivate(c, s, delay, now)
         == With(ClearAll(Observe(s, now)), Control(Preparing, delay, delay, 0, false, false, None))
  {
  }

  lemma BeginFillingIs(s: State, now: i64)
    requires !Regresses(s, now) && s.mode == Preparing
    ensures var s1 := Observe(s, now);
            DoBeginFilling(s, now)
              == With(if s1.preparingChange then s1 else ClearQueues(s1),
                      Control(Filling, s1.pendingTarget, s1.pendingTarget, s1.previousTarget, false,
                              s1.preparingChange && s1.originDelayed, s1.fault))
  {
  }

  lemma FreshTarget(s: State, delay: nat)
    ensures ClearAll(s).(target := delay, pendingTarget := delay, mode := Preparing)
         == With(ClearAll(s), Control(Preparing, delay, delay, s.previousTarget, false, false, s.fault))
  {
  }

  function RetargetResult(s: State, delay: nat): RequestResult {
    if s.mode == Returning || s.mode == Failed then InvalidState
    else if delay == ReportedTarget(s) then NoOp
    else Accepted
  }

  lemma ChangeRefused(c: Config, s: State, delay: int, now: i64)
    ensures Regresses(s, now) || !ValidDelay(c, delay) ==>
              && DoChangeDelay(c, s, delay, now) == Observe(s, now)
              && ChangeResult(c, s, delay, now) == (if Regresses(s, now) then ClockRegressed else InvalidDelay)
  {
    hide Observe, Retarget, ClearAll;
  }

  lemma ChangeKeeps(c: Config, s: State, delay: int, now: i64, n: nat)
    requires c.Valid() && Ok(c, s, n)
    ensures Ok(c, DoChangeDelay(c, s, delay, now), n)
  {
    hide Ok, DoChangeDelay;
    StepOk(c, s, ChangeDelay(delay, now), n);
  }

  lemma ChangeIs(c: Config, s: State, delay: int, now: i64)
    requires !Regresses(s, now) && ValidDelay(c, delay)
    ensures var s1 := Observe(s, now);
            && s1.mode == s.mode
            && ChangeResult(c, s, delay, now) == (if s.mode == Bypass then Accepted else RetargetResult(s1, delay))
            && DoChangeDelay(c, s, delay, now)
                 == if s.mode == Bypass then ClearAll(s1).(target := delay, pendingTarget := delay, mode := Preparing)
                    else Retarget(s1, delay)
  {
    hide Retarget, ClearAll;
  }

  lemma RetargetIs(s: State, delay: nat)
    ensures Retarget(s, delay)
         == match s.mode
            case Preparing =>
              if delay == ReportedTarget(s) then s
              else With(s, Control(Preparing, if s.preparingChange then s.target else delay, delay, s.previousTarget,
                                   s.preparingChange, s.originDelayed, s.fault))
            case Filling =>
              if delay == s.target then s
              else With(s, Control(Filling, delay, delay, if s.originDelayed then s.previousTarget else s.target,
                                   s.preparingChange, s.originDelayed, s.fault))
            case Delayed =>
              if delay == s.target then s
              else With(s, Control(Preparing, s.target, delay, s.target, true, true, s.fault))
            case _ => s
  {
    hide ReportedTarget;
    if s.mode == Preparing {
    } else if s.mode == Filling {
    } else if s.mode == Delayed {
    }
  }

  ghost function CutOver(c: Config, s: State, now: i64, left: map<StreamKey, i64>): State {
    var cut := ApplyPlan(c, s, now);
    match BeginEpoch(cut)
    case None => EnterError(cut.(offsets := left), DelayedEpoch)
    case Some(e) => EnterDelayed(c, e)
  }

  function EnterDelayed(c: Config, s: State): State {
    With(s.(active := c.required + s.queues.Keys),
         Control(Delayed, s.target, s.target, s.previousTarget, false, false, s.fault))
  }

  /** What committing comes to, whichever offsets a failed epoch leaves behind. */
  lemma CommitOk(c: Config, s: State, now: i64, left: map<StreamKey, i64>, n: nat)
    requires c.Valid() && Ok(c, s, n)
    ensures Ok(c, DoCommitDelayed(c, s, now, left), n) && Ok(c, Observe(s, now), n)
    ensures var s1 := Observe(s, now);
            DoCommitDelayed(c, s, now, left)
              == if Regresses(s, now) || s1.mode != Filling || !PlanReady(c, s1, now) then s1
                 else CutOver(c, s1, now, left)
  {
    hide Ok, Observe, PlanReady, ApplyPlan, BeginEpoch, EnterError;
    QuietClock(c, s, now, n);
    QuietCommitDelayed(c, s, now, left, n);
  }

  lemma CutParts(c: Config, s: State, now: i64, n: nat)
    requires Ok(c, s, n)
    ensures var cut := ApplyPlan(c, s, now);
            HorizonsOk(cut) && forall k :: k in cut.queues ==> cut.queues[k] != [] && cut.queues[k][0].packet.stream == k
  {
    hide LaneStart, Ok;
    var cut := ApplyPlan(c, s, now);
    PlanSuffixes(c, s, now);
    CutOk(c, s, cut, n);
    forall k | k in cut.queues ensures cut.queues[k] != [] && cut.queues[k][0].packet.stream == k {
      LaneShape(c, cut, k, n);
    }
  }

  lemma CutOk(c: Config, s: State, cut: State, n: nat)
    requires Ok(c, s, n) && cut == s.(queues := cut.queues) && Suffixes(cut.queues, s.queues)
    ensures LanesOk(c, cut.queues, n, cut.lastObserved) && HorizonsOk(cut)
  {
    SuffixesLanes(c, cut.queues, s.queues, n, s.lastObserved);
  }

  /** The queues and dates of a failed epoch are forgotten, its offsets stay. */
  lemma EpochErrorSame(s: State, r: State, offsets: map<StreamKey, i64>)
    requires r == s.(offsets := offsets, latest := r.latest)
    ensures EnterError(r, DelayedEpoch) == EnterError(s.(offsets := offsets), DelayedEpoch)
  {
  }

  lemma CancelledIs(c: Config, s: State, now: i64)
    ensures Cancelled(c, s, now)
         == if s.mode == Preparing && s.preparingChange then
              With(s, Control(Delayed, s.target, s.target, s.previousTarget, false, false, s.fault))
            else if s.mode == Filling && s.originDelayed then
              With(s, Control(Delayed, s.previousTarget, s.previousTarget, s.previousTarget, false, false, s.fault))
            else if s.mode == Preparing || s.mode == Filling then StartReturn(c, s, s.originDelayed, now)
            else s
  {
    hide StartReturn;
  }

  ghost function GoLive(c: Config, s: State, left: map<StreamKey, i64>): State {
    match BuildPending(c, s)
    case None => EnterError(s.(offsets := left), LiveEpoch)
    case Some(s1) => s1.(returnCommitted := true, returnFromDelayed := false)
  }

  lemma CommitReturnOk(c: Config, s: State, now: i64, left: map<StreamKey, i64>, n: nat)
    requires c.Valid() && Ok(c, s, n)
    ensures Ok(c, DoCommitReturn(c, s, now, left), n) && Ok(c, Observe(s, now), n)
    ensures var s1 := Observe(s, now);
            DoCommitReturn(c, s, now, left)
              == if Regresses(s, now) || s1.mode != Returning || s1.returnCommitted || !ReturnReady(c, s1, now) then s1
                 else GoLive(c, s1, left)
  {
    hide Ok, Observe, ReturnReady, BuildPending, EnterError;
    QuietClock(c, s, now, n);
    QuietCommitReturn(c, s, now, left, n);
  }

  lemma ToBypass(s: State)
    ensures ClearAll(s).(target := 0, pendingTarget := 0, previousTarget := 0, mode := Bypass)
         == With(ClearAll(s), Control(Bypass, 0, 0, 0, false, false, s.fault))
    ensures ClearAll(s).(target := 0, pendingTarget := 0, previousTarget := 0, fault := None, mode := Bypass)
         == With(ClearAll(s), Control(Bypass, 0, 0, 0, false, false, None))
  {
  }

  lemma ClearedFault(s: State)
    ensures ClearAll(s).fault == s.fault
  {
  }

  // ---------------------------------------------------------------------
  // Packets in and out

  lemma ExternalIs(c: Config, s: State, p: Packet)
    ensures var s1 := s.(known := s.known + {Timeline(p.stream)});
            DoExternal(c, s, p)
              == if Timeline(p.stream) !in s.known && |s.known| >= c.maxStreams then EnterError(s, TooManyTimelines)
                 else if Note(s1, p).Some? then Note(s1, p).value
                 else EnterError(s1, ExternalOutput)
    ensures var s1 := s.(known := s.known + {Timeline(p.stream)});
            && EnterError(s, TooManyTimelines).mode == Failed && EnterError(s1, ExternalOutput).mode == Failed
            && (HorizonsOk(s) ==> HorizonsOk(s1))
            && (ExternalAccepted(c, s, p) <==> (Timeline(p.stream) in s.known || |s.known| < c.maxStreams) && Note(s1, p).Some?)
  {
    hide EnterError;
    var s1 := s.(known := s.known + {Timeline(p.stream)});
    ErrorHolds(s, TooManyTimelines);
    ErrorHolds(s1, ExternalOutput);
  }

  lemma PushOk(c: Config, s: State, p: Packet, now: i64, n: nat)
    requires c.Valid() && Ok(c, s, n)
    ensures Ok(c, DoPush(c, s, p, now, n).state, n + 1) && Ok(c, Observe(s, now), n) && HorizonsOk(Observe(s, now))
    ensures !Regresses(s, now) ==> Observe(s, now).lastObserved == Some(now)
  {
    hide DoPush, Ok;
    StepOk(c, s, Op.Push(p, now), n);
    QuietClock(c, s, now, n);
    OkHorizons(c, Observe(s, now), n);
  }

  lemma BuffersNow(c: Config, s: State, n: nat)
    requires Ok(c, s, n) && !PassesLive(s) && !(s.mode == Returning && s.returnCommitted)
    ensures Buffering(s) && !s.returnCommitted
  {
  }

  lemma PendingHorizons(c: Config, s: State, now: i64, n: nat)
    requires c.Valid() && Ok(c, s, n)
    ensures HorizonsOk(DrainPending(s, now).state)
  {
    hide Ok, DrainPending;
    OkDrainPending(c, s, now, n);
    OkHorizons(c, DrainPending(s, now).state, n);
  }

  lemma EnqueueFlag(c: Config, s: State, p: Packet, now: i64, n: nat)
    requires Enqueue(c, s, p, now, n).ok && s.mode == Returning
    ensures Enqueue(c, s, p, now, n).state.returnFromDelayed == s.returnFromDelayed
  {
    hide PrepareStream, DropReplaced, Place, EnterError;
    var s1 := s.(known := s.known + {Timeline(p.stream)});
    PreparedIs(c, s, p.stream);
    DroppedReturn(s1, p.stream);
    PlaceReturning(c, DropReplaced(s1, p.stream), p, now, n);
  }

  lemma EnqueuedOk(c: Config, s: State, p: Packet, now: i64, n: nat)
    requires c.Valid() && Ok(c, s, n) && Buffering(s) && !s.returnCommitted && s.lastObserved == Some(now)
    ensures var r := Enqueue(c, s, p, now, n);
            && HorizonsOk(r.state)
            && (r.ok ==> Ok(c, r.state, n + 1) && r.state.mode == s.mode
                         && LanesOk(c, r.state.queues, n + 1, r.state.lastObserved)
                         && (s.mode == Returning ==> r.state.returnFromDelayed == s.returnFromDelayed)
                         && (s.mode == Returning ==> Ok(c, ObserveReturnKey(c, r.state, NewItem(c, p, now, n)), n + 1)))
  {
    hide Ok, Enqueue, ObserveReturnKey;
    OkEnqueue(c, s, p, now, n);
    var r := Enqueue(c, s, p, now, n);
    if r.ok {
      OkParts(c, r.state, n + 1);
      if s.mode == Returning {
        EnqueueFlag(c, s, p, now, n);
        QuietObserveKey(c, r.state, NewItem(c, p, now, n), n + 1);
      }
    } else {
      OkParts(c, r.state, n);
    }
  }

  lemma PruneKeepsOk(c: Config, s: State, now: i64, n: nat)
    requires Ok(c, s, n)
    ensures Ok(c, Prune(c, s, now), n)
  {
    OkPrune(c, s, now, n);
  }

  lemma DrainKeepsOk(c: Config, s: State, now: i64, n: nat)
    requires c.Valid() && Ok(c, s, n)
    ensures var r := Drain(c, s, now).state;
            Ok(c, r, n) && LanesOk(c, r.queues, n, r.lastObserved)
  {
    hide Ok, Drain;
    OkDrain(c, s, now, n);
    OkParts(c, Drain(c, s, now).state, n);
  }

  lemma PollOk(c: Config, s: State, now: i64, n: nat)
    requires c.Valid() && Ok(c, s, n)
    ensures Ok(c, DoPoll(c, s, now).state, n) && Ok(c, Observe(s, now), n)
    ensures var r := Observe(s, now); LanesOk(c, r.queues, n, r.lastObserved)
  {
    hide DoPoll, Ok, Observe;
    StepOk(c, s, Poll(now), n);
    QuietClock(c, s, now, n);
    OkParts(c, Observe(s, now), n);
  }
}
