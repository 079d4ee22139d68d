/** Turning the delay off does not interrupt it. */
module PacketDelayTwin {
  // The delayed output before a request and after it: two runs that differ by one request only, compared by what
  // they hand out, until a packet at or past the cut to live is reached.

  import opened Options
  import opened Timestamps
  import opened PacketTypes
  import opened PacketDelaySpec
  import opened PacketDelayStep
  import opened PacketDelayInvariant
  import opened PacketDelayKeep
  import opened PacketDelayRun
  import opened PacketDelayResults
  import opened PacketDelayDecode
  import opened PacketDelayReturn
  import opened PacketDelayCounts
  import opened PacketDelayAge
  import opened PacketDelayWaits
  import opened PacketDelayGate

  /** All that decides which packets leave and how they are shown is the same. */
  predicate Twin(s: State, r: State) {
    && r.queues == s.queues && r.pending == s.pending && r.known == s.known && r.active == s.active
    && r.latest == s.latest && r.seen == s.seen && r.offsets == s.offsets && r.target == s.target
    && r.outputDts == s.outputDts && r.outputPts == s.outputPts && r.emitted == s.emitted
    && (r.mode == Failed <==> s.mode == Failed)
  }

  // ---------------------------------------------------------------------
  // One turn of the drain

  lemma TwinFronts(s: State, r: State, now: i64)
    requires Twin(s, r)
    ensures forall k :: DueFront(s, now, k) == DueFront(r, now, k)
    ensures forall p :: Ordering(s, p) == Ordering(r, p)
  {
    hide Due;
  }

  lemma NextFollows(s: State, r: State, now: i64, k: StreamKey)
    requires Twin(s, r) && Next(s, now, k)
    ensures Next(r, now, k)
  {
    hide Ordering, Cmp, Due;
    TwinFronts(s, r, now);
    forall j | j in r.queues && DueFront(r, now, j) ensures Precedes(r, r.queues[k][0], r.queues[j][0]) {
      assert DueFront(s, now, j);
      assert Precedes(s, s.queues[k][0], s.queues[j][0]);
    }
  }

  lemma TwinBack(s: State, r: State)
    requires Twin(s, r)
    ensures Twin(r, s)
  {
  }

  lemma TwinNext(s: State, r: State, now: i64)
    requires Twin(s, r)
    ensures Ordered(s, now) == Ordered(r, now) && forall k :: Next(s, now, k) == Next(r, now, k)
    ensures forall k :: DueFront(s, now, k) == DueFront(r, now, k)
  {
    hide Next, Ordering, Twin;
    TwinFronts(s, r, now);
    TwinOffsets(s, r);
    TwinBack(s, r);
    forall k ensures Next(s, now, k) == Next(r, now, k) {
      if Next(s, now, k) {
        NextFollows(s, r, now, k);
      }
      if Next(r, now, k) {
        NextFollows(r, s, now, k);
      }
    }
  }

  lemma TwinWatch(c: Config, s: State, r: State, now: i64)
    requires Twin(s, r)
    ensures forall k :: Watching(c, s, now, k) == Watching(c, r, now, k)
  {
    hide Elapsed;
  }

  lemma TwinWatermark(c: Config, s: State, r: State, now: i64, dts: Horizon)
    requires Twin(s, r)
    ensures Watermark(c, s, now, dts) == Watermark(c, r, now, dts)
  {
    hide Watching, DurationTicksCeil, AddTimestamp, Cmp;
    TwinWatch(c, s, r, now);
  }

  lemma TwinError(s: State, r: State, fault: Fault)
    requires Twin(s, r)
    ensures Twin(EnterError(s, fault), EnterError(r, fault))
  {
  }

  lemma TwinNote(s: State, r: State, p: Packet)
    requires Twin(s, r)
    ensures Note(s, p).None? <==> Note(r, p).None?
    ensures Note(s, p).Some? ==> Twin(Note(s, p).value, Note(r, p).value)
  {
    hide Cmp;
  }

  lemma TwinEmit(s: State, r: State, x: Queued, now: i64, delayed: bool, overflow: Fault, regress: Fault)
    requires Twin(s, r)
    ensures var a, b := Emit(s, x, now, delayed, overflow, regress), Emit(r, x, now, delayed, overflow, regress);
            a.out == b.out && Twin(a.state, b.state)
  {
    hide Note, Retimestamp, EnterError, Twin;
    assert s.offsets == r.offsets by { TwinOffsets(s, r); }
    TwinError(s, r, overflow);
    TwinError(s, r, regress);
    if x.packet.stream in s.offsets && Retimestamp(x.packet, s.offsets[x.packet.stream]).Some? {
      TwinNote(s, r, Retimestamp(x.packet, s.offsets[x.packet.stream]).value);
    }
  }

  lemma TwinOffsets(s: State, r: State)
    requires Twin(s, r)
    ensures s.offsets == r.offsets && s.queues == r.queues && s.active == r.active && s.latest == r.latest
  {
  }

  lemma TwinPop(s: State, r: State, k: StreamKey)
    requires Twin(s, r) && k in s.queues && s.queues[k] != []
    ensures Twin(PopFront(s, k), PopFront(r, k))
  {
  }

  lemma TwinErased(s: State, r: State, k: StreamKey)
    requires Twin(s, r) && k in r.queues && r.queues[k] != []
    ensures Twin(s, GateErases(r, k))
  {
  }

  /** Next to leave, and stopped. */
  ghost predicate Stopped(c: Config, r: State, now: i64, k: StreamKey) {
    Next(r, now, k) && GateStops(c, r, now, k)
  }

  lemma LaneTwin(c: Config, s: State, r: State, now: i64, k: StreamKey)
    requires Twin(s, r) && s.mode != Returning && k in s.queues && s.queues[k] != [] && Ordering(s, s.queues[k][0].packet).Some?
    ensures k in r.queues && r.queues[k] == s.queues[k] && Ordering(r, r.queues[k][0].packet).Some?
    ensures var a, b := DrainLane(c, s, now, k), DrainLane(c, r, now, k);
            if GateStops(c, r, now, k) then
              b == Drained(r, []) && (a.out == [] || (|a.out| == 1 && a.out[0].sequence == r.queues[k][0].sequence))
            else a.out == b.out && Twin(a.state, b.state)
  {
    hide Watermark, Emit, EnterError, PopFront, GateErases, GateStops, Twin, Ordering;
    TwinOffsets(s, r);
    TwinFronts(s, r, now);
    assert GateErases(s, k) == s && !GateStops(c, s, now, k) by { NotGated(c, s, now, k); }
    var r1 := GateErases(r, k);
    TwinErased(s, r, k);
    TwinWatermark(c, s, r1, now, Ordering(s, s.queues[k][0].packet).value);
    TwinError(s, r1, ReorderWindow);
    TwinPop(s, r1, k);
    TwinOffsets(s, r1);
    TwinEmit(PopFront(s, k), PopFront(r1, k), s.queues[k][0], now, true, RetimestampOverflow, LatePacket);
    EmitsOne(PopFront(s, k), s.queues[k][0], now, true, RetimestampOverflow, LatePacket);
  }

  lemma NotGated(c: Config, s: State, now: i64, k: StreamKey)
    requires s.mode != Returning && k in s.queues && s.queues[k] != []
    ensures GateErases(s, k) == s && !GateStops(c, s, now, k)
  {
  }

  lemma EmitsOne(s: State, x: Queued, now: i64, delayed: bool, overflow: Fault, regress: Fault)
    ensures var a := Emit(s, x, now, delayed, overflow, regress); a.out == [] || (|a.out| == 1 && a.out[0].sequence == x.sequence)
  {
    hide Note, Retimestamp, EnterError;
  }

  /** The next packet is stopped, and is what the other run hands out if it hands out anything. */
  ghost predicate Halted(c: Config, r: State, now: i64, out: seq<Output>) {
    exists k :: Stopped(c, r, now, k) && (out == [] || (|out| == 1 && out[0].sequence == r.queues[k][0].sequence))
  }

  lemma OnceTwin(c: Config, s: State, r: State, now: i64, n: nat)
    requires Ok(c, s, n) && Twin(s, r) && s.mode != Returning
    ensures var a, b := DrainOnce(c, s, now), DrainOnce(c, r, now);
            || (a.out == b.out && Twin(a.state, b.state))
            || (b == Drained(r, []) && Halted(c, r, now, a.out))
  {
    hide Ok, DrainLane, Next, Ordered, DueFront, Watching, EnterError, Twin, GateStops;
    TwinOffsets(s, r);
    TwinNext(s, r, now);
    TwinWatch(c, s, r, now);
    TwinError(s, r, InvalidQueuedTimeBase);
    if !(exists k :: k in s.active && Watching(c, s, now, k) && k !in s.latest) &&
       Ordered(s, now) && exists k :: k in s.queues && DueFront(s, now, k) {
      assert exists k :: k in r.queues && DueFront(r, now, k);
      var k, j := NextLane(s, now), NextLane(r, now);
      NextUnique(c, s, now, k, j, n);
      NextDated(s, now, k);
      LaneTwin(c, s, r, now, k);
      assert GateStops(c, r, now, k) ==> Stopped(c, r, now, k);
    }
  }

  // ---------------------------------------------------------------------
  // The whole drain

  /** What was handed out is the start of what the other run hands out, whose next packet is in front of one of the
      lanes and at or past the cut. */
  ghost predicate CutMet(c: Config, r: State, now: i64, kept: seq<Output>, done: seq<Output>) {
    done <= kept && r.mode == Returning && exists k :: NextAtCut(c, r, now, k, kept[|done|..])
  }

  ghost predicate NextAtCut(c: Config, r: State, now: i64, k: StreamKey, more: seq<Output>) {
    AtCut(c, r, now, k) && (more != [] ==> more[0].sequence == r.queues[k][0].sequence)
  }

  /** Its cuts, if it has any, are in order. */
  ghost predicate Keyed(c: Config, r: State) {
    r.mode == Returning ==> !r.returnCommitted && KeysAre(c, r)
  }

  lemma StoppedMet(c: Config, r: State, now: i64, k: StreamKey, kept: seq<Output>, n: nat)
    requires Ok(c, r, n) && Keyed(c, r) && Stopped(c, r, now, k)
    requires kept != [] ==> kept[0].sequence == r.queues[k][0].sequence
    ensures CutMet(c, r, now, kept, [])
  {
    hide Ok, KeysAre, AtCut, Next;
    assert k in r.queues && r.queues[k] != [] by { NextThere(r, now, k); }
    assert r.mode == Returning;
    GateIsCut(c, r, now, k, n);
    assert kept[0..] == kept;
    assert NextAtCut(c, r, now, k, kept[0..]);
  }

  lemma NextThere(r: State, now: i64, k: StreamKey)
    requires Next(r, now, k)
    ensures k in r.queues && r.queues[k] != []
  {
  }

  lemma MetMore(c: Config, r: State, now: i64, first: seq<Output>, kept: seq<Output>, done: seq<Output>)
    requires CutMet(c, r, now, kept, done)
    ensures CutMet(c, r, now, first + kept, first + done)
  {
    hide NextAtCut;
    assert (first + kept)[|first + done|..] == kept[|done|..];
  }

  lemma KeyedOnce(c: Config, r: State, now: i64, n: nat)
    requires Ok(c, r, n) && Keyed(c, r) && DrainOnce(c, r, now).out != []
    ensures Keyed(c, DrainOnce(c, r, now).state) && SameReturn(r, DrainOnce(c, r, now).state)
  {
    hide Ok, DrainOnce, KeysAre;
    DrainOnceMode(c, r, now);
    if r.mode == Returning {
      DrainOnceKeys(c, r, now, n);
    }
  }

  lemma TwinPackets(s: State, r: State)
    requires Twin(s, r)
    ensures Packets(s) == Packets(r)
  {
  }

  lemma {:induction false} DrainTwin(c: Config, s: State, r: State, now: i64, fuel: nat, n: nat)
    requires c.Valid() && Ok(c, s, n) && Ok(c, r, n) && Keyed(c, r) && Twin(s, r) && s.mode != Returning && fuel > Packets(s)
    ensures var a, b := DrainUpTo(c, s, now, fuel), DrainUpTo(c, r, now, fuel);
            (a.out == b.out && Twin(a.state, b.state)) || CutMet(c, b.state, now, a.out, b.out)
    decreases fuel
  {
    hide Ok, DrainOnce, Twin, Keyed, Packets, CutMet, GateStops, NextAtCut;
    TwinPackets(s, r);
    OnceTwin(c, s, r, now, n);
    DrainStep(c, s, now, fuel, [], n);
    DrainStep(c, r, now, fuel, [], n);
    var a, b := DrainOnce(c, s, now), DrainOnce(c, r, now);
    if a.out == b.out && Twin(a.state, b.state) {
      if a.out != [] {
        OkDrainOnce(c, s, now, n);
        OkDrainOnce(c, r, now, n);
        KeyedOnce(c, r, now, n);
        DrainOnceMode(c, s, now);
        assert a.state.mode != Returning by { SameNotReturning(s, a.state); }
        DrainTwin(c, a.state, b.state, now, fuel - 1, n);
        var x, y := DrainUpTo(c, a.state, now, fuel - 1), DrainUpTo(c, b.state, now, fuel - 1);
        if CutMet(c, y.state, now, x.out, y.out) {
          MetMore(c, y.state, now, a.out, x.out, y.out);
        }
      }
    } else {
      var k :| Stopped(c, r, now, k) && (a.out == [] || (|a.out| == 1 && a.out[0].sequence == r.queues[k][0].sequence));
      StoppedMet(c, r, now, k, DrainUpTo(c, s, now, fuel).out, n);
    }
  }

  lemma SameNotReturning(s: State, r: State)
    requires s.mode != Returning && (r.mode == Failed || SameReturn(s, r))
    ensures r.mode != Returning
  {
  }

  // ---------------------------------------------------------------------
  // When pruning drops nothing

  /** No packet behind a lane's front could be the start of what pruning keeps. */
  predicate Spared(c: Config, s: State, now: i64) {
    forall k, i :: k in s.queues && 1 <= i < |s.queues[k]| && Anchor(c, s.queues[k][i]) ==>
      now as int - s.queues[k][i].receivedAt as int < s.target + c.headroom
  }

  lemma {:induction false} KeepsFirst(c: Config, q: Queue, now: i64, retention: int, m: nat)
    requires m <= |q| && forall i :: 1 <= i < m && Anchor(c, q[i]) ==> now as int - q[i].receivedAt as int < retention
    ensures KeepIndex(c, q, now, retention, m) == 0
  {
    hide Anchor;
    if m > 1 {
      if DuePrefix(q, now, retention, m) {
        assert Due(now, q[m - 1].receivedAt, retention);
      }
      KeepsFirst(c, q, now, retention, m - 1);
    }
  }

  lemma {:induction false} KeepsFrom(c: Config, q: Queue, now: i64, retention: int, i: nat, m: nat)
    requires i < m <= |q| && DuePrefix(q, now, retention, i + 1) && Anchor(c, q[i])
    ensures KeepIndex(c, q, now, retention, m) >= i
  {
    hide Anchor, Due;
    if m > i + 1 && !(DuePrefix(q, now, retention, m) && Anchor(c, q[m - 1])) {
      KeepsFrom(c, q, now, retention, i, m - 1);
    }
  }

  lemma OldPrefix(q: Queue, now: i64, retention: int, i: nat)
    requires Arrived(q) && i < |q| && 0 <= retention <= MAX64 && q[i].receivedAt <= now
    requires now as int - q[i].receivedAt as int >= retention
    ensures DuePrefix(q, now, retention, i + 1)
  {
    forall j | 0 <= j < i + 1 ensures Due(now, q[j].receivedAt, retention) {
      assert q[j].receivedAt <= q[i].receivedAt;
    }
  }

  /** Pruning drops nothing exactly when every packet that it could cut at, behind the fronts, is young enough. */
  lemma SparedExactly(c: Config, s: State, now: i64, n: nat)
    requires c.Valid() && Ok(c, s, n) && s.mode != Filling && s.lastObserved == Some(now)
    ensures Prune(c, s, now).queues == s.queues <==> Spared(c, s, now)
  {
    hide Ok, Anchor, KeepIndex, DuePrefix;
    if Spared(c, s, now) {
      SparedPrune(c, s, now);
    } else {
      var k, i :| k in s.queues && 1 <= i < |s.queues[k]| && Anchor(c, s.queues[k][i]) &&
                  now as int - s.queues[k][i].receivedAt as int >= s.target + c.headroom;
      OkParts(c, s, n);
      LaneShape(c, s, k, n);
      TargetFits(c, s, k, i, n);
      OldPrefix(s.queues[k], now, Retention(c, s), i);
      KeepsFrom(c, s.queues[k], now, Retention(c, s), i, |s.queues[k]|);
      assert |Prune(c, s, now).queues[k]| < |s.queues[k]|;
    }
  }

  lemma TargetFits(c: Config, s: State, k: StreamKey, i: nat, n: nat)
    requires c.Valid() && Ok(c, s, n) && k in s.queues && i < |s.queues[k]|
    ensures s.target + c.headroom <= MAX64 && s.lastObserved.Some? && s.queues[k][i].receivedAt <= s.lastObserved.value
  {
    hide DistinctLanes, DistinctPending, OneGeneration, CapsOk, HorizonsOk, ModesOk;
    assert LaneOk(c, k, s.queues[k], n, s.lastObserved);
    assert ItemOk(c, s.queues[k][i], n, s.lastObserved);
  }

  lemma SparedPrune(c: Config, s: State, now: i64)
    requires Spared(c, s, now) && s.mode != Filling
    ensures Prune(c, s, now) == s
  {
    hide Anchor, KeepIndex;
    forall k | k in s.queues ensures PruneQueue(c, s.queues[k], now, Retention(c, s)) == s.queues[k] {
      KeepsFirst(c, s.queues[k], now, Retention(c, s), |s.queues[k]|);
    }
    assert Prune(c, s, now).queues == s.queues;
  }

  lemma SparedPop(c: Config, s: State, now: i64, k: StreamKey)
    requires Spared(c, s, now) && k in s.queues && s.queues[k] != []
    ensures Spared(c, PopFront(s, k), now)
  {
    hide Anchor;
    var r := PopFront(s, k);
    forall j, i | j in r.queues && 1 <= i < |r.queues[j]| && Anchor(c, r.queues[j][i])
      ensures now as int - r.queues[j][i].receivedAt as int < r.target + c.headroom
    {
      assert r.queues[j][i] == s.queues[j][if j == k then i + 1 else i];
    }
  }

  lemma SparedSame(c: Config, s: State, r: State, now: i64)
    requires Spared(c, s, now) && (r.queues == s.queues || r.queues == map[]) && r.target == s.target
    ensures Spared(c, r, now)
  {
    hide Anchor;
  }

  lemma SparedOnce(c: Config, s: State, now: i64, n: nat)
    requires c.Valid() && Ok(c, s, n) && Spared(c, s, now)
    ensures var r := DrainOnce(c, s, now).state; r.mode == Failed || Spared(c, r, now)
  {
    hide Ok, DrainOnce, PopFront, Spared;
    DrainOncePops(c, s, now, n);
    DrainOnceMode(c, s, now);
    var r := DrainOnce(c, s, now).state;
    if r.mode != Failed {
      if j :| j in s.queues && s.queues[j] != [] && r.queues == PopFront(s, j).queues {
        SparedPop(c, s, now, j);
        PoppedMode(s, j);
        SparedSame(c, PopFront(s, j), r, now);
      } else {
        SparedSame(c, s, r, now);
      }
    }
  }

  lemma {:induction false} SparedDrain(c: Config, s: State, now: i64, fuel: nat, n: nat)
    requires c.Valid() && Ok(c, s, n) && Spared(c, s, now)
    ensures var r := DrainUpTo(c, s, now, fuel).state; r.mode == Failed || Spared(c, r, now)
    decreases fuel
  {
    hide Ok, DrainOnce, Spared;
    if fuel != 0 {
      SparedOnce(c, s, now, n);
      OkDrainOnce(c, s, now, n);
      DrainOnceMode(c, s, now);
      var one := DrainOnce(c, s, now);
      if one.out != [] {
        if one.state.mode == Failed {
          FailedDrain(c, one.state, now, fuel - 1, n);
        } else {
          SparedDrain(c, one.state, now, fuel - 1, n);
        }
      }
    }
  }

  // ---------------------------------------------------------------------
  // A packet that comes in

  lemma TwinDropped(s: State, r: State, stream: StreamKey)
    requires Twin(s, r)
    ensures HasOldGeneration(s, stream) == HasOldGeneration(r, stream)
    ensures Twin(DropReplaced(s, stream), DropReplaced(r, stream))
  {
    hide Keep, Stay, Awaited, Replaced;
  }

  lemma TwinPrepare(c: Config, s: State, r: State, stream: StreamKey)
    requires Twin(s, r)
    ensures var a, b := PrepareStream(c, s, stream), PrepareStream(c, r, stream); a.ok == b.ok && Twin(a.state, b.state)
  {
    hide HasOldGeneration, DropReplaced, EnterError, Twin;
    TwinKnown(s, r, Timeline(stream));
    var s1, r1 := s.(known := s.known + {Timeline(stream)}), r.(known := r.known + {Timeline(stream)});
    TwinError(s, r, TooManyTimelines);
    TwinError(s1, r1, GenerationChanged);
    TwinDropped(s1, r1, stream);
  }

  lemma TwinKnown(s: State, r: State, lane: StreamKey)
    requires Twin(s, r)
    ensures s.known == r.known && Twin(s.(known := s.known + {lane}), r.(known := r.known + {lane}))
  {
  }

  lemma TwinEpoch(s: State, r: State, p: Packet, delay: int)
    requires Twin(s, r)
    ensures EpochOffset(s, p, delay) == EpochOffset(r, p, delay) && s.target == r.target
  {
    hide RaisedTo, DelayTicks;
  }

  lemma TwinOffset(s: State, r: State, p: Packet)
    requires Twin(s, r) && EpochActive(s) && EpochActive(r)
    ensures var a, b := WithOffset(s, p), WithOffset(r, p);
            (a.None? <==> b.None?) && (a.Some? ==> Twin(a.value, b.value))
  {
    hide EpochOffset, EpochActive;
    TwinEpoch(s, r, p, s.target);
    if p.stream !in s.offsets && EpochOffset(s, p, s.target).Some? {
      TwinShifted(s, r, s.offsets[p.stream := EpochOffset(s, p, s.target).value]);
    }
  }

  lemma TwinShifted(s: State, r: State, offsets: map<StreamKey, i64>)
    requires Twin(s, r)
    ensures Twin(s.(offsets := offsets), r.(offsets := offsets))
  {
  }

  lemma TwinCapacity(c: Config, s: State, r: State, p: Packet)
    requires Twin(s, r)
    ensures OverCapacity(c, s, p) == OverCapacity(c, r, p)
  {
    hide Weight, SeqWeight;
  }

  lemma TwinAppend(c: Config, s: State, r: State, p: Packet, now: i64, n: nat, dts: Horizon)
    requires Twin(s, r) && EpochActive(s) && EpochActive(r)
    ensures Twin(Append(c, s, p, now, n, dts), Append(c, r, p, now, n, dts))
  {
    hide EpochActive, Cmp, NewItem;
  }

  lemma TwinPlace(c: Config, s: State, r: State, p: Packet, now: i64, n: nat)
    requires Twin(s, r) && EpochActive(s) && EpochActive(r) && Spared(c, s, now)
    ensures var a, b := Place(c, s, p, now, n), Place(c, r, p, now, n); a.ok == b.ok && Twin(a.state, b.state)
  {
    hide WithOffset, Ordering, Prune, OverCapacity, Append, EnterError, Twin, EpochActive, Spared;
    TwinOffset(s, r, p);
    TwinError(s, r, NewStreamOffset);
    if WithOffset(s, p).Some? {
      var x, y := WithOffset(s, p).value, WithOffset(r, p).value;
      TwinFronts(x, y, now);
      TwinError(x, y, OrderingOverflow);
      BasedSpared(c, s, p, now);
      BasedSpared(c, r, p, now);
      TwinSpared(c, s, r, now);
      TwinCapacity(c, x, y, p);
      TwinError(x, y, Capacity);
      if Ordering(x, p).Some? {
        TwinAppend(c, x, y, p, now, n, Ordering(x, p).value);
      }
    }
  }

  lemma TwinSpared(c: Config, s: State, r: State, now: i64)
    requires Twin(s, r) && Spared(c, s, now)
    ensures Spared(c, r, now)
  {
    SparedSame(c, s, r, now);
  }

  /** Giving the lane its offset changes nothing about pruning. */
  lemma BasedSpared(c: Config, s: State, p: Packet, now: i64)
    requires EpochActive(s) && WithOffset(s, p).Some?
    ensures var b := WithOffset(s, p).value; EpochActive(b) && b.mode == s.mode && (Spared(c, s, now) ==> Prune(c, b, now) == b)
  {
    hide Prune, Spared, EpochOffset;
    var b := WithOffset(s, p).value;
    BasedNotes(s, p);
    BasedQueues(s, p);
    if Spared(c, s, now) {
      SparedSame(c, s, b, now);
      SparedPrune(c, b, now);
    }
  }

  lemma BasedQueues(s: State, p: Packet)
    requires WithOffset(s, p).Some?
    ensures var b := WithOffset(s, p).value; b.queues == s.queues && b.target == s.target && b.mode == s.mode
  {
    OffsetCourse(s, p);
  }

  lemma TwinEnqueue(c: Config, s: State, r: State, p: Packet, now: i64, n: nat)
    requires Twin(s, r) && EpochActive(s) && EpochActive(r) && Spared(c, s, now)
    ensures var a, b := Enqueue(c, s, p, now, n), Enqueue(c, r, p, now, n); a.ok == b.ok && Twin(a.state, b.state)
  {
    hide PrepareStream, Place, EnterError, Twin, Spared, EpochActive;
    TwinPrepare(c, s, r, p.stream);
    var x, y := PrepareStream(c, s, p.stream), PrepareStream(c, r, p.stream);
    TwinError(x.state, y.state, InvalidTimeBase);
    if x.ok {
      PreparedSpared(c, s, p.stream, now);
      PreparedSpared(c, r, p.stream, now);
      TwinPlace(c, x.state, y.state, p, now, n);
    }
  }

  lemma PreparedSpared(c: Config, s: State, stream: StreamKey, now: i64)
    requires PrepareStream(c, s, stream).ok
    ensures var b := PrepareStream(c, s, stream).state;
            EpochActive(b) == EpochActive(s) && (Spared(c, s, now) ==> Spared(c, b, now))
  {
    hide HasOldGeneration, Keep, Stay, Awaited, Spared, EnterError;
    var b := PrepareStream(c, s, stream).state;
    assert b.queues == s.queues && b.target == s.target && b.mode == s.mode && b.preparingChange == s.preparingChange;
    if Spared(c, s, now) {
      SparedSame(c, s, b, now);
    }
  }

  lemma PlacedSpared(c: Config, s: State, p: Packet, now: i64, n: nat)
    requires EpochActive(s) && Spared(c, s, now) && Place(c, s, p, now, n).ok && s.target + c.headroom > 0
    ensures Spared(c, Place(c, s, p, now, n).state, now)
  {
    hide WithOffset, Ordering, Prune, OverCapacity, Append, EnterError, EpochActive, Spared;
    BasedSpared(c, s, p, now);
    var based := WithOffset(s, p).value;
    BasedQueues(s, p);
    SparedSame(c, s, based, now);
    AppendSpared(c, based, p, now, n, Ordering(based, p).value);
  }

  lemma AppendSpared(c: Config, s: State, p: Packet, now: i64, n: nat, dts: Horizon)
    requires Spared(c, s, now) && s.target + c.headroom > 0
    ensures Spared(c, Append(c, s, p, now, n, dts), now)
  {
    hide Anchor, EpochActive, Cmp;
    var r := Append(c, s, p, now, n, dts);
    forall k, i | k in r.queues && 1 <= i < |r.queues[k]| && Anchor(c, r.queues[k][i])
      ensures now as int - r.queues[k][i].receivedAt as int < r.target + c.headroom
    {
      if k != p.stream || i < |r.queues[k]| - 1 {
        assert k in s.queues && r.queues[k][i] == s.queues[k][i];
      }
    }
  }

  lemma EnqueuedSpared(c: Config, s: State, p: Packet, now: i64, n: nat)
    requires EpochActive(s) && Spared(c, s, now) && Enqueue(c, s, p, now, n).ok && s.target + c.headroom > 0
    ensures Spared(c, Enqueue(c, s, p, now, n).state, now)
  {
    hide PrepareStream, Place, EnterError, Spared, EpochActive;
    PreparedSpared(c, s, p.stream, now);
    PrepareReturn(c, s, p.stream);
    PlacedSpared(c, PrepareStream(c, s, p.stream).state, p, now, n);
  }

  // ---------------------------------------------------------------------
  // One call

  /** While the delay runs and nothing is pruned, what a push or a poll adds to a drain is nothing. */
  lemma OnlyDrains(c: Config, s: State, now: i64, n: nat)
    requires c.Valid() && Ok(c, s, n) && Spared(c, s, now) && s.mode != Filling
    ensures Prune(c, s, now) == s && DrainAndPrune(c, s, now) == Drain(c, s, now)
  {
    hide Ok, DrainUpTo, Prune, Spared, Packets;
    SparedPrune(c, s, now);
    SparedDrain(c, s, now, Packets(s) + 1, n);
    var d := Drain(c, s, now).state;
    if d.mode == Delayed {
      SparedPrune(c, d, now);
    }
  }

  lemma TwinDrain(c: Config, s: State, r: State, now: i64, n: nat)
    requires c.Valid() && Ok(c, s, n) && Ok(c, r, n) && Keyed(c, r) && Twin(s, r) && s.mode != Returning
    ensures var a, b := Drain(c, s, now), Drain(c, r, now);
            (a.out == b.out && Twin(a.state, b.state)) || CutMet(c, b.state, now, a.out, b.out)
  {
    hide Ok, DrainUpTo, Twin, Keyed, Packets, CutMet;
    TwinPackets(s, r);
    DrainTwin(c, s, r, now, Packets(s) + 1, n);
  }

  lemma TwinLive(c: Config, s: State, r: State, p: Packet)
    requires Twin(s, r)
    ensures var a, b := RetimestampLive(c, s, p), RetimestampLive(c, r, p);
            a.ok == b.ok && a.packet == b.packet && Twin(a.state, b.state)
  {
    hide PrepareStream, LiveFrom, Twin;
    TwinPrepare(c, s, r, p.stream);
    TwinLiveFrom(PrepareStream(c, s, p.stream).state, PrepareStream(c, r, p.stream).state, p);
  }

  lemma TwinLiveFrom(s: State, r: State, p: Packet)
    requires Twin(s, r)
    ensures var a, b := LiveFrom(s, p), LiveFrom(r, p); a.ok == b.ok && a.packet == b.packet && Twin(a.state, b.state)
  {
    hide EpochOffset, Retimestamp, Note, Twin;
    TwinEpoch(s, r, p, 0);
    TwinOffsets(s, r);
    var offset := if p.stream in s.offsets then Some(s.offsets[p.stream]) else EpochOffset(s, p, 0);
    if offset.Some? {
      var offsets := s.offsets[p.stream := offset.value];
      TwinShifted(s, r, offsets);
      if Retimestamp(p, offset.value).Some? {
        TwinNote(s.(offsets := offsets), r.(offsets := offsets), Retimestamp(p, offset.value).value);
      }
    }
  }

  lemma TwinBypassed(c: Config, s: State, r: State, p: Packet, now: i64, n: nat, fault: Fault)
    requires Twin(s, r)
    ensures var a, b := Bypassed(c, s, p, now, n, fault), Bypassed(c, r, p, now, n, fault);
            a.out == b.out && Twin(a.state, b.state)
  {
    hide RetimestampLive, EnterError, Twin;
    TwinLive(c, s, r, p);
    TwinError(RetimestampLive(c, s, p).state, RetimestampLive(c, r, p).state, fault);
  }

  /** What a push drains once the packet is buffered. */
  ghost function Buffered(c: Config, s: State, p: Packet, now: i64, n: nat): State {
    var q := Enqueue(c, s, p, now, n).state;
    if s.mode == Returning then ObserveReturnKey(c, q, NewItem(c, p, now, n)) else q
  }

  lemma PushDrains(c: Config, s: State, p: Packet, now: i64, n: nat)
    requires c.Valid() && Ok(c, s, n) && Flowing(s) && s.lastObserved == Some(now)
    requires Spared(c, s, now) && s.target + c.headroom > 0 && Enqueue(c, s, p, now, n).ok
    ensures PushBuffered(c, s, p, now, n) == Drain(c, Buffered(c, s, p, now, n), now)
    ensures Ok(c, Buffered(c, s, p, now, n), n + 1)
  {
    hide Ok, Enqueue, Drain, DrainAndPrune, Prune, Bypassed, ObserveReturnKey, Spared;
    FlowingActive(c, s, n);
    OkEnqueue(c, s, p, now, n);
    var q := Enqueue(c, s, p, now, n).state;
    EnqueuedSpared(c, s, p, now, n);
    OnlyDrains(c, q, now, n + 1);
    if s.mode == Returning {
      QuietObserveKey(c, q, NewItem(c, p, now, n), n + 1);
    }
  }

  lemma FlowingActive(c: Config, s: State, n: nat)
    requires Ok(c, s, n) && Flowing(s)
    ensures EpochActive(s) && Buffering(s) && !s.returnCommitted
  {
    hide LanesOk, DistinctLanes, OneGeneration, DistinctPending, HorizonsOk, CapsOk;
  }

  lemma TwinBuffered(c: Config, s: State, r: State, p: Packet, now: i64, n: nat)
    requires Twin(s, r) && EpochActive(s) && EpochActive(r) && Spared(c, s, now) && s.mode != Returning
    ensures Twin(Buffered(c, s, p, now, n), Buffered(c, r, p, now, n))
  {
    hide Enqueue, Twin, Spared, EpochActive, ObserveReturnKey;
    TwinEnqueue(c, s, r, p, now, n);
    TwinObserved(c, Enqueue(c, s, p, now, n).state, Enqueue(c, r, p, now, n).state, NewItem(c, p, now, n));
  }

  lemma TwinObserved(c: Config, s: State, r: State, item: Queued)
    requires Twin(s, r)
    ensures Twin(s, ObserveReturnKey(c, r, item))
  {
  }

  lemma BufferedKeyed(c: Config, r: State, p: Packet, now: i64, n: nat)
    requires Keyed(c, r) && Enqueue(c, r, p, now, n).ok
    requires r.mode == Returning ==> r.returnRequested.Some? && r.returnRequested.value <= now
    ensures Keyed(c, Buffered(c, r, p, now, n))
  {
    hide Enqueue, KeysAre, ObserveReturnKey;
    if r.mode == Returning {
      PushedKeys(c, r, p, now, n);
    } else {
      EnqueueCourse(c, r, p, now, n);
    }
  }

  lemma PushTwin(c: Config, s: State, r: State, p: Packet, now: i64, n: nat)
    requires c.Valid() && Ok(c, s, n) && Ok(c, r, n) && Twin(s, r) && Runs(s) && Flowing(r) && Keyed(c, r)
    requires s.lastObserved == Some(now) && r.lastObserved == Some(now) && Spared(c, s, now) && s.target + c.headroom > 0
    requires r.mode == Returning ==> r.returnRequested.Some? && r.returnRequested.value <= now
    ensures var a, b := PushBuffered(c, s, p, now, n), PushBuffered(c, r, p, now, n);
            (a.out == b.out && Twin(a.state, b.state)) || CutMet(c, b.state, now, a.out, b.out)
  {
    hide Ok, Enqueue, Drain, Bypassed, Twin, Spared, Keyed, CutMet, Buffered, PushBuffered;
    RunsFlow(s);
    FlowingActive(c, s, n);
    FlowingActive(c, r, n);
    TwinEnqueue(c, s, r, p, now, n);
    if Enqueue(c, s, p, now, n).ok {
      TwinSpared(c, s, r, now);
      SameTarget(s, r);
      PushDrains(c, s, p, now, n);
      PushDrains(c, r, p, now, n);
      TwinBuffered(c, s, r, p, now, n);
      BufferedKeyed(c, r, p, now, n);
      BufferedMode(c, s, p, now, n);
      TwinDrain(c, Buffered(c, s, p, now, n), Buffered(c, r, p, now, n), now, n + 1);
    } else {
      RejectedIs(c, s, p, now, n);
      RejectedIs(c, r, p, now, n);
      TwinBypassed(c, Enqueue(c, s, p, now, n).state, Enqueue(c, r, p, now, n).state, p, now, n, FailOpenTimestamps);
    }
  }

  lemma RunsFlow(s: State)
    requires Runs(s)
    ensures Flowing(s) && s.mode != Returning
  {
  }

  lemma SameTarget(s: State, r: State)
    requires Twin(s, r)
    ensures s.target == r.target
  {
  }

  lemma BufferedMode(c: Config, s: State, p: Packet, now: i64, n: nat)
    requires s.mode != Returning && Enqueue(c, s, p, now, n).ok
    ensures Buffered(c, s, p, now, n).mode != Returning
  {
    hide Enqueue;
    EnqueueCourse(c, s, p, now, n);
  }

  lemma RejectedIs(c: Config, s: State, p: Packet, now: i64, n: nat)
    requires !Enqueue(c, s, p, now, n).ok
    ensures PushBuffered(c, s, p, now, n) == Bypassed(c, Enqueue(c, s, p, now, n).state, p, now, n, FailOpenTimestamps)
  {
    hide Enqueue, Bypassed;
  }

  /** A call about packets, not a request. */
  predicate PacketCall(op: Op) {
    op.Push? || op.Poll? || op.PruneNow? || op.External?
  }

  /** Both engines run their delayed output, or both have failed. */
  ghost predicate Beside(c: Config, s: State, r: State) {
    Twin(s, r) && CutsOk(c, r) && (s.mode == Failed || (Runs(s) && Flowing(r) && s.target + c.headroom > 0))
  }

  predicate OnTime(s: State, op: Op) {
    op.External? || (PacketCall(op) && !Regresses(s, op.now))
  }

  predicate Unpruned(c: Config, s: State, op: Op) {
    op.External? || (PacketCall(op) && Spared(c, s, op.now))
  }

  lemma PollTwin(c: Config, s: State, r: State, now: i64, n: nat)
    requires c.Valid() && Ok(c, s, n) && Ok(c, r, n) && Beside(c, s, r) && !Regresses(s, now) && !Regresses(r, now) && Spared(c, s, now)
    ensures var a, b := DoPoll(c, s, now), DoPoll(c, r, now);
            (a.out == b.out && Twin(a.state, b.state)) || CutMet(c, b.state, now, a.out, b.out)
  {
    hide Ok, Drain, DrainAndPrune, Twin, Spared, CutMet, KeysAre;
    var s1, r1 := s.(lastObserved := Some(now)), r.(lastObserved := Some(now));
    ClockTwin(c, s, r, now, n);
    if s.mode != Failed {
      OnlyDrains(c, s1, now, n);
      TwinSpared(c, s1, r1, now);
      OnlyDrains(c, r1, now, n);
      KeyedClock(c, r, now);
      TwinDrain(c, s1, r1, now, n);
      FlowPoll(c, s, now);
      FlowPoll(c, r, now);
    } else {
      FailedPoll(c, s, now);
      FailedPoll(c, r, now);
    }
  }

  lemma ClockTwin(c: Config, s: State, r: State, now: i64, n: nat)
    requires c.Valid() && Ok(c, s, n) && Ok(c, r, n) && Beside(c, s, r) && !Regresses(s, now) && !Regresses(r, now)
    ensures var s1, r1 := s.(lastObserved := Some(now)), r.(lastObserved := Some(now));
            && Observe(s, now) == s1 && Observe(r, now) == r1 && Twin(s1, r1)
            && Ok(c, s1, n) && Ok(c, r1, n) && (Spared(c, s, now) ==> Spared(c, s1, now))
            && (r.mode == Failed <==> s.mode == Failed)
  {
    hide Ok, Anchor, KeysAre;
    OkClock(c, s, now, n);
    OkClock(c, r, now, n);
  }

  lemma KeyedClock(c: Config, r: State, now: i64)
    requires Flowing(r) && (r.mode == Returning && !r.returnCommitted ==> KeysAre(c, r))
    ensures Keyed(c, r.(lastObserved := Some(now)))
  {
    hide KeysAre;
    if r.mode == Returning {
      KeysClock(c, r, now);
    }
  }

  /** A poll of the running delayed output is a drain, and a pruning where it is not returning or changing. */
  lemma FlowPoll(c: Config, s: State, now: i64)
    requires Flowing(s) && !Regresses(s, now)
    ensures var s1 := s.(lastObserved := Some(now));
            DoPoll(c, s, now) == if s.mode == Delayed then DrainAndPrune(c, s1, now) else Drain(c, s1, now)
  {
    hide Drain, DrainAndPrune;
    assert Observe(s, now) == s.(lastObserved := Some(now));
  }

  lemma FailedPoll(c: Config, s: State, now: i64)
    requires s.mode == Failed && !Regresses(s, now)
    ensures DoPoll(c, s, now) == Drained(s.(lastObserved := Some(now)), [])
  {
  }

  lemma DoPushTwin(c: Config, s: State, r: State, p: Packet, now: i64, n: nat)
    requires c.Valid() && Ok(c, s, n) && Ok(c, r, n) && Beside(c, s, r) && !Regresses(s, now) && !Regresses(r, now) && Spared(c, s, now)
    ensures var a, b := DoPush(c, s, p, now, n), DoPush(c, r, p, now, n);
            (a.out == b.out && Twin(a.state, b.state)) || CutMet(c, b.state, now, a.out, b.out)
  {
    hide Ok, PushBuffered, Bypassed, Twin, Spared, CutMet, KeysAre;
    var s1, r1 := s.(lastObserved := Some(now)), r.(lastObserved := Some(now));
    ClockTwin(c, s, r, now, n);
    if s.mode != Failed {
      FlowPush(c, s, p, now, n);
      FlowPush(c, r, p, now, n);
      RunsFlow(s);
      KeyedClock(c, r, now);
      assert Runs(s1) && Flowing(r1);
      PushTwin(c, s1, r1, p, now, n);
    } else {
      TwinBypassed(c, s1, r1, p, now, n, FailOpenTimestamps);
    }
  }

  lemma FlowPush(c: Config, s: State, p: Packet, now: i64, n: nat)
    requires Flowing(s) && !Regresses(s, now)
    ensures DoPush(c, s, p, now, n) == PushBuffered(c, s.(lastObserved := Some(now)), p, now, n)
  {
    hide PushBuffered, Bypassed;
    assert Observe(s, now) == s.(lastObserved := Some(now));
  }

  lemma ExternalTwin(c: Config, s: State, r: State, p: Packet)
    requires Twin(s, r)
    ensures Twin(DoExternal(c, s, p), DoExternal(c, r, p))
  {
    hide Note, EnterError, Twin;
    TwinKnown(s, r, Timeline(p.stream));
    TwinError(s, r, TooManyTimelines);
    var s1, r1 := s.(known := s.known + {Timeline(p.stream)}), r.(known := r.known + {Timeline(p.stream)});
    TwinError(s1, r1, ExternalOutput);
    TwinNote(s1, r1, p);
  }

  lemma PruneTwin(c: Config, s: State, r: State, now: i64, n: nat)
    requires c.Valid() && Ok(c, s, n) && Ok(c, r, n) && Beside(c, s, r) && !Regresses(s, now) && !Regresses(r, now) && Spared(c, s, now)
    ensures Twin(Prune(c, Observe(s, now), now), Prune(c, Observe(r, now), now))
  {
    hide Ok, Prune, Twin, Spared, KeysAre;
    ClockTwin(c, s, r, now, n);
    TwinSpared(c, s.(lastObserved := Some(now)), r.(lastObserved := Some(now)), now);
    NotFilling(c, s, r);
    SparedPrune(c, s.(lastObserved := Some(now)), now);
    SparedPrune(c, r.(lastObserved := Some(now)), now);
  }

  lemma NotFilling(c: Config, s: State, r: State)
    requires Beside(c, s, r)
    ensures s.mode != Filling && r.mode != Filling
  {
    hide KeysAre;
  }

  /** One call on both: the same, unless the second has met the cut. */
  lemma CallTwin(c: Config, s: State, r: State, op: Op, n: nat)
    requires c.Valid() && Ok(c, s, n) && Ok(c, r, n) && Beside(c, s, r)
    requires PacketCall(op) && OnTime(s, op) && OnTime(r, op) && Unpruned(c, s, op)
    ensures var a, b := Step(c, s, op, n), Step(c, r, op, n);
            || (a.out == b.out && Twin(a.state, b.state))
            || (!op.External? && CutMet(c, b.state, op.now, a.out, b.out))
  {
    hide Ok, DoPush, DoPoll, DoExternal, Prune, Twin, Beside, Spared, CutMet, Observe, Regresses;
    match op
    case Push(p, now) => DoPushTwin(c, s, r, p, now, n);
    case Poll(now) => PollTwin(c, s, r, now, n);
    case PruneNow(now) =>
      PruneTwin(c, s, r, now, n);
    case External(p) =>
      BesideTwin(c, s, r);
      ExternalTwin(c, s, r, p);
  }

  lemma BesideTwin(c: Config, s: State, r: State)
    requires Beside(c, s, r)
    ensures Twin(s, r)
  {
    hide KeysAre, Twin;
  }

  // ---------------------------------------------------------------------
  // Every run with a request and without it

  /** The request leaves the delayed output as it is. */
  lemma RequestTwin(c: Config, s: State, stop: Op, n: nat)
    requires c.Valid() && Ok(c, s, n) && Runs(s) && (stop.Deactivate? || stop.Cancel?) && Result(c, s, stop) == Accepted
    ensures var r := Step(c, s, stop, n); r.out == [] && Twin(s, r.state) && Flowing(r.state)
  {
    hide Ok, ReturnLanes;
  }

  lemma CallBeside(c: Config, s: State, r: State, op: Op, n: nat)
    requires Beside(c, s, r) && PacketCall(op) && Twin(Step(c, s, op, n).state, Step(c, r, op, n).state)
    requires CutsOk(c, Step(c, r, op, n).state)
    ensures Beside(c, Step(c, s, op, n).state, Step(c, r, op, n).state)
  {
    hide Step, CutsOk, Result;
    OtherCourse(c, s, op, n);
    OtherCourse(c, r, op, n);
  }

  /** The run without the request, and the one with it, after so many calls. */
  ghost function Kept(c: Config, pre: seq<Op>, rest: seq<Op>, i: nat): Run
    requires i <= |rest|
  {
    Play(c, pre + rest[..i])
  }

  ghost function Back(c: Config, pre: seq<Op>, stop: Op, rest: seq<Op>, i: nat): Run
    requires i <= |rest|
  {
    Play(c, pre + [stop] + rest[..i])
  }

  /** Calls about packets whose clock goes back in neither run and that prune nothing in the first. */
  ghost predicate Regular(c: Config, pre: seq<Op>, stop: Op, rest: seq<Op>) {
    forall i :: 0 <= i < |rest| ==>
      && PacketCall(rest[i]) && OnTime(Kept(c, pre, rest, i).state, rest[i]) && OnTime(Back(c, pre, stop, rest, i).state, rest[i])
      && Unpruned(c, Kept(c, pre, rest, i).state, rest[i])
  }

  /** In this call the run with the request stops at the cut; up to there it has handed out the same. */
  ghost predicate MetIn(c: Config, pre: seq<Op>, stop: Op, rest: seq<Op>, i: nat) {
    && i < |rest| && !rest[i].External? && PacketCall(rest[i])
    && Kept(c, pre, rest, i).emitted == Back(c, pre, stop, rest, i).emitted
    && CutMet(c, Back(c, pre, stop, rest, i + 1).state, rest[i].now,
              Kept(c, pre, rest, i + 1).emitted, Back(c, pre, stop, rest, i + 1).emitted)
  }

  lemma NextRuns(c: Config, pre: seq<Op>, stop: Op, rest: seq<Op>, i: nat)
    requires i < |rest|
    ensures Kept(c, pre, rest, i + 1) == Played(c, Kept(c, pre, rest, i), rest[i])
    ensures Back(c, pre, stop, rest, i + 1) == Played(c, Back(c, pre, stop, rest, i), rest[i])
  {
    hide Played;
    var a, b := pre + rest[..i + 1], pre + [stop] + rest[..i + 1];
    assert a[..|a| - 1] == pre + rest[..i] && a[|a| - 1] == rest[i];
    assert b[..|b| - 1] == pre + [stop] + rest[..i] && b[|b| - 1] == rest[i];
  }

  lemma {:induction false} GoesOnBeside(c: Config, pre: seq<Op>, stop: Op, rest: seq<Op>, i: nat)
    requires c.Valid() && Runs(Play(c, pre).state) && (stop.Deactivate? || stop.Cancel?)
    requires Result(c, Play(c, pre).state, stop) == Accepted && Play(c, pre).state.target + c.headroom > 0
    requires Regular(c, pre, stop, rest) && i <= |rest|
    ensures (exists j: nat :: j < i && MetIn(c, pre, stop, rest, j))
            || (Kept(c, pre, rest, i).emitted == Back(c, pre, stop, rest, i).emitted
                && Kept(c, pre, rest, i).next == Back(c, pre, stop, rest, i).next
                && Beside(c, Kept(c, pre, rest, i).state, Back(c, pre, stop, rest, i).state))
    decreases i
  {
    hide Ok, Step, Result, Runs, Beside, Twin, CutMet, CutsOk, Conserved, Regular, MetIn, Kept, Back, Flowing;
    if i == 0 {
      StartBeside(c, pre, stop, rest);
    } else {
      GoesOnBeside(c, pre, stop, rest, i - 1);
      if j: nat :| j < i - 1 && MetIn(c, pre, stop, rest, j) {
        assert j < i;
      } else {
        OneMore(c, pre, stop, rest, i - 1);
      }
    }
  }

  lemma StartBeside(c: Config, pre: seq<Op>, stop: Op, rest: seq<Op>)
    requires c.Valid() && Runs(Play(c, pre).state) && (stop.Deactivate? || stop.Cancel?)
    requires Result(c, Play(c, pre).state, stop) == Accepted && Play(c, pre).state.target + c.headroom > 0
    ensures Kept(c, pre, rest, 0).emitted == Back(c, pre, stop, rest, 0).emitted
            && Kept(c, pre, rest, 0).next == Back(c, pre, stop, rest, 0).next
            && Beside(c, Kept(c, pre, rest, 0).state, Back(c, pre, stop, rest, 0).state)
  {
    hide Ok, Step, Result, Twin, CutsOk, Conserved, Flowing, Runs;
    assert pre + rest[..0] == pre;
    var b := pre + [stop] + rest[..0];
    assert b[..|b| - 1] == pre && b[|b| - 1] == stop;
    EveryRunConserves(c, pre);
    ConservedOk(c, Play(c, pre));
    EveryRunCutsOk(c, b);
    RequestTwin(c, Play(c, pre).state, stop, Play(c, pre).next);
  }

  lemma OneMore(c: Config, pre: seq<Op>, stop: Op, rest: seq<Op>, i: nat)
    requires c.Valid() && i < |rest| && Regular(c, pre, stop, rest)
    requires var a, b := Kept(c, pre, rest, i), Back(c, pre, stop, rest, i);
             a.emitted == b.emitted && a.next == b.next && Beside(c, a.state, b.state)
    ensures var a, b := Kept(c, pre, rest, i + 1), Back(c, pre, stop, rest, i + 1);
            || MetIn(c, pre, stop, rest, i)
            || (a.emitted == b.emitted && a.next == b.next && Beside(c, a.state, b.state))
  {
    hide Ok, Step, Result, Beside, Twin, CutMet, CutsOk, Conserved, Kept, Back, OnTime, Unpruned;
    var a, b, op := Kept(c, pre, rest, i), Back(c, pre, stop, rest, i), rest[i];
    NextRuns(c, pre, stop, rest, i);
    RunsOk(c, pre, stop, rest, i);
    RunsOk(c, pre, stop, rest, i + 1);
    CallTwin(c, a.state, b.state, op, a.next);
    var x, y := Step(c, a.state, op, a.next), Step(c, b.state, op, a.next);
    if x.out == y.out && Twin(x.state, y.state) {
      CallBeside(c, a.state, b.state, op, a.next);
    } else {
      MetMore(c, y.state, op.now, a.emitted, x.out, y.out);
    }
  }

  lemma RunsOk(c: Config, pre: seq<Op>, stop: Op, rest: seq<Op>, i: nat)
    requires c.Valid() && i <= |rest|
    ensures var a, b := Kept(c, pre, rest, i), Back(c, pre, stop, rest, i);
            Ok(c, a.state, a.next) && Ok(c, b.state, b.next) && CutsOk(c, b.state)
  {
    hide Ok, CutsOk, Conserved, Play;
    EveryRunConserves(c, pre + rest[..i]);
    EveryRunConserves(c, pre + [stop] + rest[..i]);
    ConservedOk(c, Play(c, pre + rest[..i]));
    ConservedOk(c, Play(c, pre + [stop] + rest[..i]));
    EveryRunCutsOk(c, pre + [stop] + rest[..i]);
  }

  /** Turning the delay off, or calling off a change of it, while the delayed output runs, does not interrupt it: the
      calls that follow hand out what they would have without the request, up to a packet at or past the cut. */
  lemma DelayGoesOn(c: Config, pre: seq<Op>, stop: Op, rest: seq<Op>, i: nat)
    requires c.Valid() && Runs(Play(c, pre).state) && (stop.Deactivate? || stop.Cancel?)
    requires Result(c, Play(c, pre).state, stop) == Accepted && Play(c, pre).state.target + c.headroom > 0
    requires Regular(c, pre, stop, rest) && i <= |rest|
    ensures || Play(c, pre + rest[..i]).emitted == Play(c, pre + [stop] + rest[..i]).emitted
            || exists j: nat :: j < i && MetIn(c, pre, stop, rest, j)
  {
    hide Ok, Step, Result, Runs, Beside, Regular, MetIn, Play;
    GoesOnBeside(c, pre, stop, rest, i);
  }

  /** A drain that hands out nothing is one turn. */
  lemma EmptyDrain(c: Config, s: State, now: i64)
    requires Drain(c, s, now).out == []
    ensures Drain(c, s, now) == DrainOnce(c, s, now)
  {
    hide DrainOnce, Packets;
  }

  lemma EmptyPoll(c: Config, s: State, now: i64)
    requires DrainAndPrune(c, s, now).out == [] && DrainAndPrune(c, s, now).state.mode != Failed
    ensures Drain(c, s, now).out == [] && Drain(c, s, now).state.mode != Failed
  {
    hide Drain, PruneQueue;
  }

  lemma SparedClock(c: Config, s: State, now: i64)
    ensures Spared(c, s.(lastObserved := Some(now)), now) == Spared(c, s, now)
  {
    hide Anchor;
  }

  /** A turn that hands out nothing is the whole drain, and leaves the buffer as it is unless it fails. */
  lemma StillBuffer(c: Config, s: State, now: i64, n: nat)
    requires Ok(c, s, n) && DrainOnce(c, s, now).out == []
    ensures Drain(c, s, now) == DrainOnce(c, s, now)
    ensures DrainOnce(c, s, now).state.mode != Failed ==> DrainOnce(c, s, now).state.queues == s.queues
  {
    hide Ok, DrainOnce, Packets;
    DrainOncePops(c, s, now, n);
  }

  /** What the pruning condition is for: after a poll that hands out nothing the returning engine still has the whole
      buffer, and the other has it exactly when no packet behind the fronts is an anchor beyond target and headroom. */
  lemma SameBufferExactly(c: Config, s: State, r: State, now: i64, n: nat)
    requires c.Valid() && Ok(c, s, n) && Ok(c, r, n) && Beside(c, s, r) && !Regresses(s, now) && !Regresses(r, now)
    requires s.mode == Delayed && r.mode == Returning
    requires DoPoll(c, s, now).out == [] && DoPoll(c, s, now).state.mode != Failed
    ensures DoPoll(c, r, now).out == [] && DoPoll(c, r, now).state.queues == s.queues
    ensures DoPoll(c, s, now).state.queues == s.queues <==> Spared(c, s, now)
  {
    hide Ok, DrainOnce, Twin, Spared, CutsOk, Prune, Drain, CutMet, Pops, DoPoll, Stopped;
    var s1, r1 := s.(lastObserved := Some(now)), r.(lastObserved := Some(now));
    ClockTwin(c, s, r, now, n);
    FlowPoll(c, s, now);
    FlowPoll(c, r, now);
    EmptyPoll(c, s1, now);
    EmptyDrain(c, s1, now);
    TurnRests(c, s1, now, n);
    SparedClock(c, s, now);
    SparedExactly(c, s1, now, n);
    OnceTwin(c, s1, r1, now, n);
    if Twin(DrainOnce(c, s1, now).state, DrainOnce(c, r1, now).state) {
      TwinMode(DrainOnce(c, s1, now).state, DrainOnce(c, r1, now).state);
    }
    StillBuffer(c, r1, now, n);
    TwinOffsets(s, r);
  }

  lemma TwinMode(s: State, r: State)
    requires Twin(s, r)
    ensures r.mode == Failed <==> s.mode == Failed
  {
  }

  // ---------------------------------------------------------------------
  // A return from a first fill

  /** Where no delay has been in force, no call hands out anything as delayed. */
  lemma NothingDelayed(c: Config, ops: seq<Op>, op: Op, i: nat)
    requires c.Valid() && Followed(c, ops).running == None
    requires i < |Step(c, Play(c, ops).state, op, Play(c, ops).next).out|
    ensures !Step(c, Play(c, ops).state, op, Play(c, ops).next).out[i].delayed
  {
    hide Step, Play, Followed, Pushes;
    if Step(c, Play(c, ops).state, op, Play(c, ops).next).out[i].delayed {
      EveryRunAged(c, ops, op, i);
      assert false;
    }
  }

  /** A poll of such a return hands out nothing before it is committed. */
  lemma FirstReturnSilent(c: Config, ops: seq<Op>, now: i64)
    requires c.Valid() && Followed(c, ops).running == None
    requires Play(c, ops).state.mode == Returning && !Play(c, ops).state.returnCommitted
    ensures Step(c, Play(c, ops).state, Poll(now), Play(c, ops).next).out == []
  {
    hide Play, Followed, Ok, Conserved, DoPoll;
    var before := Play(c, ops);
    EveryRunConserves(c, ops);
    ConservedOk(c, before);
    PollDelayed(c, before.state, now, before.next);
    if Step(c, before.state, Poll(now), before.next).out != [] {
      NothingDelayed(c, ops, Poll(now), 0);
      assert false;
    }
  }

  lemma PollDelayed(c: Config, s: State, now: i64, n: nat)
    requires c.Valid() && Ok(c, s, n) && s.mode == Returning && !s.returnCommitted
    ensures forall i :: 0 <= i < |DoPoll(c, s, now).out| ==> DoPoll(c, s, now).out[i].delayed
  {
    hide Ok, Drain, Ledger;
    OkClock(c, s, now, n);
    OkDrain(c, Observe(s, now), now, n);
  }
}
