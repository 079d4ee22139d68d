/** The cuts of the way back to live name the newest keyframes that are buffered. */
module PacketDelayReturn {
  // In every reachable state before the commit a recorded cut is the newest keyframe its lane still buffers,
  // whatever is drained, pruned, erased or recorded anew.

  import opened Options
  import opened Timestamps
  import opened PacketTypes
  import opened PacketDelaySpec
  import opened PacketDelayStep
  import opened PacketDelayInvariant
  import opened PacketDelayMerge
  import opened PacketDelayKeep
  import opened PacketDelayRun
  import opened PacketDelayDecode
  import opened PacketDelayEpoch

  /** The number names the newest keyframe of the lane. */
  ghost predicate NewestKeyAt(q: Queue, sequence: nat, i: nat) {
    && i < |q| && q[i].sequence == sequence && q[i].packet.keyframe
    && forall j :: i < j < |q| ==> !q[j].packet.keyframe
  }

  ghost predicate NewestKey(q: Queue, sequence: nat) {
    exists i: nat :: NewestKeyAt(q, sequence, i)
  }

  ghost predicate KeysAre(c: Config, s: State) {
    forall k :: k in s.returnKeys ==> k.kind == Video && c.requireKeyframe && NewestKey(Lane(s, k), s.returnKeys[k])
  }

  ghost predicate CutsOk(c: Config, s: State) {
    s.mode == Returning && !s.returnCommitted ==>
      KeysAre(c, s) && s.returnRequested.Some? && s.lastObserved.Some? && s.returnRequested.value <= s.lastObserved.value
  }

  // ---------------------------------------------------------------------
  // What one step does to a recorded cut

  lemma NewestSuffix(q: Queue, sequence: nat, i: nat, drop: nat)
    requires NewestKeyAt(q, sequence, i) && drop <= i
    ensures NewestKey(q[drop..], sequence)
  {
    assert NewestKeyAt(q[drop..], sequence, i - drop);
  }

  lemma NewestAppend(q: Queue, sequence: nat, x: Queued)
    requires NewestKey(q, sequence) && !x.packet.keyframe
    ensures NewestKey(q + [x], sequence)
  {
    var i: nat :| NewestKeyAt(q, sequence, i);
    assert NewestKeyAt(q + [x], sequence, i);
  }

  lemma NewestLast(q: Queue, x: Queued)
    requires x.packet.keyframe
    ensures NewestKey(q + [x], x.sequence)
  {
    assert NewestKeyAt(q + [x], x.sequence, |q|);
  }

  /** Pruning keeps the newest keyframe of a lane. */
  lemma PruneKeepsKey(c: Config, k: StreamKey, q: Queue, sequence: nat, now: i64, retention: int, bound: nat, clock: Option<i64>)
    requires c.requireKeyframe && k.kind == Video && LaneOk(c, k, q, bound, clock) && NewestKey(q, sequence)
    ensures NewestKey(PruneQueue(c, q, now, retention), sequence)
  {
    hide KeepIndex;
    var i: nat :| NewestKeyAt(q, sequence, i);
    KeepIndexAnchored(c, q, now, retention, |q|);
    NewestSuffix(q, sequence, i, KeepIndex(c, q, now, retention, |q|));
  }

  lemma PruneKeys(c: Config, s: State, now: i64, bound: nat)
    requires LanesOk(c, s.queues, bound, s.lastObserved) && KeysAre(c, s)
    ensures KeysAre(c, Prune(c, s, now))
  {
    hide PruneQueue, NewestKey;
    var r := Prune(c, s, now);
    forall k | k in r.returnKeys ensures NewestKey(Lane(r, k), r.returnKeys[k]) {
      assert NewestKey(Lane(s, k), s.returnKeys[k]);
      assert k in s.queues by { NewestNonempty(Lane(s, k), s.returnKeys[k]); }
      assert LaneOk(c, k, s.queues[k], bound, s.lastObserved);
      PruneKeepsKey(c, k, s.queues[k], s.returnKeys[k], now, Retention(c, s), bound, s.lastObserved);
    }
  }

  lemma NewestNonempty(q: Queue, sequence: nat)
    requires NewestKey(q, sequence)
    ensures q != []
  {
  }

  /** Popping a packet that is not the cut keeps the cut buffered. */
  lemma PopKeepsKey(q: Queue, sequence: nat)
    requires NewestKey(q, sequence) && q[0].sequence < sequence
    ensures NewestKey(q[1..], sequence)
  {
    var i: nat :| NewestKeyAt(q, sequence, i);
    NewestSuffix(q, sequence, i, 1);
  }

  /** An emission with its cut check leaves every remaining cut in place. */
  lemma DrainLaneKeys(c: Config, s: State, now: i64, k: StreamKey, bound: nat)
    requires Ok(c, s, bound) && s.mode == Returning && !s.returnCommitted && KeysAre(c, s)
    requires k in s.queues && s.queues[k] != [] && Ordering(s, s.queues[k][0].packet).Some?
    ensures var r := DrainLane(c, s, now, k).state;
            r.mode == Failed || (KeysAre(c, r) && SameReturn(s, r))
  {
    hide GateStops, Watermark, Ordering, Emit, NewestKey, Ok, GateErases, PopFront, KeysAre;
    var s1 := GateErases(s, k);
    EraseKeys(c, s, k);
    PoppedKeys(c, s1, k);
    EmitKeys(c, PopFront(s1, k), s.queues[k][0], now);
  }

  predicate SameReturn(s: State, r: State) {
    && r.mode == s.mode && r.returnCommitted == s.returnCommitted && r.returnRequested == s.returnRequested
    && r.lastObserved == s.lastObserved && r.returnFromDelayed == s.returnFromDelayed
    && r.target == s.target && r.pendingTarget == s.pendingTarget && r.previousTarget == s.previousTarget
    && r.preparingChange == s.preparingChange && r.originDelayed == s.originDelayed
  }

  lemma EraseKeys(c: Config, s: State, k: StreamKey)
    requires s.mode == Returning && !s.returnCommitted && KeysAre(c, s) && k in s.queues && s.queues[k] != []
    ensures var r := GateErases(s, k);
            && SameReturn(s, r) && r.queues == s.queues && KeysAre(c, r)
            && (k in r.returnKeys ==> s.queues[k][0].sequence < r.returnKeys[k])
  {
    hide NewestKey;
    var r := GateErases(s, k);
    if k.kind == Video && k in s.returnKeys && s.queues[k][0].sequence >= s.returnKeys[k] {
      assert r == s.(returnKeys := s.returnKeys - {k});
      SameKeys(s, r);
    } else {
      assert r == s;
    }
  }

  /** Cuts that are left alone stay the newest keyframes. */
  lemma SameKeys(s: State, r: State)
    requires r.queues == s.queues && forall k :: k in r.returnKeys ==> k in s.returnKeys && r.returnKeys[k] == s.returnKeys[k]
    ensures forall k :: k in r.returnKeys && NewestKey(Lane(s, k), s.returnKeys[k]) ==> NewestKey(Lane(r, k), r.returnKeys[k])
  {
    hide NewestKey;
  }

  lemma PoppedKeys(c: Config, s: State, k: StreamKey)
    requires KeysAre(c, s) && k in s.queues && s.queues[k] != []
    requires k in s.returnKeys ==> s.queues[k][0].sequence < s.returnKeys[k]
    ensures KeysAre(c, PopFront(s, k)) && SameReturn(s, PopFront(s, k))
  {
    hide NewestKey;
    var r := PopFront(s, k);
    forall j | j in r.returnKeys ensures NewestKey(Lane(r, j), r.returnKeys[j]) {
      if j == k {
        PopKeepsKey(s.queues[k], s.returnKeys[k]);
        NewestNonempty(s.queues[k][1..], s.returnKeys[k]);
      }
    }
  }

  lemma EmitKeys(c: Config, s: State, x: Queued, now: i64)
    requires KeysAre(c, s)
    ensures var r := Emit(s, x, now, true, RetimestampOverflow, LatePacket).state;
            r.mode == Failed || (KeysAre(c, r) && SameReturn(s, r))
  {
    hide NewestKey;
    if x.packet.stream in s.offsets {
      var shifted := Retimestamp(x.packet, s.offsets[x.packet.stream]);
      if shifted.Some? && Note(s, shifted.value).Some? {
        NoteSame(s, shifted.value);
      }
    }
  }

  lemma NoteSame(s: State, p: Packet)
    requires Note(s, p).Some?
    ensures var r := Note(s, p).value;
            SameReturn(s, r) && r.returnKeys == s.returnKeys && r.queues == s.queues && r.offsets == s.offsets && r.pending == s.pending
  {
  }

  /** The cuts are in place, or the core has failed. */
  ghost predicate KeptCuts(c: Config, s: State, r: State) {
    r.mode == Failed || (KeysAre(c, r) && SameReturn(s, r))
  }

  lemma DrainOnceKeys(c: Config, s: State, now: i64, bound: nat)
    requires Ok(c, s, bound) && s.mode == Returning && !s.returnCommitted && KeysAre(c, s)
    ensures KeptCuts(c, s, DrainOnce(c, s, now).state)
  {
    hide DrainLane, Ok, KeysAre;
    if !(exists k :: k in s.active && Watching(c, s, now, k) && k !in s.latest) &&
       Ordered(s, now) && exists k :: k in s.queues && DueFront(s, now, k) {
      DrainLaneKeys(c, s, now, NextLane(s, now), bound);
    }
  }

  lemma {:induction false} DrainKeys(c: Config, s: State, now: i64, fuel: nat, bound: nat)
    requires c.Valid() && Ok(c, s, bound) && s.mode == Returning && !s.returnCommitted && KeysAre(c, s)
    ensures KeptCuts(c, s, DrainUpTo(c, s, now, fuel).state)
    decreases fuel
  {
    hide DrainOnce, Ok, KeysAre;
    if fuel != 0 {
      DrainOnceKeys(c, s, now, bound);
      OkDrainOnce(c, s, now, bound);
      var one := DrainOnce(c, s, now);
      if one.out != [] && one.state.mode != Failed {
        DrainKeys(c, one.state, now, fuel - 1, bound);
      } else if one.out != [] {
        FailedDrain(c, one.state, now, fuel - 1, bound);
      }
    }
  }

  lemma {:induction false} FailedDrain(c: Config, s: State, now: i64, fuel: nat, bound: nat)
    requires Ok(c, s, bound) && s.mode == Failed
    ensures DrainUpTo(c, s, now, fuel).state.mode == Failed
  {
    assert s.queues == map[];
    if fuel != 0 {
      assert DrainOnce(c, s, now).out == [] && DrainOnce(c, s, now).state.mode == Failed;
    }
  }

  // ---------------------------------------------------------------------
  // Pushing while returning

  lemma PreparedIs(c: Config, s: State, stream: StreamKey)
    requires PrepareStream(c, s, stream).ok
    ensures PrepareStream(c, s, stream).state == DropReplaced(s.(known := s.known + {Timeline(stream)}), stream)
  {
    hide DropReplaced, HasOldGeneration, EnterError;
  }

  lemma DroppedReturn(s: State, stream: StreamKey)
    ensures var r := DropReplaced(s, stream);
            && SameReturn(s, r) && r.queues == s.queues
            && forall k :: k in r.returnKeys ==> k in s.returnKeys && r.returnKeys[k] == s.returnKeys[k]
  {
    hide Stay, Awaited;
  }

  lemma PrepareKeys(c: Config, s: State, stream: StreamKey)
    requires PrepareStream(c, s, stream).ok && KeysAre(c, s)
    ensures var r := PrepareStream(c, s, stream).state;
            KeysAre(c, r) && SameReturn(s, r) && r.queues == s.queues
  {
    hide NewestKey, DropReplaced, PrepareStream;
    var s1 := s.(known := s.known + {Timeline(stream)});
    PreparedIs(c, s, stream);
    DroppedReturn(s1, stream);
    SameKeys(s, DropReplaced(s1, stream));
  }

  lemma EnqueueReturning(c: Config, s: State, p: Packet, now: i64, n: nat)
    requires Enqueue(c, s, p, now, n).ok && s.mode == Returning && KeysAre(c, s)
    ensures var r := Enqueue(c, s, p, now, n).state;
            && SameReturn(s, r) && r.queues == Appended(s.queues, NewItem(c, p, now, n))
            && forall k :: k in r.returnKeys ==>
                 k.kind == Video && c.requireKeyframe && NewestKey(Lane(s, k), r.returnKeys[k])
  {
    hide PrepareStream, Place, NewestKey;
    PrepareKeys(c, s, p.stream);
    PlaceReturning(c, PrepareStream(c, s, p.stream).state, p, now, n);
  }

  lemma PlaceReturning(c: Config, s: State, p: Packet, now: i64, n: nat)
    requires Place(c, s, p, now, n).ok && s.mode == Returning
    ensures var r := Place(c, s, p, now, n).state;
            && SameReturn(s, r) && r.queues == Appended(s.queues, NewItem(c, p, now, n)) && r.returnKeys == s.returnKeys
  {
    hide EpochOffset, OverCapacity, Prune, Ordering, EnterError, WithOffset, Append;
    OffsetReturning(s, p);
    var based := WithOffset(s, p).value;
    AppendReturning(c, based, p, now, n, Ordering(based, p).value);
  }

  lemma OffsetReturning(s: State, p: Packet)
    requires WithOffset(s, p).Some?
    ensures var r := WithOffset(s, p).value;
            SameReturn(s, r) && r.queues == s.queues && r.returnKeys == s.returnKeys
  {
    hide EpochOffset;
  }

  lemma AppendReturning(c: Config, s: State, p: Packet, now: i64, n: nat, dts: Horizon)
    ensures var r := Append(c, s, p, now, n, dts);
            SameReturn(s, r) && r.queues == Appended(s.queues, NewItem(c, p, now, n)) && r.returnKeys == s.returnKeys
  {
    hide EpochActive;
  }

  lemma PushedKeys(c: Config, s: State, p: Packet, now: i64, n: nat)
    requires Enqueue(c, s, p, now, n).ok && s.mode == Returning && !s.returnCommitted && KeysAre(c, s)
    requires s.returnRequested.Some? && s.returnRequested.value <= now
    ensures var r := ObserveReturnKey(c, Enqueue(c, s, p, now, n).state, NewItem(c, p, now, n));
            KeysAre(c, r) && SameReturn(s, r)
  {
    hide Enqueue, NewestKey;
    EnqueueReturning(c, s, p, now, n);
    var x := NewItem(c, p, now, n);
    var before := Enqueue(c, s, p, now, n).state;
    var r := ObserveReturnKey(c, before, x);
    forall k | k in r.returnKeys ensures k.kind == Video && c.requireKeyframe && NewestKey(Lane(r, k), r.returnKeys[k]) {
      if k == p.stream && p.keyframe && k.kind == Video && c.requireKeyframe {
        NewestLast(Lane(s, k), x);
      } else if k == p.stream {
        NewestAppend(Lane(s, k), r.returnKeys[k], x);
      }
    }
  }

  // ---------------------------------------------------------------------
  // Every run

  lemma CutsClock(c: Config, s: State, now: i64)
    requires CutsOk(c, s)
    ensures CutsOk(c, Observe(s, now))
  {
    hide NewestKey;
  }

  lemma CutsElsewhere(c: Config, r: State)
    requires r.mode != Returning || r.returnCommitted
    ensures CutsOk(c, r)
  {
  }

  lemma CutsLive(c: Config, s: State, p: Packet, fault: Fault, now: i64, n: nat)
    requires s.mode != Returning || s.returnCommitted
    ensures CutsOk(c, RetimestampLive(c, s, p).state) && CutsOk(c, Bypassed(c, s, p, now, n, fault).state)
  {
    hide EpochOffset, PrepareStream, Note, KeysAre;
    LiveMode(c, s, p);
  }

  lemma LiveMode(c: Config, s: State, p: Packet)
    ensures var r := RetimestampLive(c, s, p).state;
            r.mode == Failed || SameReturn(s, r)
  {
    hide EpochOffset, PrepareStream;
    PrepareReturn(c, s, p.stream);
    var prepared := PrepareStream(c, s, p.stream);
    if prepared.ok {
      var s1 := prepared.state;
      var offset := if p.stream in s1.offsets then Some(s1.offsets[p.stream]) else EpochOffset(s1, p, 0);
      if offset.Some? {
        var s2 := s1.(offsets := s1.offsets[p.stream := offset.value]);
        assert SameReturn(s, s2);
        var shifted := Retimestamp(p, offset.value);
        if shifted.Some? && Note(s2, shifted.value).Some? {
          NoteSame(s2, shifted.value);
        }
      }
    }
  }

  lemma PrepareReturn(c: Config, s: State, stream: StreamKey)
    ensures var r := PrepareStream(c, s, stream);
            if r.ok then SameReturn(s, r.state) else r.state.mode == Failed
  {
    hide HasOldGeneration;
    if Timeline(stream) !in s.known && |s.known| >= c.maxStreams {
    } else if HasOldGeneration(s.(known := s.known + {Timeline(stream)}), stream) {
    }
  }

  lemma CutsPending(c: Config, s: State, now: i64)
    requires s.mode == Returning && s.returnCommitted
    ensures var r := DrainPending(s, now).state;
            CutsOk(c, r) && (r.mode != Returning || r.returnCommitted)
  {
    hide KeysAre, DrainPending;
    PendingMode(s, now);
  }

  lemma CutsDrain(c: Config, s: State, now: i64, bound: nat)
    requires c.Valid() && Ok(c, s, bound) && CutsOk(c, s)
    ensures CutsOk(c, Drain(c, s, now).state)
  {
    hide KeysAre, DrainUpTo, Ok;
    if s.mode == Returning && !s.returnCommitted {
      DrainKeys(c, s, now, Packets(s) + 1, bound);
    } else {
      DrainMode(c, s, now, Packets(s) + 1);
    }
  }

  lemma EmitMode(s: State, x: Queued, now: i64)
    ensures var r := Emit(s, x, now, true, RetimestampOverflow, LatePacket);
            (r.out == [] && r.state.mode == Failed) || SameReturn(s, r.state)
  {
    if x.packet.stream in s.offsets {
      var shifted := Retimestamp(x.packet, s.offsets[x.packet.stream]);
      if shifted.Some? && Note(s, shifted.value).Some? {
        NoteSame(s, shifted.value);
      }
    }
  }

  lemma DrainLaneMode(c: Config, s: State, now: i64, k: StreamKey)
    requires k in s.queues && s.queues[k] != [] && Ordering(s, s.queues[k][0].packet).Some?
    ensures var r := DrainLane(c, s, now, k);
            (r.out == [] && r.state.mode == Failed) || SameReturn(s, r.state)
  {
    hide GateStops, Watermark, Ordering, Emit, EnterError, GateErases, PopFront;
    ErasedMode(s, k);
    var s1 := GateErases(s, k);
    PoppedMode(s1, k);
    ErrorHolds(s1, ReorderWindow);
    EmitMode(PopFront(s1, k), s.queues[k][0], now);
  }

  lemma ErasedMode(s: State, k: StreamKey)
    requires k in s.queues && s.queues[k] != []
    ensures SameReturn(s, GateErases(s, k)) && GateErases(s, k).queues == s.queues
  {
  }

  lemma PoppedMode(s: State, k: StreamKey)
    requires k in s.queues && s.queues[k] != []
    ensures SameReturn(s, PopFront(s, k))
  {
  }

  lemma DrainOnceMode(c: Config, s: State, now: i64)
    ensures var r := DrainOnce(c, s, now);
            (r.out == [] && r.state.mode == Failed) || SameReturn(s, r.state)
  {
    hide DrainLane, EnterError;
    ErrorHolds(s, InvalidQueuedTimeBase);
    if !(exists k :: k in s.active && Watching(c, s, now, k) && k !in s.latest) &&
       Ordered(s, now) && exists k :: k in s.queues && DueFront(s, now, k) {
      var k := NextLane(s, now);
      DrainLaneMode(c, s, now, k);
    }
  }

  lemma {:induction false} DrainMode(c: Config, s: State, now: i64, fuel: nat)
    ensures var r := DrainUpTo(c, s, now, fuel).state;
            r.mode == Failed || SameReturn(s, r)
    decreases fuel
  {
    hide DrainOnce;
    if fuel != 0 {
      DrainOnceMode(c, s, now);
      if DrainOnce(c, s, now).out != [] {
        DrainMode(c, DrainOnce(c, s, now).state, now, fuel - 1);
      }
    }
  }

  lemma CutsDrainAndPrune(c: Config, s: State, now: i64, bound: nat)
    requires c.Valid() && Ok(c, s, bound) && s.mode == Delayed
    ensures CutsOk(c, DrainAndPrune(c, s, now).state)
  {
    hide KeysAre, DrainUpTo, Prune, Ok;
    DrainMode(c, s, now, Packets(s) + 1);
    PruneReturn(c, Drain(c, s, now).state, now);
  }

  lemma PruneReturn(c: Config, s: State, now: i64)
    ensures SameReturn(s, Prune(c, s, now))
  {
    hide PruneQueue;
  }

  lemma CutsPrune(c: Config, s: State, now: i64, bound: nat)
    requires Ok(c, s, bound) && CutsOk(c, s)
    ensures CutsOk(c, Prune(c, s, now))
  {
    hide Prune, KeysAre;
    PruneReturn(c, s, now);
    if s.mode == Returning && !s.returnCommitted {
      PruneKeys(c, s, now, bound);
    }
  }

  lemma CutsPoll(c: Config, s: State, now: i64, bound: nat)
    requires c.Valid() && Ok(c, s, bound) && CutsOk(c, s)
    ensures CutsOk(c, DoPoll(c, s, now).state)
  {
    hide Drain, DrainAndPrune, DrainPending, Prune, Ok, Observe, Regresses, KeysAre;
    CutsClock(c, s, now);
    OkClock(c, s, now, bound);
    var s1 := Observe(s, now);
    if !Regresses(s, now) {
      CutsPrune(c, s1, now, bound);
      if s1.mode == Returning && s1.returnCommitted {
        CutsPending(c, s1, now);
      } else if s1.mode == Delayed {
        CutsDrainAndPrune(c, s1, now, bound);
      } else {
        CutsDrain(c, s1, now, bound);
      }
    }
  }

  lemma CutsPush(c: Config, s: State, p: Packet, now: i64, n: nat)
    requires c.Valid() && Ok(c, s, n) && CutsOk(c, s)
    ensures CutsOk(c, DoPush(c, s, p, now, n).state)
  {
    hide PushBuffered, DrainPending, Bypassed, RetimestampLive, Ok, Observe, Regresses, KeysAre;
    CutsClock(c, s, now);
    QuietStart(c, s, now, n);
    var s1 := Observe(s, now);
    if Regresses(s, now) {
      assert s1.mode == Failed by { RegressFails(s, now); }
      CutsLive(c, s1, p, FailOpenTimestamps, now, n);
    } else if PassesLive(s1) {
      CutsLive(c, s1, p, FailOpenTimestamps, now, n);
    } else if s1.mode == Returning && s1.returnCommitted {
      CutsPending(c, s1, now);
      CutsLive(c, DrainPending(s1, now).state, p, LiveTimestamps, now, n);
    } else {
      StartModes(s1);
      CutsBuffered(c, s1, p, now, n);
    }
  }

  lemma RegressFails(s: State, now: i64)
    requires Regresses(s, now)
    ensures Observe(s, now).mode == Failed
  {
  }

  lemma CutsBuffered(c: Config, s: State, p: Packet, now: i64, n: nat)
    requires c.Valid() && Ok(c, s, n) && CutsOk(c, s) && s.lastObserved == Some(now)
    requires Buffering(s) && !s.returnCommitted
    ensures CutsOk(c, PushBuffered(c, s, p, now, n).state)
  {
    hide Enqueue, Drain, Prune, Ok, DrainAndPrune, Bypassed, ObserveReturnKey, KeysAre;
    var queued := Enqueue(c, s, p, now, n);
    OkEnqueue(c, s, p, now, n);
    if !queued.ok {
      RejectFails(c, s, p, now, n);
      CutsLive(c, queued.state, p, FailOpenTimestamps, now, n);
    } else if s.mode == Preparing {
      PruneReturn(c, queued.state, now);
      OkPrune(c, queued.state, now, n + 1);
      CutsDrain(c, Prune(c, queued.state, now), now, n + 1);
    } else if s.mode == Filling {
      PruneReturn(c, queued.state, now);
    } else if s.mode == Delayed {
      CutsDrainAndPrune(c, queued.state, now, n + 1);
    } else {
      PushedKeys(c, s, p, now, n);
      var observed := ObserveReturnKey(c, queued.state, NewItem(c, p, now, n));
      QuietObserveKey(c, queued.state, NewItem(c, p, now, n), n + 1);
      CutsDrain(c, observed, now, n + 1);
    }
  }

  lemma CutsControl(c: Config, s: State, op: Op, n: nat)
    requires ModesOk(s) && CutsOk(c, s) && !op.Push? && !op.Poll? && !op.PruneNow?
    ensures CutsOk(c, Step(c, s, op, n).state)
  {
    hide KeysAre, DoBeginFilling, DoChangeDelay, DoCancel, DoDeactivate, DoExternal, DoCommitDelayed, DoCommitReturn;
    match op
    case Activate(delay, now) => CutsClock(c, s, now);
    case BeginFilling(now) => CutsBegin(c, s, now);
    case ChangeDelay(delay, now) => CutsChange(c, s, delay, now);
    case CommitDelayed(now, left) => CutsCommitDelayed(c, s, now, left);
    case Cancel(now) => CutsCancel(c, s, now);
    case Deactivate(now) => CutsDeactivate(c, s, now);
    case CommitReturn(now, left) => CutsCommitReturn(c, s, now, left);
    case FinishReturn(now) => CutsClock(c, s, now);
    case ReportError =>
    case Recover(now) => CutsClock(c, s, now);
    case External(p) => CutsExternal(c, s, p);
  }

  lemma CutsBegin(c: Config, s: State, now: i64)
    requires ModesOk(s) && CutsOk(c, s)
    ensures CutsOk(c, DoBeginFilling(s, now))
  {
    hide KeysAre;
    CutsClock(c, s, now);
    if s.mode == Preparing {
    }
  }

  lemma CutsChange(c: Config, s: State, delay: int, now: i64)
    requires ModesOk(s) && CutsOk(c, s)
    ensures CutsOk(c, DoChangeDelay(c, s, delay, now))
  {
    hide KeysAre, Observe;
    CutsClock(c, s, now);
    var s1 := Observe(s, now);
    if s1.mode == Preparing {
    } else if s1.mode == Filling {
    } else if s1.mode == Delayed {
    } else if s1.mode == Bypass {
    } else {
      assert Retarget(s1, if delay >= 0 then delay else 0) == s1;
    }
  }

  lemma CutsCommitDelayed(c: Config, s: State, now: i64, left: map<StreamKey, i64>)
    requires CutsOk(c, s)
    ensures CutsOk(c, DoCommitDelayed(c, s, now, left))
  {
    hide KeysAre, Observe, ApplyPlan, BeginEpoch, PlanReady;
    CutsClock(c, s, now);
  }

  lemma StartCuts(c: Config, s: State, fromDelayed: bool, now: i64)
    requires s.lastObserved == Some(now)
    ensures CutsOk(c, StartReturn(c, s, fromDelayed, now))
  {
  }

  lemma CutsCancel(c: Config, s: State, now: i64)
    requires ModesOk(s) && CutsOk(c, s)
    ensures CutsOk(c, DoCancel(c, s, now))
  {
    hide KeysAre, Observe, StartReturn, Regresses;
    CutsClock(c, s, now);
    CalmClock(s, now);
    var s1 := Observe(s, now);
    if !Regresses(s, now) {
      if s1.mode == Preparing && s1.preparingChange {
      } else if s1.mode == Filling && s1.originDelayed {
      } else if s1.mode == Preparing || s1.mode == Filling {
        StartCuts(c, s1, s1.originDelayed, now);
      }
    }
  }

  lemma CutsDeactivate(c: Config, s: State, now: i64)
    requires ModesOk(s) && CutsOk(c, s)
    ensures CutsOk(c, DoDeactivate(c, s, now))
  {
    hide KeysAre, Observe, StartReturn, Regresses;
    CutsClock(c, s, now);
    CalmClock(s, now);
    var s1 := Observe(s, now);
    if !Regresses(s, now) {
      StartCuts(c, s1, s1.mode == Delayed || (s1.mode == Preparing && s1.preparingChange) || s1.originDelayed, now);
    }
  }

  lemma CutsCommitReturn(c: Config, s: State, now: i64, left: map<StreamKey, i64>)
    requires CutsOk(c, s)
    ensures CutsOk(c, DoCommitReturn(c, s, now, left))
  {
    hide KeysAre, Observe, BuildPending, ReturnReady;
    CutsClock(c, s, now);
  }

  lemma CutsExternal(c: Config, s: State, p: Packet)
    requires CutsOk(c, s)
    ensures CutsOk(c, DoExternal(c, s, p))
  {
    hide NewestKey;
    var lane := Timeline(p.stream);
    if !(lane !in s.known && |s.known| >= c.maxStreams) {
      var s1 := s.(known := s.known + {lane});
      if Note(s1, p).Some? {
        NoteSame(s1, p);
      }
    }
  }

  lemma CutsStep(c: Config, s: State, op: Op, n: nat)
    requires c.Valid() && Ok(c, s, n) && CutsOk(c, s)
    ensures CutsOk(c, Step(c, s, op, n).state)
  {
    hide DoPush, DoPoll, Prune, Ok, CutsOk;
    OkLanes(c, s, n);
    if op.Push? {
      CutsPush(c, s, op.packet, op.now, n);
    } else if op.Poll? {
      CutsPoll(c, s, op.now, n);
    } else if op.PruneNow? {
      CutsClock(c, s, op.now);
      OkClock(c, s, op.now, n);
      CutsPrune(c, Observe(s, op.now), op.now, n);
    } else {
      CutsControl(c, s, op, n);
    }
  }

  /** In every reachable state a recorded cut is the newest keyframe its lane still buffers. */
  lemma {:induction false} EveryRunCutsOk(c: Config, ops: seq<Op>)
    requires c.Valid()
    ensures CutsOk(c, Play(c, ops).state)
  {
    hide Step, CutsOk, Conserved;
    if ops == [] {
      CutsElsewhere(c, Initial(c));
    } else {
      EveryRunCutsOk(c, ops[..|ops| - 1]);
      EveryRunConserves(c, ops[..|ops| - 1]);
      var before := Play(c, ops[..|ops| - 1]);
      assert Ok(c, before.state, before.next) by { ConservedOk(c, before); }
      CutsStep(c, before.state, ops[|ops| - 1], before.next);
    }
  }

  lemma ConservedOk(c: Config, r: Run)
    requires Conserved(c, r)
    ensures Ok(c, r.state, r.next)
  {
  }
}
