/** Invariant, caps and ledger hold over every run of the delay. */
module PacketDelayRun {
  import opened Options
  import opened Timestamps
  import opened PacketTypes
  import opened PacketDelaySpec
  import opened PacketDelayStep
  import opened PacketDelayInvariant
  import opened PacketDelayMerge
  import opened PacketDelayKeep

  // ---------------------------------------------------------------------
  // The two commits

  lemma KeptSuffixes(c: Config, s: State, cut: Option<i64>)
    ensures Suffixes(KeptQueues(c, s, cut), s.queues)
  {
  }

  lemma KeptMergeable(c: Config, s: State, s1: State, cut: Option<i64>, bound: nat)
    requires Ok(c, s, bound) && AllOrdered(s1, KeptQueues(c, s, cut))
    ensures Mergeable(s1, KeptQueues(c, s, cut))
    ensures LanesOk(c, KeptQueues(c, s, cut), bound, s.lastObserved)
  {
    var kept := KeptQueues(c, s, cut);
    KeptSuffixes(c, s, cut);
    SuffixesLanes(c, kept, s.queues, bound, s.lastObserved);
    SuffixesDistinct(kept, s.queues);
    forall k | k in kept ensures Datable(s1, kept[k]) && Arrived(kept[k]) {
      assert LaneOk(c, k, kept[k], bound, s.lastObserved);
    }
  }

  /** A merge of well-formed lanes holds every sequence number once. */
  lemma MergedPending(c: Config, s1: State, m: Queues, q: Queue, bound: nat, clock: Option<i64>)
    requires Merges(s1, m, q) && LanesOk(c, m, bound, clock) && DistinctLanes(m)
    ensures DistinctPending(c, q, bound, clock)
  {
    forall i | 0 <= i < |q| ensures ItemOk(c, q[i], bound, clock) {
      assert q[i] in q && InLane(m, q[i]);
      var k :| k in m && q[i] in m[k];
      assert LaneOk(c, k, m[k], bound, clock);
    }
    forall i, j | 0 <= i < j < |q| ensures q[i].sequence != q[j].sequence {
      assert Strictly(s1, q[i], q[j]);
      MergedDistinct(c, m, q[i], q[j], bound, clock);
    }
  }

  lemma MergedDistinct(c: Config, m: Queues, x: Queued, y: Queued, bound: nat, clock: Option<i64>)
    requires LanesOk(c, m, bound, clock) && DistinctLanes(m) && InLane(m, x) && InLane(m, y) && x != y
    ensures x.sequence != y.sequence
  {
    var k :| k in m && x in m[k];
    var j :| j in m && y in m[j];
    if k == j {
      assert LaneOk(c, k, m[k], bound, clock);
    } else {
      assert Apart(m[k], m[j]);
    }
  }

  lemma BuiltCaps(c: Config, s: State, s1: State, m: Queues, r: State)
    requires CapsOk(c, s) && Suffixes(m, s.queues) && Mergeable(s1, m) && s.pending == []
    requires r.queues == map[] && r.pending == Merge(s1, m)
    ensures CapsOk(c, r)
  {
    MergeCorrect(s1, m, One);
    MergeCorrect(s1, m, Payload);
    MergeCorrect(s1, m, Retained);
    SuffixesWeight(m, s.queues, One);
    SuffixesWeight(m, s.queues, Payload);
    SuffixesWeight(m, s.queues, Retained);
    SeqWeightOne(r.pending);
  }

  lemma OkCommitReturn(c: Config, s: State, bound: nat)
    requires c.Valid() && Ok(c, s, bound) && s.mode == Returning && !s.returnCommitted
    requires BuildPending(c, s).Some?
    ensures var r := BuildPending(c, s).value.(returnCommitted := true, returnFromDelayed := false);
            Ok(c, r, bound) && Held(r) <= Held(s)
  {
    var cut := LiveCut(s);
    var kept := KeptQueues(c, s, cut);
    var s1 := s.(offsets := UnifiedOffsets(s, QueueFronts(kept), 0).value);
    var r := BuildPending(c, s).value.(returnCommitted := true, returnFromDelayed := false);
    KeptMergeable(c, s, s1, cut, bound);
    KeptSuffixes(c, s, cut);
    MergeCorrect(s1, kept, One);
    MergedPending(c, s1, kept, r.pending, bound, s.lastObserved);
    BuiltCaps(c, s, s1, kept, r);
    BuiltHeld(s, kept, s1, r);
  }

  lemma BuiltHeld(s: State, m: Queues, s1: State, r: State)
    requires Suffixes(m, s.queues) && Merges(s1, m, r.pending) && r.queues == map[]
    ensures Held(r) <= Held(s)
  {
    forall x | x in Held(r) ensures x in Held(s) {
      assert InLane(m, x);
      var k :| k in m && x in m[k];
      assert SuffixOf(m[k], s.queues[k]);
      assert x in s.queues[k];
    }
  }

  lemma EpochKeeps(s: State)
    requires BeginEpoch(s).Some?
    ensures var r := BeginEpoch(s).value;
            r == s.(offsets := r.offsets, latest := r.latest) && forall k :: k in r.latest ==> r.latest[k].tb.Valid()
  {
    hide UnifiedOffsets;
  }

  lemma OkCommitDelayed(c: Config, s: State, now: i64, bound: nat)
    requires c.Valid() && Ok(c, s, bound) && s.mode == Filling && BeginEpoch(ApplyPlan(c, s, now)).Some?
    ensures var s1 := BeginEpoch(ApplyPlan(c, s, now)).value;
            var r := s1.(active := c.required + s1.queues.Keys, preparingChange := false, originDelayed := false,
                         pendingTarget := s1.target, mode := Delayed);
            Ok(c, r, bound) && Held(r) <= Held(s)
  {
    var cut := ApplyPlan(c, s, now);
    PlanSuffixes(c, s, now);
    OkSuffixes(c, s, cut.queues, bound);
    SuffixesHeld(s, cut.queues);
    EpochKeeps(cut);
    var s1 := BeginEpoch(cut).value;
    var r := s1.(active := c.required + s1.queues.Keys, preparingChange := false, originDelayed := false,
                 pendingTarget := s1.target, mode := Delayed);
    assert r.queues == cut.queues && r.pending == cut.pending;
  }

  // ---------------------------------------------------------------------
  // Operations that emit nothing

  ghost predicate Quiet(c: Config, s: State, r: State, bound: nat) {
    Ok(c, r, bound) && Held(r) <= Held(s)
  }

  lemma QuietClock(c: Config, s: State, now: i64, bound: nat)
    requires c.Valid() && Ok(c, s, bound)
    ensures Quiet(c, s, Observe(s, now), bound)
  {
    OkClock(c, s, now, bound);
    ErrorHolds(s, ClockRegression);
  }

  lemma QuietActivate(c: Config, s: State, delay: int, now: i64, bound: nat)
    requires c.Valid() && Ok(c, s, bound)
    ensures Quiet(c, s, DoActivate(c, s, delay, now), bound)
  {
    QuietClock(c, s, now, bound);
  }

  lemma QuietBeginFilling(c: Config, s: State, now: i64, bound: nat)
    requires c.Valid() && Ok(c, s, bound)
    ensures Quiet(c, s, DoBeginFilling(s, now), bound)
  {
    QuietClock(c, s, now, bound);
  }

  lemma RetargetPreparing(c: Config, s: State, delay: nat, bound: nat)
    requires Ok(c, s, bound) && ValidDelay(c, delay) && s.mode == Preparing
    ensures Quiet(c, s, Retarget(s, delay), bound)
  {
  }

  lemma RetargetFilling(c: Config, s: State, delay: nat, bound: nat)
    requires Ok(c, s, bound) && ValidDelay(c, delay) && s.mode == Filling
    ensures Quiet(c, s, Retarget(s, delay), bound)
  {
  }

  lemma RetargetDelayed(c: Config, s: State, delay: nat, bound: nat)
    requires Ok(c, s, bound) && ValidDelay(c, delay) && s.mode == Delayed
    ensures Quiet(c, s, Retarget(s, delay), bound)
  {
  }

  lemma QuietRetarget(c: Config, s: State, delay: nat, bound: nat)
    requires Ok(c, s, bound) && ValidDelay(c, delay)
    ensures Quiet(c, s, Retarget(s, delay), bound)
  {
    hide Ok, Held, ReportedTarget;
    if s.mode == Preparing {
      RetargetPreparing(c, s, delay, bound);
    } else if s.mode == Filling {
      RetargetFilling(c, s, delay, bound);
    } else if s.mode == Delayed {
      RetargetDelayed(c, s, delay, bound);
    } else {
      assert Retarget(s, delay) == s;
    }
  }

  lemma QuietFresh(c: Config, s: State, delay: nat, bound: nat)
    requires c.Valid() && Ok(c, s, bound) && s.mode == Bypass && delay <= c.maxDelay
    ensures Quiet(c, s, ClearAll(s).(target := delay, pendingTarget := delay, mode := Preparing), bound)
  {
  }

  lemma QuietChangeDelay(c: Config, s: State, delay: int, now: i64, bound: nat)
    requires c.Valid() && Ok(c, s, bound)
    ensures Quiet(c, s, DoChangeDelay(c, s, delay, now), bound)
  {
    hide Retarget, Observe, Regresses, ClearAll, Ok;
    QuietClock(c, s, now, bound);
    var s1 := Observe(s, now);
    if !Regresses(s, now) && ValidDelay(c, delay) {
      if s1.mode == Bypass {
        QuietFresh(c, s1, delay, bound);
      } else {
        QuietRetarget(c, s1, delay, bound);
      }
    }
  }

  lemma SameQueues(s: State, r: State)
    ensures (r.queues == s.queues || r.queues == map[]) && (r.pending == s.pending || r.pending == []) ==>
              Held(r) <= Held(s)
  {
  }

  lemma QuietCommitDelayed(c: Config, s: State, now: i64, leftover: map<StreamKey, i64>, bound: nat)
    requires c.Valid() && Ok(c, s, bound)
    ensures Quiet(c, s, DoCommitDelayed(c, s, now, leftover), bound)
  {
    hide ApplyPlan, BeginEpoch, PlanReady, Observe, Regresses;
    QuietClock(c, s, now, bound);
    var s1 := Observe(s, now);
    if s1.mode == Filling && !Regresses(s, now) && PlanReady(c, s1, now) {
      if BeginEpoch(ApplyPlan(c, s1, now)).None? {
        PlanKeeps(c, s1, now);
        OkError(c, ApplyPlan(c, s1, now).(offsets := leftover), bound, DelayedEpoch);
        ErrorHolds(ApplyPlan(c, s1, now).(offsets := leftover), DelayedEpoch);
      } else {
        OkCommitDelayed(c, s1, now, bound);
      }
    }
  }

  lemma PlanKeeps(c: Config, s: State, now: i64)
    ensures ApplyPlan(c, s, now) == s.(queues := ApplyPlan(c, s, now).queues)
  {
  }

  lemma QuietReturn(c: Config, s: State, fromDelayed: bool, now: i64, bound: nat)
    requires c.Valid() && Ok(c, s, bound)
    requires s.mode == Preparing || s.mode == Filling || s.mode == Delayed
    ensures Quiet(c, s, StartReturn(c, s, fromDelayed, now), bound)
  {
  }

  lemma QuietCancelled(c: Config, s: State, now: i64, bound: nat)
    requires c.Valid() && Ok(c, s, bound)
    ensures Quiet(c, s, Cancelled(c, s, now), bound)
  {
    hide StartReturn;
    if s.mode == Preparing || s.mode == Filling {
      QuietReturn(c, s, s.originDelayed, now, bound);
    }
  }

  lemma QuietCancel(c: Config, s: State, now: i64, bound: nat)
    requires c.Valid() && Ok(c, s, bound)
    ensures Quiet(c, s, DoCancel(c, s, now), bound)
  {
    hide Cancelled, Ok;
    QuietClock(c, s, now, bound);
    QuietCancelled(c, Observe(s, now), now, bound);
  }

  lemma QuietDeactivate(c: Config, s: State, now: i64, bound: nat)
    requires c.Valid() && Ok(c, s, bound)
    ensures Quiet(c, s, DoDeactivate(c, s, now), bound)
  {
    hide StartReturn, Observe, Regresses;
    QuietClock(c, s, now, bound);
    var s1 := Observe(s, now);
    if s1.mode == Preparing || s1.mode == Filling || s1.mode == Delayed {
      QuietReturn(c, s1, s1.mode == Delayed || (s1.mode == Preparing && s1.preparingChange) || s1.originDelayed, now, bound);
    }
  }

  lemma QuietCommitReturn(c: Config, s: State, now: i64, leftover: map<StreamKey, i64>, bound: nat)
    requires c.Valid() && Ok(c, s, bound)
    ensures Quiet(c, s, DoCommitReturn(c, s, now, leftover), bound)
  {
    hide BuildPending, ReturnReady, Observe, Regresses;
    QuietClock(c, s, now, bound);
    var s1 := Observe(s, now);
    if s1.mode == Returning && !s1.returnCommitted {
      if BuildPending(c, s1).None? {
        OkError(c, s1.(offsets := leftover), bound, LiveEpoch);
        ErrorHolds(s1.(offsets := leftover), LiveEpoch);
      } else {
        OkCommitReturn(c, s1, bound);
      }
    }
  }

  lemma QuietFinish(c: Config, s: State, now: i64, bound: nat)
    requires c.Valid() && Ok(c, s, bound)
    ensures Quiet(c, s, DoFinishReturn(s, now), bound)
  {
    QuietClock(c, s, now, bound);
  }

  lemma QuietRecover(c: Config, s: State, now: i64, bound: nat)
    requires c.Valid() && Ok(c, s, bound)
    ensures Quiet(c, s, DoRecover(s, now), bound)
  {
    QuietClock(c, s, now, bound);
  }

  lemma QuietPrune(c: Config, s: State, now: i64, bound: nat)
    requires c.Valid() && Ok(c, s, bound)
    ensures Quiet(c, s, Prune(c, s, now), bound)
  {
    OkPrune(c, s, now, bound);
    PruneSuffixes(c, s, now, bound);
    SuffixesHeld(s, Prune(c, s, now).queues);
  }

  lemma QuietExternal(c: Config, s: State, p: Packet, bound: nat)
    requires c.Valid() && Ok(c, s, bound)
    ensures Quiet(c, s, DoExternal(c, s, p), bound)
  {
    var lane := Timeline(p.stream);
    if lane !in s.known && |s.known| >= c.maxStreams {
      OkError(c, s, bound, TooManyTimelines);
      ErrorHolds(s, TooManyTimelines);
    } else {
      var s1 := s.(known := s.known + {lane});
      QuietKnown(c, s, lane, bound);
      if Note(s1, p).None? {
        OkError(c, s1, bound, ExternalOutput);
        ErrorHolds(s1, ExternalOutput);
      } else {
        OkNote(c, s1, p, bound);
      }
    }
  }

  lemma QuietKnown(c: Config, s: State, lane: StreamKey, bound: nat)
    requires Ok(c, s, bound) && (lane in s.known || |s.known| < c.maxStreams)
    ensures Quiet(c, s, s.(known := s.known + {lane}), bound)
  {
    if lane in s.known {
      assert s.known + {lane} == s.known;
    }
  }

  // ---------------------------------------------------------------------
  // Packets that pass live

  lemma LiveShift(c: Config, s: State, p: Packet, now: i64, sequence: nat)
    ensures Released(NewItem(c, p, now, sequence), Output(RetimestampLive(c, s, p).packet, now, now, sequence, false))
  {
    hide PrepareStream, EpochOffset, Note;
  }

  lemma QuietPrepare(c: Config, s: State, stream: StreamKey, bound: nat)
    requires c.Valid() && Ok(c, s, bound)
    ensures Quiet(c, s, PrepareStream(c, s, stream).state, bound)
  {
    OkPrepare(c, s, stream, bound);
    PrepareHeld(c, s, stream);
  }

  lemma PrepareHeld(c: Config, s: State, stream: StreamKey)
    ensures Held(PrepareStream(c, s, stream).state) <= Held(s)
  {
    hide EnterError, HasOldGeneration, Held;
    var s1 := s.(known := s.known + {Timeline(stream)});
    ErrorHolds(s, TooManyTimelines);
    ErrorHolds(s1, GenerationChanged);
    SameQueues(s, DropReplaced(s1, stream));
  }

  lemma QuietLive(c: Config, s: State, p: Packet, bound: nat)
    requires c.Valid() && Ok(c, s, bound)
    ensures Quiet(c, s, RetimestampLive(c, s, p).state, bound)
  {
    hide PrepareStream, EpochOffset, Note;
    QuietPrepare(c, s, p.stream, bound);
    var prepared := PrepareStream(c, s, p.stream);
    if prepared.ok {
      var s1 := prepared.state;
      var offset := if p.stream in s1.offsets then Some(s1.offsets[p.stream]) else EpochOffset(s1, p, 0);
      if offset.Some? {
        QuietOffsets(c, s1, s1.offsets[p.stream := offset.value], bound);
        var s2 := s1.(offsets := s1.offsets[p.stream := offset.value]);
        var shifted := Retimestamp(p, offset.value);
        if shifted.Some? && Note(s2, shifted.value).Some? {
          OkNote(c, s2, shifted.value, bound);
        }
      }
    }
  }

  lemma QuietOffsets(c: Config, s: State, offsets: map<StreamKey, i64>, bound: nat)
    requires Ok(c, s, bound)
    ensures Quiet(c, s, s.(offsets := offsets), bound)
  {
  }

  /** A live packet is emitted once and never buffered. */
  lemma LiveMoves(c: Config, s: State, p: Packet, now: i64, bound: nat, fault: Fault)
    requires c.Valid() && Ok(c, s, bound) && Unheld(Held(s), bound)
    ensures var r := Bypassed(c, s, p, now, bound, fault);
            Ok(c, r.state, bound) && Ledger(Held(s) + iset{NewItem(c, p, now, bound)}, r.out, Held(r.state))
  {
    hide RetimestampLive, Ok;
    QuietLive(c, s, p, bound);
    LiveShift(c, s, p, now, bound);
    var live := RetimestampLive(c, s, p);
    if !live.ok {
      LiveError(c, live.state, fault, bound);
    }
    assert NewItem(c, p, now, bound) in Held(s) + iset{NewItem(c, p, now, bound)};
  }

  lemma LiveError(c: Config, s: State, fault: Fault, bound: nat)
    requires c.Valid() && Ok(c, s, bound)
    ensures Ok(c, EnterError(s, fault), bound) && Held(EnterError(s, fault)) == iset{}
  {
    OkError(c, s, bound, fault);
    ErrorHolds(s, fault);
  }

  // ---------------------------------------------------------------------
  // Pushing

  /** All sequence numbers held are below the bound. */
  lemma HeldBelow(c: Config, s: State, bound: nat)
    requires Ok(c, s, bound)
    ensures Unheld(Held(s), bound)
  {
    forall y | y in Held(s) ensures y.sequence != bound {
      if y !in s.pending {
        var k :| k in s.queues && y in s.queues[k];
        assert LaneOk(c, k, s.queues[k], bound, s.lastObserved);
      }
    }
  }

  /** What one push makes of the packets held before and the one pushed. */
  ghost predicate PushMoves(c: Config, s: State, x: Queued, r: Drained, bound: nat) {
    Ok(c, r.state, bound) && Ledger(Held(s) + iset{x}, r.out, Held(r.state))
  }

  lemma EnqueueHeld(c: Config, s: State, p: Packet, now: i64, bound: nat)
    requires Ok(c, s, bound)
    ensures var r := Enqueue(c, s, p, now, bound);
            Held(r.state) <= Held(s) + (if r.ok then iset{NewItem(c, p, now, bound)} else iset{})
  {
    hide Prune, OverCapacity, EpochOffset, Ordering, Append;
    PrepareHeld(c, s, p.stream);
    var prepared := PrepareStream(c, s, p.stream);
    if prepared.ok && p.tb.Valid() {
      PlaceHeld(c, s, prepared.state, p, now, bound);
    }
  }

  lemma PlaceHeld(c: Config, s0: State, s: State, p: Packet, now: i64, bound: nat)
    requires Held(s) <= Held(s0)
    ensures var r := Place(c, s, p, now, bound);
            Held(r.state) <= Held(s0) + (if r.ok then iset{NewItem(c, p, now, bound)} else iset{})
  {
    hide Prune, OverCapacity, EpochOffset, Ordering, Append, EnterError, Held;
    var based := WithOffset(s, p);
    ErrorHolds(s, NewStreamOffset);
    if based.Some? {
      SameQueues(s, based.value);
      ErrorHolds(based.value, OrderingOverflow);
      if Ordering(based.value, p).Some? {
        var room := if s.mode == Returning then based.value else Prune(c, based.value, now);
        ErrorHolds(room, Capacity);
        PruneHeld(c, based.value, now);
        AppendHeld(c, room, p, now, bound, Ordering(based.value, p).value);
      }
    }
  }

  lemma PruneHeld(c: Config, s: State, now: i64)
    ensures Held(Prune(c, s, now)) <= Held(s)
  {
    var r := Prune(c, s, now);
    forall x | x in Held(r) ensures x in Held(s) {
      if x !in s.pending {
        var k :| k in r.queues && x in r.queues[k];
        assert x in s.queues[k];
      }
    }
  }

  lemma AppendHeld(c: Config, s: State, p: Packet, now: i64, bound: nat, dts: Horizon)
    ensures Held(Append(c, s, p, now, bound, dts)) <= Held(s) + iset{NewItem(c, p, now, bound)}
  {
    var r := Append(c, s, p, now, bound, dts);
    forall x | x in Held(r) ensures x in Held(s) + iset{NewItem(c, p, now, bound)} {
      if x !in s.pending && x != NewItem(c, p, now, bound) {
        var k :| k in r.queues && x in r.queues[k];
        assert k in s.queues && x in s.queues[k];
      }
    }
  }

  lemma PushThen(c: Config, s: State, x: Queued, mid: State, r: Drained, bound: nat)
    requires Held(mid) <= Held(s) + iset{x} && Moves(c, mid, r, bound)
    ensures PushMoves(c, s, x, r, bound)
  {
    LedgerMore(Held(mid), Held(s) + iset{x}, r.out, Held(r.state));
  }

  lemma QuietObserveKey(c: Config, s: State, x: Queued, bound: nat)
    requires Ok(c, s, bound) && s.mode == Returning
    ensures Quiet(c, s, ObserveReturnKey(c, s, x), bound)
  {
  }

  lemma DrainAndPruneMoves(c: Config, s: State, now: i64, bound: nat)
    requires c.Valid() && Ok(c, s, bound)
    ensures Moves(c, s, DrainAndPrune(c, s, now), bound)
  {
    hide Drain, Ok, Prune;
    OkDrain(c, s, now, bound);
    var drained := Drain(c, s, now);
    if drained.state.mode == Delayed {
      QuietPrune(c, drained.state, now, bound);
      QuietAfter(c, s, drained, Prune(c, drained.state, now), bound);
    }
  }

  lemma QuietAfter(c: Config, s: State, one: Drained, r: State, bound: nat)
    requires Moves(c, s, one, bound) && Quiet(c, one.state, r, bound)
    ensures Moves(c, s, Drained(r, one.out), bound)
  {
    LedgerNone(Held(one.state), Held(r));
    LedgerThen(Held(s), one.out, Held(one.state), [], Held(r));
    assert one.out + [] == one.out;
  }

  /** A packet that is accepted into the buffer. */
  lemma BufferedMoves(c: Config, s: State, p: Packet, now: i64, bound: nat)
    requires c.Valid() && Ok(c, s, bound) && Buffering(s) && !s.returnCommitted && s.lastObserved == Some(now)
    ensures PushMoves(c, s, NewItem(c, p, now, bound), PushBuffered(c, s, p, now, bound), bound + 1)
  {
    hide Enqueue, Drain, Prune, Ok, DrainAndPrune, Bypassed, ObserveReturnKey;
    var x := NewItem(c, p, now, bound);
    var queued := Enqueue(c, s, p, now, bound);
    OkEnqueue(c, s, p, now, bound);
    EnqueueHeld(c, s, p, now, bound);
    if !queued.ok {
      RejectedMoves(c, s, p, now, bound);
    } else if s.mode == Preparing {
      QuietPrune(c, queued.state, now, bound + 1);
      OkDrain(c, Prune(c, queued.state, now), now, bound + 1);
      PushThen(c, s, x, Prune(c, queued.state, now), Drain(c, Prune(c, queued.state, now), now), bound + 1);
    } else if s.mode == Filling {
      QuietPrune(c, queued.state, now, bound + 1);
      LedgerNone(Held(s) + iset{x}, Held(Prune(c, queued.state, now)));
    } else if s.mode == Delayed {
      DrainAndPruneMoves(c, queued.state, now, bound + 1);
      PushThen(c, s, x, queued.state, DrainAndPrune(c, queued.state, now), bound + 1);
    } else {
      QuietObserveKey(c, queued.state, x, bound + 1);
      var observed := ObserveReturnKey(c, queued.state, x);
      OkDrain(c, observed, now, bound + 1);
      PushThen(c, s, x, observed, Drain(c, observed, now), bound + 1);
      LedgerNone(Held(s) + iset{x}, Held(observed));
    }
  }

  lemma RejectedMoves(c: Config, s: State, p: Packet, now: i64, bound: nat)
    requires c.Valid() && Ok(c, s, bound) && Buffering(s) && !s.returnCommitted && s.lastObserved == Some(now)
    requires !Enqueue(c, s, p, now, bound).ok
    ensures PushMoves(c, s, NewItem(c, p, now, bound),
                      Bypassed(c, Enqueue(c, s, p, now, bound).state, p, now, bound, FailOpenTimestamps), bound + 1)
  {
    hide Bypassed, Ok;
    var s1 := Enqueue(c, s, p, now, bound).state;
    OkEnqueue(c, s, p, now, bound);
    HeldBelow(c, s1, bound);
    LiveMoves(c, s1, p, now, bound, FailOpenTimestamps);
    var r := Bypassed(c, s1, p, now, bound, FailOpenTimestamps);
    EnqueueHeld(c, s, p, now, bound);
    var x := NewItem(c, p, now, bound);
    LedgerMore(Held(s1) + iset{x}, Held(s) + iset{x}, r.out, Held(r.state));
    OkBound(c, r.state, bound, bound + 1);
  }

  lemma CommittedMoves(c: Config, s: State, p: Packet, now: i64, bound: nat)
    requires c.Valid() && Ok(c, s, bound)
    ensures PushMoves(c, s, NewItem(c, p, now, bound), PushCommitted(c, s, p, now, bound), bound + 1)
  {
    hide Ok, DrainPending, Bypassed;
    var x := NewItem(c, p, now, bound);
    OkDrainPending(c, s, now, bound);
    HeldBelow(c, s, bound);
    var drained := DrainPending(s, now);
    LiveMoves(c, drained.state, p, now, bound, LiveTimestamps);
    var live := Bypassed(c, drained.state, p, now, bound, LiveTimestamps);
    LedgerBeside(Held(s), drained.out, Held(drained.state), x);
    LedgerThen(Held(s) + iset{x}, drained.out, Held(drained.state) + iset{x}, live.out, Held(live.state));
    OkBound(c, live.state, bound, bound + 1);
  }

  /** A packet with a new sequence number rides along any ledger. */
  lemma LedgerBeside(a: iset<Queued>, out: seq<Output>, b: iset<Queued>, x: Queued)
    requires Ledger(a, out, b) && Unheld(a, x.sequence)
    ensures Ledger(a + iset{x}, out, b + iset{x})
  {
    LedgerMore(a, a + iset{x}, out, b);
    forall i | 0 <= i < |out| ensures Unheld(b + iset{x}, out[i].sequence) {
      assert From(a, out[i]) && Unheld(b, out[i].sequence);
    }
  }

  lemma QuietStart(c: Config, s: State, now: i64, bound: nat)
    requires c.Valid() && Ok(c, s, bound)
    ensures var s1 := Observe(s, now);
            Quiet(c, s, s1, bound) && Unheld(Held(s1), bound)
            && (!Regresses(s, now) ==> s1.lastObserved == Some(now) && ModesOk(s1))
  {
    QuietClock(c, s, now, bound);
    HeldBelow(c, Observe(s, now), bound);
  }

  lemma StartModes(s: State)
    requires !PassesLive(s) && !(s.mode == Returning && s.returnCommitted) && ModesOk(s)
    ensures Buffering(s) && !s.returnCommitted
  {
  }

  lemma PushKeeps(c: Config, s: State, p: Packet, now: i64, n: nat)
    requires c.Valid() && Ok(c, s, n)
    ensures PushMoves(c, s, NewItem(c, p, now, n), DoPush(c, s, p, now, n), n + 1)
  {
    hide PushBuffered, PushCommitted, Bypassed, Observe, Regresses, Ok, Held, Ledger, PushMoves, PassesLive, RetimestampLive, ModesOk;
    QuietStart(c, s, now, n);
    var s1 := Observe(s, now);
    if Regresses(s, now) {
      RegressedMoves(c, s, s1, p, now, n);
    } else if PassesLive(s1) {
      PassedMoves(c, s, s1, p, now, n);
    } else if s1.mode == Returning && s1.returnCommitted {
      CommittedMoves(c, s1, p, now, n);
      PushFrom(c, s, s1, NewItem(c, p, now, n), PushCommitted(c, s1, p, now, n), n + 1);
    } else {
      StartModes(s1);
      BufferedMoves(c, s1, p, now, n);
      PushFrom(c, s, s1, NewItem(c, p, now, n), PushBuffered(c, s1, p, now, n), n + 1);
    }
  }

  lemma PushFrom(c: Config, s: State, s1: State, x: Queued, r: Drained, bound: nat)
    requires Held(s1) <= Held(s) && PushMoves(c, s1, x, r, bound)
    ensures PushMoves(c, s, x, r, bound)
  {
    LedgerMore(Held(s1) + iset{x}, Held(s) + iset{x}, r.out, Held(r.state));
  }

  lemma PassedMoves(c: Config, s: State, s1: State, p: Packet, now: i64, bound: nat)
    requires c.Valid() && Ok(c, s1, bound) && Held(s1) <= Held(s) && Unheld(Held(s1), bound)
    ensures PushMoves(c, s, NewItem(c, p, now, bound), Bypassed(c, s1, p, now, bound, FailOpenTimestamps), bound + 1)
  {
    hide Ok, Bypassed;
    var x := NewItem(c, p, now, bound);
    var r := Bypassed(c, s1, p, now, bound, FailOpenTimestamps);
    LiveMoves(c, s1, p, now, bound, FailOpenTimestamps);
    LedgerMore(Held(s1) + iset{x}, Held(s) + iset{x}, r.out, Held(r.state));
    OkBound(c, r.state, bound, bound + 1);
  }

  lemma RegressedMoves(c: Config, s: State, s1: State, p: Packet, now: i64, bound: nat)
    requires c.Valid() && Ok(c, s1, bound) && Held(s1) <= Held(s) && Unheld(Held(s1), bound)
    ensures var live := RetimestampLive(c, s1, p);
            PushMoves(c, s, NewItem(c, p, now, bound),
                      Drained(live.state, [Output(live.packet, now, now, bound, false)]), bound + 1)
  {
    hide Ok, RetimestampLive;
    var x := NewItem(c, p, now, bound);
    var live := RetimestampLive(c, s1, p);
    QuietLive(c, s1, p, bound);
    LiveShift(c, s1, p, now, bound);
    OkBound(c, live.state, bound, bound + 1);
    assert x in Held(s) + iset{x};
  }

  lemma PollKeeps(c: Config, s: State, now: i64, bound: nat)
    requires c.Valid() && Ok(c, s, bound)
    ensures Moves(c, s, DoPoll(c, s, now), bound)
  {
    hide Ok, Drain, DrainAndPrune, DrainPending, Prune, Observe, Regresses;
    QuietClock(c, s, now, bound);
    var s1 := Observe(s, now);
    LedgerNone(Held(s), Held(s1));
    OkDrain(c, s1, now, bound);
    MovesFrom(c, s, s1, Drain(c, s1, now), bound);
    QuietPrune(c, s1, now, bound);
    LedgerNone(Held(s), Held(Prune(c, s1, now)));
    DrainAndPruneMoves(c, s1, now, bound);
    MovesFrom(c, s, s1, DrainAndPrune(c, s1, now), bound);
    OkDrainPending(c, s1, now, bound);
    MovesFrom(c, s, s1, DrainPending(s1, now), bound);
  }

  lemma MovesFrom(c: Config, s: State, s1: State, r: Drained, bound: nat)
    requires Held(s1) <= Held(s) && Moves(c, s1, r, bound)
    ensures Moves(c, s, r, bound)
  {
    LedgerMore(Held(s1), Held(s), r.out, Held(r.state));
  }

  // ---------------------------------------------------------------------
  // Runs

  /** The packets an operation may emit or keep: those held before, and the one it pushes. */
  ghost function Sources(c: Config, s: State, op: Op, n: nat): iset<Queued> {
    if op.Push? then Held(s) + iset{NewItem(c, op.packet, op.now, n)} else Held(s)
  }


  function NextSequence(op: Op, n: nat): nat {
    if op.Push? then n + 1 else n
  }

  ghost predicate StepKeepsAll(c: Config, s: State, op: Op, n: nat) {
    var r := Step(c, s, op, n);
    && Ok(c, r.state, NextSequence(op, n))
    && Ledger(Sources(c, s, op, n), r.out, Held(r.state))
  }

  /** One operation keeps the invariant and emits only packets it had, once each. */
  lemma StepKeeps(c: Config, s: State, op: Op, n: nat)
    requires c.Valid() && Ok(c, s, n)
    ensures StepKeepsAll(c, s, op, n)
  {
    hide Ok, Ledger, Held, DoActivate, DoBeginFilling, DoChangeDelay, DoCommitDelayed, DoCancel, DoDeactivate,
         DoCommitReturn, DoFinishReturn, DoRecover, DoPush, DoPoll, DoExternal, EnterError, Prune, Observe, Regresses;
    match op
    case Activate(delay, now) => QuietActivate(c, s, delay, now, n); QuietLedger(c, s, Step(c, s, op, n).state, n);
    case BeginFilling(now) => QuietBeginFilling(c, s, now, n); QuietLedger(c, s, Step(c, s, op, n).state, n);
    case ChangeDelay(delay, now) => QuietChangeDelay(c, s, delay, now, n); QuietLedger(c, s, Step(c, s, op, n).state, n);
    case CommitDelayed(now, left) => QuietCommitDelayed(c, s, now, left, n); QuietLedger(c, s, Step(c, s, op, n).state, n);
    case Cancel(now) => QuietCancel(c, s, now, n); QuietLedger(c, s, Step(c, s, op, n).state, n);
    case Deactivate(now) => QuietDeactivate(c, s, now, n); QuietLedger(c, s, Step(c, s, op, n).state, n);
    case CommitReturn(now, left) => QuietCommitReturn(c, s, now, left, n); QuietLedger(c, s, Step(c, s, op, n).state, n);
    case FinishReturn(now) => QuietFinish(c, s, now, n); QuietLedger(c, s, Step(c, s, op, n).state, n);
    case ReportError => MovesToError(c, s, s, Reported, n);
    case Recover(now) => QuietRecover(c, s, now, n); QuietLedger(c, s, Step(c, s, op, n).state, n);
    case Push(p, now) => PushKeeps(c, s, p, now, n);
    case Poll(now) => PollKeeps(c, s, now, n);
    case PruneNow(now) => QuietPruneNow(c, s, now, n); QuietLedger(c, s, Step(c, s, op, n).state, n);
    case External(p) => QuietExternal(c, s, p, n); QuietLedger(c, s, Step(c, s, op, n).state, n);
  }

  lemma QuietPruneNow(c: Config, s: State, now: i64, bound: nat)
    requires c.Valid() && Ok(c, s, bound)
    ensures Quiet(c, s, if Regresses(s, now) then Observe(s, now) else Prune(c, Observe(s, now), now), bound)
  {
    hide Ok, Observe, Regresses, Prune;
    QuietClock(c, s, now, bound);
    QuietPrune(c, Observe(s, now), now, bound);
  }

  lemma QuietLedger(c: Config, s: State, r: State, bound: nat)
    requires Quiet(c, s, r, bound)
    ensures Ok(c, r, bound) && Ledger(Held(s), [], Held(r))
  {
    LedgerNone(Held(s), Held(r));
  }

  // ---------------------------------------------------------------------
  // Conservation over every run

  /** A state reached by a sequence of operations, with everything pushed and emitted on the way. */
  datatype Run = Run(state: State, next: nat, pushed: seq<Queued>, emitted: seq<Output>)

  ghost function Played(c: Config, before: Run, op: Op): Run {
    var r := Step(c, before.state, op, before.next);
    Run(r.state, NextSequence(op, before.next),
        if op.Push? then before.pushed + [NewItem(c, op.packet, op.now, before.next)] else before.pushed,
        before.emitted + r.out)
  }

  ghost function Play(c: Config, ops: seq<Op>): Run {
    if ops == [] then Run(Initial(c), 0, [], [])
    else Played(c, Play(c, ops[..|ops| - 1]), ops[|ops| - 1])
  }

  /** Each output and each buffered packet was pushed; nothing is emitted twice or emitted and kept. */
  ghost predicate Conserved(c: Config, r: Run) {
    && Ok(c, r.state, r.next)
    && |r.pushed| == r.next
    && (forall i :: 0 <= i < |r.pushed| ==> r.pushed[i].sequence == i)
    && (forall x :: x in Held(r.state) ==> x in r.pushed)
    && (forall i :: 0 <= i < |r.emitted| ==>
          r.emitted[i].sequence < |r.pushed| && Released(r.pushed[r.emitted[i].sequence], r.emitted[i])
          && Unheld(Held(r.state), r.emitted[i].sequence))
    && (forall i, j :: 0 <= i < j < |r.emitted| ==> r.emitted[i].sequence != r.emitted[j].sequence)
  }

  lemma ConservedStep(c: Config, r: Run, op: Op)
    requires c.Valid() && Conserved(c, r)
    ensures Conserved(c, Played(c, r, op))
  {
    hide Step, Ok;
    StepKeeps(c, r.state, op, r.next);
    var s := Played(c, r, op);
    var out := Step(c, r.state, op, r.next).out;
    var a := Sources(c, r.state, op, r.next);
    forall x | x in a ensures x in s.pushed {
    }
    forall i | 0 <= i < |s.emitted|
      ensures s.emitted[i].sequence < |s.pushed| && Released(s.pushed[s.emitted[i].sequence], s.emitted[i])
              && Unheld(Held(s.state), s.emitted[i].sequence)
    {
      if i < |r.emitted| {
        StillUnheld(c, r, op, i);
      } else {
        EmittedFrom(c, s.pushed, a, out[i - |r.emitted|]);
      }
    }
    forall i, j | 0 <= i < j < |s.emitted| ensures s.emitted[i].sequence != s.emitted[j].sequence {
      if i < |r.emitted| <= j {
        NotAgain(c, r, op, i, out[j - |r.emitted|]);
      }
    }
  }

  lemma EmittedFrom(c: Config, pushed: seq<Queued>, a: iset<Queued>, o: Output)
    requires forall i :: 0 <= i < |pushed| ==> pushed[i].sequence == i
    requires From(a, o) && forall x :: x in a ==> x in pushed
    ensures o.sequence < |pushed| && Released(pushed[o.sequence], o)
  {
    var x :| x in a && Released(x, o);
  }

  lemma NotAgain(c: Config, r: Run, op: Op, i: nat, o: Output)
    requires Conserved(c, r) && i < |r.emitted| && From(Sources(c, r.state, op, r.next), o)
    ensures o.sequence != r.emitted[i].sequence
  {
    var x :| x in Sources(c, r.state, op, r.next) && Released(x, o);
    if x in Held(r.state) {
      assert Unheld(Held(r.state), r.emitted[i].sequence);
    }
  }

  lemma StillUnheld(c: Config, r: Run, op: Op, i: nat)
    requires c.Valid() && Conserved(c, r) && i < |r.emitted| && StepKeepsAll(c, r.state, op, r.next)
    ensures Unheld(Held(Step(c, r.state, op, r.next).state), r.emitted[i].sequence)
  {
    hide Step, Ok;
    forall y | y in Held(Step(c, r.state, op, r.next).state) ensures y.sequence != r.emitted[i].sequence {
      assert y in Sources(c, r.state, op, r.next);
      assert Unheld(Held(r.state), r.emitted[i].sequence);
    }
  }

  /** Conservation in every reachable state. */
  lemma {:induction false} EveryRunConserves(c: Config, ops: seq<Op>)
    requires c.Valid()
    ensures Conserved(c, Play(c, ops))
  {
    if ops == [] {
      OkInitial(c);
    } else {
      EveryRunConserves(c, ops[..|ops| - 1]);
      ConservedStep(c, Play(c, ops[..|ops| - 1]), ops[|ops| - 1]);
    }
  }
}
