/** Output rises in DTS order, and so does the emission horizon. */
module PacketDelayOrder {
  // The emission horizon never moves back over any run of calls, and everything released while delayed is at or
  // above it.

  import opened Options
  import opened Timestamps
  import opened PacketTypes
  import opened PacketDelaySpec
  import opened PacketDelayStep
  import opened PacketDelayInvariant
  import opened PacketDelayKeep
  import opened PacketDelayRun
  import opened PacketDelayDecode
  import opened PacketDelayEpoch
  import opened PacketDelayReturn

  // ---------------------------------------------------------------------
  // The emission horizon

  predicate NotBefore(h: Option<Horizon>, g: Option<Horizon>) {
    h.Some? ==> g.Some? && Le(h.value.value, h.value.tb.den, g.value.value, g.value.tb.den)
  }

  function DtsOf(o: Output): Option<Horizon> {
    Some(Horizon(o.packet.dts, o.packet.tb))
  }

  /** Delayed outputs lie between the two horizons, in order. */
  ghost predicate Rises(before: Option<Horizon>, out: seq<Output>, after: Option<Horizon>) {
    && NotBefore(before, after)
    && (forall i :: 0 <= i < |out| && out[i].delayed ==>
          out[i].packet.tb.Valid() && NotBefore(before, DtsOf(out[i])) && NotBefore(DtsOf(out[i]), after))
    && (forall i, j :: 0 <= i < j < |out| && out[i].delayed && out[j].delayed ==> NotBefore(DtsOf(out[i]), DtsOf(out[j])))
  }

  predicate Positive(h: Option<Horizon>) {
    h.Some? ==> h.value.tb.den > 0
  }

  lemma NotBeforeTransitive(a: Option<Horizon>, b: Option<Horizon>, d: Option<Horizon>)
    requires Positive(a) && Positive(b) && Positive(d) && NotBefore(a, b) && NotBefore(b, d)
    ensures NotBefore(a, d)
  {
    if a.Some? {
      LeTransitive(a.value.value, a.value.tb.den, b.value.value, b.value.tb.den, d.value.value, d.value.tb.den);
    }
  }

  lemma RisesThen(a: Option<Horizon>, out1: seq<Output>, b: Option<Horizon>, out2: seq<Output>, d: Option<Horizon>)
    requires Positive(a) && Positive(b) && Positive(d) && Rises(a, out1, b) && Rises(b, out2, d)
    ensures Rises(a, out1 + out2, d)
  {
    hide NotBefore;
    var out := out1 + out2;
    NotBeforeTransitive(a, b, d);
    forall i | 0 <= i < |out| && out[i].delayed
      ensures out[i].packet.tb.Valid() && NotBefore(a, DtsOf(out[i])) && NotBefore(DtsOf(out[i]), d)
    {
      if i < |out1| {
        assert out[i] == out1[i];
        NotBeforeTransitive(DtsOf(out[i]), b, d);
      } else {
        assert out[i] == out2[i - |out1|];
        NotBeforeTransitive(a, b, DtsOf(out[i]));
      }
    }
    forall i, j | 0 <= i < j < |out| && out[i].delayed && out[j].delayed
      ensures NotBefore(DtsOf(out[i]), DtsOf(out[j]))
    {
      if j < |out1| {
        assert out[i] == out1[i] && out[j] == out1[j];
      } else if i >= |out1| {
        assert out[i] == out2[i - |out1|] && out[j] == out2[j - |out1|];
      } else {
        assert out[i] == out1[i] && out[j] == out2[j - |out1|];
        NotBeforeTransitive(DtsOf(out[i]), b, DtsOf(out[j]));
      }
    }
  }

  lemma RisesStill(a: Option<Horizon>)
    ensures Rises(a, [], a)
  {
  }

  lemma RisesLive(a: Option<Horizon>, o: Output, b: Option<Horizon>)
    requires NotBefore(a, b) && !o.delayed
    ensures Rises(a, [o], b)
  {
  }

  lemma NoteRises(s: State, p: Packet)
    requires Note(s, p).Some? && Positive(s.emitted)
    ensures p.tb.Valid() && NotBefore(s.emitted, Note(s, p).value.emitted)
    ensures Note(s, p).value.emitted == Some(Horizon(p.dts, p.tb))
  {
    if s.emitted.Some? {
      CmpFlip(p.dts, p.tb.den, s.emitted.value.value, s.emitted.value.tb.den);
    }
  }

  lemma NotBeforeSelf(h: Option<Horizon>)
    ensures NotBefore(h, h)
  {
  }

  ghost predicate StepRises(s: State, r: Drained) {
    Positive(r.state.emitted) && Rises(s.emitted, r.out, r.state.emitted)
  }

  lemma EmitRises(s: State, x: Queued, now: i64, delayed: bool, overflow: Fault, regress: Fault)
    requires Positive(s.emitted)
    ensures StepRises(s, Emit(s, x, now, delayed, overflow, regress))
  {
    hide EnterError, Note, Retimestamp, NotBefore;
    RisesStill(s.emitted);
    NotBeforeSelf(s.emitted);
    ErrorEmitted(s, overflow);
    ErrorEmitted(s, regress);
    if x.packet.stream in s.offsets {
      var shifted := Retimestamp(x.packet, s.offsets[x.packet.stream]);
      if shifted.Some? && Note(s, shifted.value).Some? {
        NoteRises(s, shifted.value);
        NotBeforeSelf(Note(s, shifted.value).value.emitted);
      }
    }
  }

  lemma PopEmitted(s: State, k: StreamKey)
    requires k in s.queues && s.queues[k] != []
    ensures PopFront(s, k).emitted == s.emitted && GateErases(s, k).emitted == s.emitted && GateErases(s, k).queues == s.queues
  {
  }

  lemma DrainLaneRises(c: Config, s: State, now: i64, k: StreamKey)
    requires Positive(s.emitted) && k in s.queues && s.queues[k] != [] && Ordering(s, s.queues[k][0].packet).Some?
    ensures StepRises(s, DrainLane(c, s, now, k))
  {
    hide GateStops, GateErases, PopFront, Watermark, Ordering, Emit, Rises, EnterError;
    RisesStill(s.emitted);
    PopEmitted(s, k);
    var s1 := GateErases(s, k);
    PopEmitted(s1, k);
    ErrorEmitted(s1, ReorderWindow);
    EmitRises(PopFront(s1, k), s.queues[k][0], now, true, RetimestampOverflow, LatePacket);
  }

  lemma DrainOnceRises(c: Config, s: State, now: i64)
    requires Positive(s.emitted)
    ensures StepRises(s, DrainOnce(c, s, now))
  {
    hide DrainLane, Precedes, Rises, EnterError;
    RisesStill(s.emitted);
    ErrorEmitted(s, InvalidQueuedTimeBase);
    if !(exists k :: k in s.active && Watching(c, s, now, k) && k !in s.latest) &&
       Ordered(s, now) && exists k :: k in s.queues && DueFront(s, now, k) {
      DrainLaneRises(c, s, now, NextLane(s, now));
    }
  }

  lemma {:induction false} DrainRises(c: Config, s: State, now: i64, fuel: nat)
    requires Positive(s.emitted)
    ensures StepRises(s, DrainUpTo(c, s, now, fuel))
    decreases fuel
  {
    hide DrainOnce, Rises;
    RisesStill(s.emitted);
    if fuel != 0 {
      DrainOnceRises(c, s, now);
      var one := DrainOnce(c, s, now);
      if one.out != [] {
        DrainRises(c, one.state, now, fuel - 1);
        var rest := DrainUpTo(c, one.state, now, fuel - 1);
        RisesThen(s.emitted, one.out, one.state.emitted, rest.out, rest.state.emitted);
      }
    }
  }

  lemma {:induction false} PendingRises(s: State, now: i64)
    requires Positive(s.emitted)
    ensures StepRises(s, DrainPending(s, now))
    decreases |s.pending|
  {
    hide Emit, Rises;
    RisesStill(s.emitted);
    if s.pending != [] {
      var s1 := s.(pending := s.pending[1..]);
      var one := Emit(s1, s.pending[0], now, false, ReturnRegression, ReturnRegression);
      EmitRises(s1, s.pending[0], now, false, ReturnRegression, ReturnRegression);
      EmitSame(s1, s.pending[0], now, false, ReturnRegression, ReturnRegression);
      if one.out != [] {
        PendingRises(one.state, now);
        var rest := DrainPending(one.state, now);
        RisesThen(s.emitted, one.out, one.state.emitted, rest.out, rest.state.emitted);
      }
    }
  }

  lemma EmitSame(s: State, x: Queued, now: i64, delayed: bool, overflow: Fault, regress: Fault)
    ensures var r := Emit(s, x, now, delayed, overflow, regress);
            r.out != [] ==> r.state.pending == s.pending
  {
    if x.packet.stream in s.offsets {
      var shifted := Retimestamp(x.packet, s.offsets[x.packet.stream]);
      if shifted.Some? && Note(s, shifted.value).Some? {
        NoteSame(s, shifted.value);
      }
    }
  }

  lemma LiveRises(c: Config, s: State, p: Packet)
    requires Positive(s.emitted)
    ensures var r := RetimestampLive(c, s, p).state; Positive(r.emitted) && NotBefore(s.emitted, r.emitted)
  {
    hide PrepareStream, NotBefore, LiveFrom, Positive;
    NotBeforeSelf(s.emitted);
    PrepareEmitted(c, s, p.stream);
    var prepared := PrepareStream(c, s, p.stream);
    if prepared.ok {
      LiveFromRises(prepared.state, p);
    }
  }

  lemma LiveFromRises(s: State, p: Packet)
    requires Positive(s.emitted)
    ensures var r := LiveFrom(s, p).state; Positive(r.emitted) && NotBefore(s.emitted, r.emitted)
  {
    hide EpochOffset, NotBefore, Note, Retimestamp;
    NotBeforeSelf(s.emitted);
    var offset := if p.stream in s.offsets then Some(s.offsets[p.stream]) else EpochOffset(s, p, 0);
    if offset.Some? {
      var s2 := s.(offsets := s.offsets[p.stream := offset.value]);
      assert s2.emitted == s.emitted;
      var shifted := Retimestamp(p, offset.value);
      if shifted.Some? && Note(s2, shifted.value).Some? {
        NoteRises(s2, shifted.value);
      }
    }
  }

  lemma PrepareEmitted(c: Config, s: State, stream: StreamKey)
    ensures PrepareStream(c, s, stream).state.emitted == s.emitted
  {
    hide HasOldGeneration, EnterError;
    ErrorEmitted(s, TooManyTimelines);
    ErrorEmitted(s.(known := s.known + {Timeline(stream)}), GenerationChanged);
  }

  lemma BypassRises(c: Config, s: State, p: Packet, now: i64, n: nat, fault: Fault)
    requires Positive(s.emitted)
    ensures StepRises(s, Bypassed(c, s, p, now, n, fault))
  {
    hide RetimestampLive, NotBefore;
    LiveRises(c, s, p);
    var r := Bypassed(c, s, p, now, n, fault);
    RisesLive(s.emitted, r.out[0], r.state.emitted);
  }

  lemma ObserveEmitted(s: State, now: i64)
    ensures Observe(s, now).emitted == s.emitted
  {
    if Regresses(s, now) {
    }
  }

  lemma PruneEmitted(c: Config, s: State, now: i64)
    ensures Prune(c, s, now).emitted == s.emitted
  {
    hide PruneQueue;
  }

  lemma AppendEmitted(c: Config, s: State, p: Packet, now: i64, n: nat, dts: Horizon)
    ensures Append(c, s, p, now, n, dts).emitted == s.emitted
  {
    hide NewItem, EpochActive;
  }

  lemma ErrorEmitted(s: State, fault: Fault)
    ensures EnterError(s, fault).emitted == s.emitted
  {
  }

  lemma PlaceEmitted(c: Config, s: State, p: Packet, now: i64, n: nat)
    ensures Place(c, s, p, now, n).state.emitted == s.emitted
  {
    hide EpochOffset, OverCapacity, Prune, Ordering, Append, EnterError, WithOffset;
    BasedEmitted(s, p);
    ErrorEmitted(s, NewStreamOffset);
    var based := WithOffset(s, p);
    if based.Some? {
      ErrorEmitted(based.value, OrderingOverflow);
      var dts := Ordering(based.value, p);
      if dts.Some? {
        PruneEmitted(c, based.value, now);
        var room := if s.mode == Returning then based.value else Prune(c, based.value, now);
        ErrorEmitted(room, Capacity);
        AppendEmitted(c, room, p, now, n, dts.value);
      }
    }
  }

  lemma BasedEmitted(s: State, p: Packet)
    ensures WithOffset(s, p).Some? ==> WithOffset(s, p).value.emitted == s.emitted
  {
    hide EpochOffset;
  }

  lemma EnqueueEmitted(c: Config, s: State, p: Packet, now: i64, n: nat)
    ensures Enqueue(c, s, p, now, n).state.emitted == s.emitted
  {
    hide PrepareStream, Place;
    PrepareEmitted(c, s, p.stream);
    var prepared := PrepareStream(c, s, p.stream);
    PlaceEmitted(c, prepared.state, p, now, n);
    if prepared.ok && !p.tb.Valid() {
    }
  }

  lemma PushRises(c: Config, s: State, p: Packet, now: i64, n: nat)
    requires Positive(s.emitted)
    ensures StepRises(s, DoPush(c, s, p, now, n))
  {
    hide PushBuffered, DrainPending, Bypassed, RetimestampLive, Observe, Rises, Regresses;
    ObserveEmitted(s, now);
    var s1 := Observe(s, now);
    LiveRises(c, s1, p);
    RisesLive(s.emitted, Output(RetimestampLive(c, s1, p).packet, now, now, n, false), RetimestampLive(c, s1, p).state.emitted);
    BypassRises(c, s1, p, now, n, FailOpenTimestamps);
    if s1.mode == Returning && s1.returnCommitted {
      PendingRises(s1, now);
      var drained := DrainPending(s1, now);
      BypassRises(c, drained.state, p, now, n, LiveTimestamps);
      var live := Bypassed(c, drained.state, p, now, n, LiveTimestamps);
      RisesThen(s1.emitted, drained.out, drained.state.emitted, live.out, live.state.emitted);
    } else {
      BufferedRises(c, s1, p, now, n);
    }
  }

  lemma DrainAndPruneRises(c: Config, s: State, now: i64)
    requires Positive(s.emitted)
    ensures StepRises(s, DrainAndPrune(c, s, now))
  {
    hide DrainUpTo, Prune, Rises;
    DrainRises(c, s, now, Packets(s) + 1);
    PruneEmitted(c, Drain(c, s, now).state, now);
  }

  lemma BufferedRises(c: Config, s: State, p: Packet, now: i64, n: nat)
    requires Positive(s.emitted)
    ensures StepRises(s, PushBuffered(c, s, p, now, n))
  {
    hide Enqueue, DrainUpTo, Prune, DrainAndPrune, Bypassed, Rises;
    var queued := Enqueue(c, s, p, now, n);
    EnqueueEmitted(c, s, p, now, n);
    RisesStill(s.emitted);
    if !queued.ok {
      BypassRises(c, queued.state, p, now, n, FailOpenTimestamps);
    } else if s.mode == Preparing {
      PruneEmitted(c, queued.state, now);
      var r := Prune(c, queued.state, now);
      DrainRises(c, r, now, Packets(r) + 1);
    } else if s.mode == Filling {
      PruneEmitted(c, queued.state, now);
    } else if s.mode == Delayed {
      DrainAndPruneRises(c, queued.state, now);
    } else {
      var observed := ObserveReturnKey(c, queued.state, NewItem(c, p, now, n));
      assert observed.emitted == queued.state.emitted;
      DrainRises(c, observed, now, Packets(observed) + 1);
    }
  }

  lemma PollRises(c: Config, s: State, now: i64)
    requires Positive(s.emitted)
    ensures StepRises(s, DoPoll(c, s, now))
  {
    hide DrainUpTo, DrainAndPrune, DrainPending, Prune, Observe, Regresses, Rises;
    ObserveEmitted(s, now);
    RisesStill(s.emitted);
    var s1 := Observe(s, now);
    PruneEmitted(c, s1, now);
    if s1.mode == Delayed {
      DrainAndPruneRises(c, s1, now);
    } else if s1.mode == Returning && s1.returnCommitted {
      PendingRises(s1, now);
    } else {
      DrainRises(c, s1, now, Packets(s1) + 1);
    }
  }

  lemma ControlRises(c: Config, s: State, op: Op, n: nat)
    requires Positive(s.emitted) && !op.Push? && !op.Poll?
    ensures StepRises(s, Step(c, s, op, n))
  {
    hide Observe, Regresses, Retarget, ApplyPlan, UnifiedOffsets, PlanReady, ReturnReady, Prune, Note, NotBefore,
         DoBeginFilling, DoChangeDelay, DoCommitDelayed, DoCancel, DoCommitReturn, DoExternal;
    NotBeforeSelf(s.emitted);
    match op
    case Activate(delay, now) => ObserveEmitted(s, now);
    case BeginFilling(now) => ObserveEmitted(s, now); BeginEmitted(s, now);
    case ChangeDelay(delay, now) => ObserveEmitted(s, now); ChangeEmitted(c, s, delay, now);
    case CommitDelayed(now, left) => ObserveEmitted(s, now); CommitEmitted(c, s, now, left);
    case Cancel(now) => ObserveEmitted(s, now); CancelEmitted(c, s, now);
    case Deactivate(now) => ObserveEmitted(s, now);
    case CommitReturn(now, left) => ObserveEmitted(s, now); ReturnEmitted(c, s, now, left);
    case FinishReturn(now) => ObserveEmitted(s, now);
    case ReportError =>
    case Recover(now) => ObserveEmitted(s, now);
    case PruneNow(now) => ObserveEmitted(s, now); PruneEmitted(c, Observe(s, now), now);
    case External(p) => ExternalRises(c, s, p);
  }

  lemma BeginEmitted(s: State, now: i64)
    ensures DoBeginFilling(s, now).emitted == s.emitted
  {
    hide Observe, Regresses;
    ObserveEmitted(s, now);
    var s1 := Observe(s, now);
    if s1.mode == Preparing && s1.preparingChange {
    }
  }

  lemma RetargetEmitted(s: State, delay: nat)
    ensures Retarget(s, delay).emitted == s.emitted
  {
    if s.mode == Preparing {
    } else if s.mode == Filling {
    } else if s.mode == Delayed {
    } else {
      assert Retarget(s, delay) == s;
    }
  }

  lemma ChangeEmitted(c: Config, s: State, delay: int, now: i64)
    ensures DoChangeDelay(c, s, delay, now).emitted == s.emitted
  {
    hide Observe, Regresses, Retarget;
    ObserveEmitted(s, now);
    if ValidDelay(c, delay) {
      RetargetEmitted(Observe(s, now), delay);
    }
  }

  lemma CommitEmitted(c: Config, s: State, now: i64, left: map<StreamKey, i64>)
    ensures DoCommitDelayed(c, s, now, left).emitted == s.emitted
  {
    hide Observe, Regresses, PlanReady, BeginEpoch, ApplyPlan, EnterError;
    ObserveEmitted(s, now);
    var cut := ApplyPlan(c, Observe(s, now), now);
    PlanKeeps(c, Observe(s, now), now);
    ErrorEmitted(cut.(offsets := left), DelayedEpoch);
    if BeginEpoch(cut).Some? {
      EpochKeeps(cut);
    }
  }

  lemma CancelEmitted(c: Config, s: State, now: i64)
    ensures DoCancel(c, s, now).emitted == s.emitted
  {
    hide Observe, Regresses;
    ObserveEmitted(s, now);
    var s1 := Observe(s, now);
    if s1.mode == Preparing && s1.preparingChange {
    } else if s1.mode == Filling && s1.originDelayed {
    }
  }

  lemma ReturnEmitted(c: Config, s: State, now: i64, left: map<StreamKey, i64>)
    ensures DoCommitReturn(c, s, now, left).emitted == s.emitted
  {
    hide Observe, Regresses, ReturnReady, UnifiedOffsets, KeptQueues, LiveCut, Merge, AllOrdered;
    ObserveEmitted(s, now);
    var s1 := Observe(s, now);
    if BuildPending(c, s1).Some? {
      assert BuildPending(c, s1).value.emitted == s1.emitted;
    }
  }

  lemma ExternalRises(c: Config, s: State, p: Packet)
    requires Positive(s.emitted)
    ensures var r := DoExternal(c, s, p); Positive(r.emitted) && NotBefore(s.emitted, r.emitted)
  {
    hide Note, NotBefore;
    NotBeforeSelf(s.emitted);
    var lane := Timeline(p.stream);
    if !(lane !in s.known && |s.known| >= c.maxStreams) {
      var s1 := s.(known := s.known + {lane});
      if Note(s1, p).Some? {
        NoteRises(s1, p);
      }
    }
  }

  lemma StepRisesAlways(c: Config, s: State, op: Op, n: nat)
    requires Positive(s.emitted)
    ensures StepRises(s, Step(c, s, op, n))
  {
    hide DoPush, DoPoll, Rises;
    if op.Push? {
      PushRises(c, s, op.packet, op.now, n);
    } else if op.Poll? {
      PollRises(c, s, op.now);
    } else {
      ControlRises(c, s, op, n);
    }
  }

  /** Over every run the emission horizon only rises and the delayed output is in DTS order. */
  lemma {:induction false} EveryRunRises(c: Config, ops: seq<Op>)
    ensures Positive(Play(c, ops).state.emitted)
    ensures Rises(None, Play(c, ops).emitted, Play(c, ops).state.emitted)
  {
    hide Step, Rises;
    if ops == [] {
      RisesStill(None);
    } else {
      EveryRunRises(c, ops[..|ops| - 1]);
      var before := Play(c, ops[..|ops| - 1]);
      var op := ops[|ops| - 1];
      StepRisesAlways(c, before.state, op, before.next);
      var r := Step(c, before.state, op, before.next);
      RisesThen(None, before.emitted, before.state.emitted, r.out, r.state.emitted);
    }
  }

  /** Later states of a run are never behind earlier ones. */
  lemma {:induction false} HorizonNeverBack(c: Config, ops: seq<Op>, more: seq<Op>)
    ensures NotBefore(Play(c, ops).state.emitted, Play(c, ops + more).state.emitted)
    decreases |more|
  {
    hide Step, Rises;
    if more == [] {
      assert ops + more == ops;
      NotBeforeSelf(Play(c, ops).state.emitted);
    } else {
      var all, init := ops + more, more[..|more| - 1];
      assert all[..|all| - 1] == ops + init && all[|all| - 1] == more[|more| - 1];
      HorizonNeverBack(c, ops, init);
      EveryRunRises(c, ops);
      EveryRunRises(c, ops + init);
      var before := Play(c, ops + init);
      StepRisesAlways(c, before.state, all[|all| - 1], before.next);
      assert NotBefore(before.state.emitted, Play(c, all).state.emitted) by {
        RisesMeans(before.state.emitted, Step(c, before.state, all[|all| - 1], before.next).out, Play(c, all).state.emitted);
      }
      NotBeforeTransitive(Play(c, ops).state.emitted, before.state.emitted, Play(c, all).state.emitted);
    }
  }

  lemma RisesMeans(a: Option<Horizon>, out: seq<Output>, b: Option<Horizon>)
    requires Rises(a, out, b)
    ensures NotBefore(a, b)
  {
  }
}
