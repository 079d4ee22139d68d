/** Delayed output is delayed by what was asked for. */
module PacketDelayAge {
  // Every packet handed out as delayed is as old as the delay that was last committed; nothing is handed out as
  // delayed before a first commit. The delay is followed through the requests and their answers alone.

  import opened Options
  import opened Timestamps
  import opened PacketTypes
  import opened PacketDelaySpec
  import opened PacketDelayStep
  import opened PacketDelayInvariant
  import opened PacketDelayKeep
  import opened PacketDelayRun
  import opened PacketDelayDecode
  import opened PacketDelayReturn
  import opened PacketDelayResults

  // ---------------------------------------------------------------------
  // One drain

  /** Handed out as delayed now, and at least so old. */
  predicate AgedOutput(o: Output, now: i64, age: int) {
    o.delayed && o.releasedAt == now && now as int - o.receivedAt as int >= age
  }

  predicate Aged(out: seq<Output>, now: i64, age: int) {
    forall i :: 0 <= i < |out| ==> AgedOutput(out[i], now, age)
  }

  lemma EmitAged(s: State, x: Queued, now: i64, age: int)
    requires now as int - x.receivedAt as int >= age
    ensures Aged(Emit(s, x, now, true, RetimestampOverflow, LatePacket).out, now, age)
  {
    hide Note, EnterError;
  }

  lemma DueAge(now: i64, receivedAt: i64, age: nat)
    requires Due(now, receivedAt, age)
    ensures now as int - receivedAt as int >= age
  {
  }

  lemma DrainOnceAged(c: Config, s: State, now: i64)
    ensures Aged(DrainOnce(c, s, now).out, now, s.target)
  {
    hide GateStops, GateErases, Watermark, Ordering, Emit, EnterError, Precedes, PopFront, Due;
    if !(exists k :: k in s.active && Watching(c, s, now, k) && k !in s.latest) &&
       Ordered(s, now) && exists k :: k in s.queues && DueFront(s, now, k) {
      var k := NextLane(s, now);
      DueAge(now, s.queues[k][0].receivedAt, s.target);
      ErasedMode(s, k);
      EmitAged(PopFront(GateErases(s, k), k), s.queues[k][0], now, s.target);
    }
  }

  lemma {:induction false} DrainAged(c: Config, s: State, now: i64, fuel: nat)
    ensures Aged(DrainUpTo(c, s, now, fuel).out, now, s.target)
    decreases fuel
  {
    hide DrainOnce, AgedOutput;
    if fuel != 0 {
      DrainOnceAged(c, s, now);
      DrainOnceMode(c, s, now);
      var one := DrainOnce(c, s, now);
      if one.out != [] {
        DrainAged(c, one.state, now, fuel - 1);
      }
    }
  }

  lemma AgedDrain(c: Config, s: State, now: i64)
    ensures Aged(Drain(c, s, now).out, now, s.target)
  {
    hide DrainUpTo, Aged;
    DrainAged(c, s, now, Packets(s) + 1);
  }

  // ---------------------------------------------------------------------
  // One call

  /** The delayed branch hands out packets. */
  predicate Flowing(s: State) {
    || s.mode == Delayed || (s.mode == Preparing && s.preparingChange)
    || (s.mode == Returning && !s.returnCommitted && s.returnFromDelayed)
  }

  predicate Timely(s: State, out: seq<Output>, now: i64) {
    forall i :: 0 <= i < |out| && out[i].delayed ==> Flowing(s) && AgedOutput(out[i], now, s.target)
  }

  lemma AgedTimely(s: State, out: seq<Output>, now: i64)
    requires Flowing(s) && Aged(out, now, s.target)
    ensures Timely(s, out, now)
  {
    hide Flowing, AgedOutput;
  }

  lemma LiveTimely(s: State, out: seq<Output>, now: i64)
    requires forall i :: 0 <= i < |out| ==> !out[i].delayed
    ensures Timely(s, out, now)
  {
  }

  lemma EnqueueCourse(c: Config, s: State, p: Packet, now: i64, n: nat)
    ensures var r := Enqueue(c, s, p, now, n); if r.ok then SameReturn(s, r.state) else r.state.mode == Failed
  {
    hide PrepareStream, Place, EnterError;
    PrepareReturn(c, s, p.stream);
    var prepared := PrepareStream(c, s, p.stream);
    Failing(prepared.state, InvalidTimeBase);
    PlaceCourse(c, prepared.state, p, now, n);
  }

  lemma PlaceCourse(c: Config, s: State, p: Packet, now: i64, n: nat)
    ensures var r := Place(c, s, p, now, n); if r.ok then SameReturn(s, r.state) else r.state.mode == Failed
  {
    hide EpochOffset, OverCapacity, Prune, Ordering, Append, EnterError, WithOffset, SameReturn;
    Failing(s, NewStreamOffset);
    OffsetCourse(s, p);
    var based := WithOffset(s, p);
    if based.Some? {
      Failing(based.value, OrderingOverflow);
      var dts := Ordering(based.value, p);
      if dts.Some? {
        PruneReturn(c, based.value, now);
        var room := if s.mode == Returning then based.value else Prune(c, based.value, now);
        Failing(room, Capacity);
        AppendCourse(c, room, p, now, n, dts.value);
        var placed := Append(c, room, p, now, n, dts.value);
        SameMode(s, based.value);
        if s.mode != Returning {
          CourseThen(s, based.value, room);
        }
        CourseThen(s, room, placed);
      }
    }
  }

  lemma SameMode(s: State, r: State)
    requires SameReturn(s, r)
    ensures r.mode == s.mode
  {
  }

  lemma CourseThen(a: State, b: State, c: State)
    requires SameReturn(a, b) && SameReturn(b, c)
    ensures SameReturn(a, c)
  {
  }

  lemma OffsetCourse(s: State, p: Packet)
    ensures WithOffset(s, p).Some? ==> SameReturn(s, WithOffset(s, p).value)
  {
    hide EpochOffset, EpochActive;
    if !(!EpochActive(s) || p.stream in s.offsets) && EpochOffset(s, p, s.target).Some? {
      OffsetsCourse(s, s.offsets[p.stream := EpochOffset(s, p, s.target).value]);
    } else {
      OffsetsCourse(s, s.offsets);
    }
  }

  lemma OffsetsCourse(s: State, offsets: map<StreamKey, i64>)
    ensures SameReturn(s, s.(offsets := offsets)) && SameReturn(s, s)
  {
  }

  lemma AppendCourse(c: Config, s: State, p: Packet, now: i64, n: nat, dts: Horizon)
    ensures SameReturn(s, Append(c, s, p, now, n, dts))
  {
    hide NewItem, EpochActive;
  }

  lemma ObservedCourse(c: Config, s: State, item: Queued)
    ensures SameReturn(s, ObserveReturnKey(c, s, item))
  {
  }

  lemma BypassedLive(c: Config, s: State, p: Packet, now: i64, n: nat, fault: Fault)
    ensures var r := Bypassed(c, s, p, now, n, fault); r.out == [Output(RetimestampLive(c, s, p).packet, now, now, n, false)]
  {
    hide RetimestampLive, EnterError;
  }

  lemma SameFlowing(s: State, r: State)
    requires SameReturn(s, r)
    ensures Flowing(r) == Flowing(s) && r.target == s.target
  {
  }

  /** A packet that is buffered: what drains at the same time is old enough. */
  lemma BufferedTimely(c: Config, s: State, p: Packet, now: i64, n: nat)
    requires s.mode == Filling || s.mode == Delayed || s.mode == Returning || (s.mode == Preparing && s.preparingChange)
    requires s.mode == Returning ==> !s.returnCommitted
    ensures Timely(s, PushBuffered(c, s, p, now, n).out, now)
  {
    hide Enqueue, Drain, Prune, Bypassed, RetimestampLive, ObserveReturnKey, SameReturn, Timely, Aged;
    var queued := Enqueue(c, s, p, now, n);
    EnqueueCourse(c, s, p, now, n);
    if !queued.ok {
      BypassedLive(c, queued.state, p, now, n, FailOpenTimestamps);
      LiveTimely(s, PushBuffered(c, s, p, now, n).out, now);
    } else {
      SameFlowing(s, queued.state);
      SameModes(s, queued.state);
      if s.mode == Preparing {
        PruneReturn(c, queued.state, now);
        SameFlowing(queued.state, Prune(c, queued.state, now));
        AgedDrain(c, Prune(c, queued.state, now), now);
        AgedTimely(s, Drain(c, Prune(c, queued.state, now), now).out, now);
      } else if s.mode == Filling {
        LiveTimely(s, [], now);
      } else if s.mode == Delayed {
        AgedDrain(c, queued.state, now);
        AgedTimely(s, Drain(c, queued.state, now).out, now);
      } else {
        var observed := ObserveReturnKey(c, queued.state, NewItem(c, p, now, n));
        ObservedCourse(c, queued.state, NewItem(c, p, now, n));
        SameFlowing(queued.state, observed);
        AgedDrain(c, observed, now);
        if s.returnFromDelayed {
          AgedTimely(s, Drain(c, observed, now).out, now);
        } else {
          LiveTimely(s, [], now);
        }
      }
    }
  }

  lemma SameModes(s: State, r: State)
    requires SameReturn(s, r)
    ensures r.mode == s.mode && r.returnFromDelayed == s.returnFromDelayed && r.preparingChange == s.preparingChange
  {
  }

  lemma ObservedClock(s: State, now: i64)
    requires !Regresses(s, now)
    ensures var r := Observe(s, now);
            && r.mode == s.mode && r.returnCommitted == s.returnCommitted && Flowing(r) == Flowing(s) && r.target == s.target
            && r.preparingChange == s.preparingChange && r.returnFromDelayed == s.returnFromDelayed
  {
  }

  lemma TimelyFrom(s: State, r: State, out: seq<Output>, now: i64)
    requires Timely(r, out, now) && Flowing(r) == Flowing(s) && r.target == s.target
    ensures Timely(s, out, now)
  {
    hide Flowing, AgedOutput;
  }

  lemma PushTimely(c: Config, s: State, p: Packet, now: i64, n: nat)
    requires c.Valid() && Ok(c, s, n)
    ensures Timely(s, DoPush(c, s, p, now, n).out, now)
  {
    hide PushBuffered, DrainPending, Bypassed, RetimestampLive, Observe, Ok, Regresses, Timely;
    var s1 := Observe(s, now);
    if Regresses(s, now) {
      LiveTimely(s, DoPush(c, s, p, now, n).out, now);
    } else {
      ObservedClock(s, now);
      if PassesLive(s1) {
        BypassedLive(c, s1, p, now, n, FailOpenTimestamps);
        LiveTimely(s, DoPush(c, s, p, now, n).out, now);
      } else if s1.mode == Returning && s1.returnCommitted {
        OkClock(c, s, now, n);
        PendingUndelayed(c, s1, now, n);
        var drained := DrainPending(s1, now);
        BypassedLive(c, drained.state, p, now, n, LiveTimestamps);
        LiveTimely(s, PushCommitted(c, s1, p, now, n).out, now);
      } else {
        BufferedTimely(c, s1, p, now, n);
        TimelyFrom(s, s1, DoPush(c, s, p, now, n).out, now);
      }
    }
  }

  lemma PendingUndelayed(c: Config, s: State, now: i64, n: nat)
    requires c.Valid() && Ok(c, s, n)
    ensures forall i :: 0 <= i < |DrainPending(s, now).out| ==> !DrainPending(s, now).out[i].delayed
  {
    hide DrainPending, Ok, Ledger;
    OkDrainPending(c, s, now, n);
  }

  lemma PollTimely(c: Config, s: State, now: i64, n: nat)
    requires c.Valid() && Ok(c, s, n)
    ensures Timely(s, DoPoll(c, s, now).out, now)
  {
    hide Drain, Prune, Observe, Ok, Regresses, Timely, DrainPending, Aged;
    if Regresses(s, now) {
      LiveTimely(s, [], now);
    } else {
      var s1 := Observe(s, now);
      ObservedClock(s, now);
      OkClock(c, s, now, n);
      AgedDrain(c, s1, now);
      PendingUndelayed(c, s1, now, n);
      if Flowing(s1) {
        AgedTimely(s1, Drain(c, s1, now).out, now);
        TimelyFrom(s, s1, Drain(c, s1, now).out, now);
      }
      LiveTimely(s, DrainPending(s1, now).out, now);
      LiveTimely(s, [], now);
    }
  }

  /** Whatever the call, what it hands out as delayed comes from a delay under way and is as old as its target. */
  lemma StepTimely(c: Config, s: State, op: Op, n: nat)
    requires c.Valid() && Ok(c, s, n)
    ensures (op.Push? || op.Poll?) ==> Timely(s, Step(c, s, op, n).out, op.now)
    ensures !(op.Push? || op.Poll?) ==> Step(c, s, op, n).out == []
  {
    hide DoPush, DoPoll, Ok, Timely;
    match op
    case Push(p, now) => PushTimely(c, s, p, now, n);
    case Poll(now) => PollTimely(c, s, now, n);
    case _ =>
  }

  // ---------------------------------------------------------------------
  // The delay asked for, followed through requests and answers

  /** The delay asked for and not withdrawn, and the one that the delayed branch runs or resumes with. */
  datatype Delays = Delays(asked: nat, running: Option<nat>)

  /** An activation starts anew; a commit puts the delay asked for in force; a cancelled change is withdrawn; turning
      the delay off during the fill of a change goes on with the delay it was to change to. */
  function Follow(d: Delays, op: Op, from: Mode, to: Mode): Delays {
    match op
    case Activate(delay, _) => if delay < 0 then d else Delays(delay, None)
    case ChangeDelay(delay, _) =>
      if delay < 0 then d else if from == Bypass then Delays(delay, None) else d.(asked := delay)
    case CommitDelayed(_, _) => d.(running := Some(d.asked))
    case Cancel(_) => if to == Delayed && d.running.Some? then d.(asked := d.running.value) else d
    case Deactivate(_) => if from == Filling && d.running.Some? then d.(running := Some(d.asked)) else d
    case _ => d
  }

  ghost function Followed(c: Config, ops: seq<Op>): Delays {
    if ops == [] then Delays(0, None)
    else
      var before, op := Play(c, ops[..|ops| - 1]), ops[|ops| - 1];
      var d := Followed(c, ops[..|ops| - 1]);
      if Request(op) && Result(c, before.state, op) == Accepted then Follow(d, op, before.state.mode, Play(c, ops).state.mode)
      else d
  }

  /** The state's targets are those delays. */
  predicate Tied(s: State, d: Delays) {
    match s.mode
    case Preparing =>
      && s.pendingTarget == d.asked && (if s.preparingChange then d.running == Some(s.target) else d.running == None)
      && (if s.preparingChange then s.previousTarget == s.target else s.target == d.asked)
    case Filling =>
      s.target == d.asked && (if s.originDelayed then d.running == Some(s.previousTarget) else d.running == None)
    case Delayed => s.target == d.asked && d.running == Some(d.asked)
    case Returning =>
      !s.returnCommitted ==> (s.returnFromDelayed <==> d.running.Some?) && (d.running.Some? ==> d.running.value == s.target)
    case _ => true
  }

  /** What the targets are tied by has not changed, or the engine has failed. */
  predicate StaysCourse(s: State, r: State) {
    || r.mode == Failed
    || (s.mode == r.mode == Returning && s.returnCommitted && r.returnCommitted)
    || (r.mode == s.mode && r.returnCommitted == s.returnCommitted && r.returnFromDelayed == s.returnFromDelayed
        && r.target == s.target && r.pendingTarget == s.pendingTarget && r.previousTarget == s.previousTarget
        && r.preparingChange == s.preparingChange && r.originDelayed == s.originDelayed)
  }

  lemma StaysTied(s: State, r: State, d: Delays)
    requires StaysCourse(s, r) && Tied(s, d)
    ensures Tied(r, d)
  {
  }

  lemma SameCourse(s: State, r: State)
    requires SameReturn(s, r) || r.mode == Failed
    ensures StaysCourse(s, r)
  {
  }

  lemma StaysThen(a: State, b: State, c: State)
    requires StaysCourse(a, b) && StaysCourse(b, c) && (b.mode == Failed ==> c.mode == Failed)
    ensures StaysCourse(a, c)
  {
  }

  lemma ClockCourse(s: State, now: i64)
    ensures StaysCourse(s, Observe(s, now)) && (s.mode == Failed ==> Observe(s, now).mode == Failed)
  {
  }

  lemma LiveCourse(c: Config, s: State, p: Packet, now: i64, n: nat, fault: Fault)
    ensures StaysCourse(s, RetimestampLive(c, s, p).state) && StaysCourse(s, Bypassed(c, s, p, now, n, fault).state)
    ensures s.mode == Failed ==> RetimestampLive(c, s, p).state.mode == Failed && Bypassed(c, s, p, now, n, fault).state.mode == Failed
  {
    hide RetimestampLive, SameReturn;
    LiveMode(c, s, p);
    var r := RetimestampLive(c, s, p);
    SameCourse(s, r.state);
    SameModeOr(s, r.state);
    Failing(r.state, fault);
  }

  lemma SameModeOr(s: State, r: State)
    requires SameReturn(s, r) || r.mode == Failed
    ensures s.mode == Failed ==> r.mode == Failed
  {
  }

  lemma DrainCourse(c: Config, s: State, now: i64)
    ensures StaysCourse(s, Drain(c, s, now).state) && StaysCourse(s, DrainAndPrune(c, s, now).state)
    ensures s.mode == Failed ==> Drain(c, s, now).state.mode == Failed
  {
    hide DrainUpTo, Prune, SameReturn;
    DrainMode(c, s, now, Packets(s) + 1);
    var r := Drain(c, s, now).state;
    SameCourse(s, r);
    SameModeOr(s, r);
    PruneReturn(c, r, now);
    SameCourse(r, Prune(c, r, now));
    SameMode(r, Prune(c, r, now));
    StaysThen(s, r, Prune(c, r, now));
  }

  lemma BufferedCourse(c: Config, s: State, p: Packet, now: i64, n: nat)
    ensures StaysCourse(s, PushBuffered(c, s, p, now, n).state)
  {
    hide Enqueue, Drain, DrainAndPrune, Prune, Bypassed, RetimestampLive, ObserveReturnKey, SameReturn, StaysCourse;
    var queued := Enqueue(c, s, p, now, n);
    EnqueueCourse(c, s, p, now, n);
    SameCourse(s, queued.state);
    var q := queued.state;
    LiveCourse(c, q, p, now, n, FailOpenTimestamps);
    PruneReturn(c, q, now);
    SameCourse(q, Prune(c, q, now));
    SameMode(q, Prune(c, q, now));
    DrainCourse(c, q, now);
    DrainCourse(c, Prune(c, q, now), now);
    var observed := ObserveReturnKey(c, q, NewItem(c, p, now, n));
    ObservedCourse(c, q, NewItem(c, p, now, n));
    SameCourse(q, observed);
    SameMode(q, observed);
    DrainCourse(c, observed, now);
    if !queued.ok {
      StaysThen(s, q, Bypassed(c, q, p, now, n, FailOpenTimestamps).state);
    } else if s.mode == Preparing || s.mode == Filling {
      SameMode(s, q);
      StaysThen(s, q, Prune(c, q, now));
      StaysThen(s, Prune(c, q, now), Drain(c, Prune(c, q, now), now).state);
    } else if s.mode == Delayed {
      SameMode(s, q);
      StaysThen(s, q, DrainAndPrune(c, q, now).state);
    } else {
      SameMode(s, q);
      if s.mode != Failed {
        StaysThen(s, q, observed);
        StaysThen(s, observed, Drain(c, observed, now).state);
      } else {
        FailedCourse(s, observed);
        FailedCourse(s, Drain(c, observed, now).state);
      }
    }
  }

  lemma FailedCourse(s: State, r: State)
    requires r.mode == Failed
    ensures StaysCourse(s, r)
  {
  }

  lemma PendingCourse(s: State, now: i64)
    requires s.mode == Returning && s.returnCommitted
    ensures StaysCourse(s, DrainPending(s, now).state)
  {
    hide DrainPending;
    PendingMode(s, now);
  }

  lemma PushCourse(c: Config, s: State, p: Packet, now: i64, n: nat)
    ensures StaysCourse(s, DoPush(c, s, p, now, n).state)
  {
    hide PushBuffered, DrainPending, Bypassed, RetimestampLive, Observe, Regresses, StaysCourse;
    var s1 := Observe(s, now);
    ClockCourse(s, now);
    ClockMode(s, now);
    LiveCourse(c, s1, p, now, n, FailOpenTimestamps);
    if Regresses(s, now) {
      StaysThen(s, s1, RetimestampLive(c, s1, p).state);
    } else if PassesLive(s1) {
      StaysThen(s, s1, Bypassed(c, s1, p, now, n, FailOpenTimestamps).state);
    } else if s1.mode == Returning && s1.returnCommitted {
      PendingCourse(s1, now);
      var drained := DrainPending(s1, now);
      LiveCourse(c, drained.state, p, now, n, LiveTimestamps);
      StaysThen(s1, drained.state, PushCommitted(c, s1, p, now, n).state);
      StaysThen(s, s1, PushCommitted(c, s1, p, now, n).state);
    } else {
      BufferedCourse(c, s1, p, now, n);
      StaysThen(s, s1, PushBuffered(c, s1, p, now, n).state);
    }
  }

  lemma ClockMode(s: State, now: i64)
    ensures Regresses(s, now) ==> Observe(s, now).mode == Failed
    ensures !Regresses(s, now) ==> Observe(s, now).mode == s.mode
  {
  }

  lemma PollCourse(c: Config, s: State, now: i64)
    ensures StaysCourse(s, DoPoll(c, s, now).state)
  {
    hide Drain, DrainAndPrune, DrainPending, Prune, Observe, Regresses, StaysCourse, SameReturn;
    var s1 := Observe(s, now);
    ClockCourse(s, now);
    ClockMode(s, now);
    if !Regresses(s, now) && s1.mode != Failed {
      DrainCourse(c, s1, now);
      PruneReturn(c, s1, now);
      SameCourse(s1, Prune(c, s1, now));
      StaysThen(s, s1, Drain(c, s1, now).state);
      StaysThen(s, s1, DrainAndPrune(c, s1, now).state);
      StaysThen(s, s1, Prune(c, s1, now));
      if s1.mode == Returning && s1.returnCommitted {
        PendingCourse(s1, now);
        StaysThen(s, s1, DrainPending(s1, now).state);
      }
    }
  }

  lemma ExternalCourse(c: Config, s: State, p: Packet)
    ensures StaysCourse(s, DoExternal(c, s, p))
  {
    hide EnterError;
    Failing(s, TooManyTimelines);
    Failing(s.(known := s.known + {Timeline(p.stream)}), ExternalOutput);
  }

  /** Only accepted requests change course. */
  lemma OtherCourse(c: Config, s: State, op: Op, n: nat)
    requires !(Request(op) && Result(c, s, op) == Accepted)
    ensures StaysCourse(s, Step(c, s, op, n).state)
  {
    hide DoPush, DoPoll, DoExternal, Result, Prune, Observe, Regresses, StaysCourse, EnterError, SameReturn,
         DoActivate, DoBeginFilling, DoChangeDelay, DoCommitDelayed, DoCancel, DoDeactivate, DoCommitReturn, DoFinishReturn, DoRecover;
    if Request(op) {
      RefusedOnlyTellsTime(c, s, op, n);
      ClockCourse(s, op.now);
      FailedOr(s, Step(c, s, op, n).state);
    } else {
      match op {
        case Push(p, now) => PushCourse(c, s, p, now, n);
        case Poll(now) => PollCourse(c, s, now);
        case PruneNow(now) =>
          ClockCourse(s, now);
          ClockMode(s, now);
          PruneReturn(c, Observe(s, now), now);
          SameCourse(Observe(s, now), Prune(c, Observe(s, now), now));
          SameMode(Observe(s, now), Prune(c, Observe(s, now), now));
          StaysThen(s, Observe(s, now), Prune(c, Observe(s, now), now));
        case External(p) => ExternalCourse(c, s, p);
        case ReportError =>
          Failing(s, Reported);
          FailedOr(s, EnterError(s, Reported));
      }
    }
  }

  lemma FailedOr(s: State, r: State)
    ensures r.mode == Failed ==> StaysCourse(s, r)
  {
  }

  // ---------------------------------------------------------------------
  // Accepted requests

  lemma RetargetTied(s: State, delay: nat, d: Delays)
    requires ModesOk(s) && Tied(s, d) && delay != ReportedTarget(s)
    requires s.mode == Preparing || s.mode == Filling || s.mode == Delayed
    ensures Tied(Retarget(s, delay), d.(asked := delay))
  {
  }

  lemma ChangeTied(c: Config, s: State, delay: int, now: i64, d: Delays)
    requires ModesOk(s) && Tied(s, d) && ChangeResult(c, s, delay, now) == Accepted
    ensures Tied(DoChangeDelay(c, s, delay, now), if s.mode == Bypass then Delays(delay, None) else d.(asked := delay))
  {
    hide Retarget, ModesOk;
    var r := s.(lastObserved := Some(now));
    assert Observe(s, now) == r;
    if s.mode != Bypass {
      assert ModesOk(r) by { ClockModes(s, now); }
      RetargetTied(r, delay, d);
    }
  }

  lemma ClockModes(s: State, now: i64)
    requires ModesOk(s)
    ensures ModesOk(s.(lastObserved := Some(now)))
  {
  }

  lemma CommitTied(c: Config, s: State, now: i64, left: map<StreamKey, i64>, d: Delays)
    requires Tied(s, d) && CommitDelayedResult(c, s, now) == Accepted
    ensures Tied(DoCommitDelayed(c, s, now, left), d.(running := Some(d.asked)))
  {
    hide PlanReady, ApplyPlan, BeginEpoch;
    var r := Observe(s, now);
    PlanTarget(c, r, now);
    EpochTarget(ApplyPlan(c, r, now));
  }

  lemma PlanTarget(c: Config, s: State, now: i64)
    ensures ApplyPlan(c, s, now).target == s.target
  {
    hide LaneStart;
  }

  lemma EpochTarget(s: State)
    ensures BeginEpoch(s).Some? ==> BeginEpoch(s).value.target == s.target
  {
    hide UnifiedOffsets, Ordering;
  }

  lemma CancelTied(c: Config, s: State, now: i64, d: Delays)
    requires ModesOk(s) && Tied(s, d) && CancelResult(s, now) == Accepted
    ensures var r := DoCancel(c, s, now); Tied(r, Follow(d, Cancel(now), s.mode, r.mode))
  {
    hide Cancelled, ModesOk, Tied;
    var r := Observe(s, now);
    assert r == s.(lastObserved := Some(now));
    ClockModes(s, now);
    assert Tied(r, d) by { StaysTied(s, r, d); }
    CancelledTied(c, r, now, d);
  }

  lemma CancelledTied(c: Config, s: State, now: i64, d: Delays)
    requires ModesOk(s) && Tied(s, d) && (s.mode == Preparing || s.mode == Filling)
    ensures var r := Cancelled(c, s, now); Tied(r, Follow(d, Cancel(now), s.mode, r.mode))
  {
    hide ReturnLanes;
  }

  lemma DeactivateTied(c: Config, s: State, now: i64, d: Delays)
    requires ModesOk(s) && Tied(s, d) && DeactivateResult(s, now) == Accepted
    ensures var r := DoDeactivate(c, s, now); Tied(r, Follow(d, Deactivate(now), s.mode, r.mode))
  {
    hide ReturnLanes;
  }

  lemma CommitReturnTied(c: Config, s: State, now: i64, left: map<StreamKey, i64>, d: Delays)
    requires CommitReturnResult(c, s, now) == Accepted
    ensures Tied(DoCommitReturn(c, s, now, left), d)
  {
    hide ReturnReady, BuildPending;
    BuiltMode(c, Observe(s, now));
  }

  lemma BeginTied(s: State, now: i64, d: Delays)
    requires ModesOk(s) && Tied(s, d) && BeginResult(s, now) == Accepted
    ensures Tied(DoBeginFilling(s, now), d)
  {
  }

  lemma AcceptedTied(c: Config, s: State, op: Op, n: nat, d: Delays)
    requires ModesOk(s) && Tied(s, d) && Request(op) && Result(c, s, op) == Accepted
    ensures var r := Step(c, s, op, n).state; Tied(r, Follow(d, op, s.mode, r.mode))
  {
    hide ModesOk, Tied, DoBeginFilling, DoChangeDelay, DoCommitDelayed, DoCancel, DoDeactivate, DoCommitReturn,
         CommitDelayedResult, CommitReturnResult, CancelResult, DeactivateResult, BeginResult, ChangeResult;
    match op
    case Activate(delay, now) => ActivateTied(c, s, delay, now);
    case BeginFilling(now) => BeginTied(s, now, d);
    case ChangeDelay(delay, now) =>
      ChangeTied(c, s, delay, now, d);
      ChangeNonnegative(c, s, delay, now);
    case CommitDelayed(now, left) => CommitTied(c, s, now, left, d);
    case Cancel(now) => CancelTied(c, s, now, d);
    case Deactivate(now) => DeactivateTied(c, s, now, d);
    case CommitReturn(now, left) => CommitReturnTied(c, s, now, left, d);
    case FinishReturn(now) => BypassTied(DoFinishReturn(s, now), d);
    case Recover(now) => BypassTied(DoRecover(s, now), d);
  }

  lemma ChangeNonnegative(c: Config, s: State, delay: int, now: i64)
    requires ChangeResult(c, s, delay, now) == Accepted
    ensures delay >= 0
  {
  }

  lemma ActivateTied(c: Config, s: State, delay: int, now: i64)
    requires ActivateResult(c, s, delay, now) == Accepted
    ensures delay >= 0 && Tied(DoActivate(c, s, delay, now), Delays(delay, None))
  {
  }

  lemma BypassTied(s: State, d: Delays)
    requires s.mode == Bypass
    ensures Tied(s, d)
  {
  }

  // ---------------------------------------------------------------------
  // Every run

  lemma OkModes(c: Config, s: State, n: nat)
    requires Ok(c, s, n)
    ensures ModesOk(s)
  {
  }

  lemma {:induction false} EveryRunTied(c: Config, ops: seq<Op>)
    requires c.Valid()
    ensures Tied(Play(c, ops).state, Followed(c, ops))
  {
    hide Step, Tied, Ok, Result;
    if ops == [] {
      BypassTied(Initial(c), Delays(0, None));
    } else {
      var before, op := Play(c, ops[..|ops| - 1]), ops[|ops| - 1];
      EveryRunTied(c, ops[..|ops| - 1]);
      EveryRunConserves(c, ops[..|ops| - 1]);
      var d := Followed(c, ops[..|ops| - 1]);
      if Request(op) && Result(c, before.state, op) == Accepted {
        OkModes(c, before.state, before.next);
        AcceptedTied(c, before.state, op, before.next, d);
      } else {
        OtherCourse(c, before.state, op, before.next);
        StaysTied(before.state, Step(c, before.state, op, before.next).state, d);
      }
    }
  }

  /** The times of the pushes, in order. */
  function Pushes(ops: seq<Op>): seq<i64> {
    if ops == [] then []
    else
      var before, op := Pushes(ops[..|ops| - 1]), ops[|ops| - 1];
      if op.Push? then before + [op.now] else before
  }

  lemma {:induction false} EveryPushTimed(c: Config, ops: seq<Op>)
    ensures var r := Play(c, ops);
            && |r.pushed| == |Pushes(ops)| && forall i :: 0 <= i < |r.pushed| ==> r.pushed[i].receivedAt == Pushes(ops)[i]
  {
    hide Step;
    if ops != [] {
      EveryPushTimed(c, ops[..|ops| - 1]);
    }
  }

  lemma TiedFlows(s: State, d: Delays)
    requires Tied(s, d) && Flowing(s)
    ensures d.running == Some(s.target)
  {
  }

  lemma TimelyAt(s: State, out: seq<Output>, now: i64, i: nat)
    requires Timely(s, out, now) && i < |out| && out[i].delayed
    ensures Flowing(s) && AgedOutput(out[i], now, s.target)
  {
  }

  /** Over every run: what a call hands out as delayed is handed out at the call's time and was pushed at least the
      delay in force before; with no delay in force nothing is handed out as delayed. */
  lemma EveryRunAged(c: Config, ops: seq<Op>, op: Op, i: nat)
    requires c.Valid() && i < |Step(c, Play(c, ops).state, op, Play(c, ops).next).out|
    requires Step(c, Play(c, ops).state, op, Play(c, ops).next).out[i].delayed
    ensures var o := Step(c, Play(c, ops).state, op, Play(c, ops).next).out[i]; var pushed := Pushes(ops + [op]);
            && (op.Push? || op.Poll?) && o.releasedAt == op.now
            && o.sequence < |pushed| && o.receivedAt == pushed[o.sequence]
            && Followed(c, ops).running.Some? && op.now as int - pushed[o.sequence] as int >= Followed(c, ops).running.value
  {
    hide Step, Play, Followed, Flowing, Tied, Timely, Ok, Conserved;
    var before := Play(c, ops);
    var r := Step(c, before.state, op, before.next);
    EveryRunConserves(c, ops);
    ConservedOk(c, before);
    EveryRunTied(c, ops);
    StepTimely(c, before.state, op, before.next);
    TimelyAt(before.state, r.out, op.now, i);
    TiedFlows(before.state, Followed(c, ops));
    PlayedOut(c, ops, op, i);
  }

  lemma PlayedOut(c: Config, ops: seq<Op>, op: Op, i: nat)
    requires c.Valid() && i < |Step(c, Play(c, ops).state, op, Play(c, ops).next).out|
    ensures var o := Step(c, Play(c, ops).state, op, Play(c, ops).next).out[i];
            o.sequence < |Pushes(ops + [op])| && o.receivedAt == Pushes(ops + [op])[o.sequence]
  {
    hide Step, Pushes, Ok;
    var more := ops + [op];
    assert more[..|more| - 1] == ops;
    EveryRunConserves(c, more);
    EveryPushTimed(c, more);
    var r := Play(c, more);
    var at := |Play(c, ops).emitted| + i;
    assert r == Played(c, Play(c, ops), op);
    assert r.emitted[at] == Step(c, Play(c, ops).state, op, Play(c, ops).next).out[i];
    assert Released(r.pushed[r.emitted[at].sequence], r.emitted[at]);
  }
}
