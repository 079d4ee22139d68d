/** What requests answer and change: an accepted one moves on, a refused one tells the time. */
module PacketDelayResults {
  // An accepted request takes one of the listed transitions of the state machine, a refused one changes nothing
  // but the clock.

  import opened Options
  import opened Timestamps
  import opened PacketTypes
  import opened PacketDelaySpec
  import opened PacketDelayStep
  import opened PacketDelayInvariant
  import opened PacketDelayDecode
  import opened PacketDelayReturn

  function ActivateResult(c: Config, s: State, delay: int, now: i64): RequestResult {
    if Regresses(s, now) then ClockRegressed
    else if !ValidDelay(c, delay) then InvalidDelay
    else if s.mode == Preparing && !s.preparingChange && delay == s.pendingTarget then NoOp
    else if s.mode != Bypass then InvalidState
    else Accepted
  }

  function BeginResult(s: State, now: i64): RequestResult {
    if Regresses(s, now) then ClockRegressed
    else if s.mode == Preparing then Accepted
    else if s.mode == Filling then NoOp
    else InvalidState
  }

  function ChangeResult(c: Config, s: State, delay: int, now: i64): RequestResult {
    if Regresses(s, now) then ClockRegressed
    else if !ValidDelay(c, delay) then InvalidDelay
    else if s.mode == Returning || s.mode == Failed then InvalidState
    else if s.mode != Bypass && delay == ReportedTarget(s) then NoOp
    else Accepted
  }

  ghost function CommitDelayedResult(c: Config, s: State, now: i64): RequestResult {
    if Regresses(s, now) then ClockRegressed
    else if s.mode != Filling then InvalidState
    else if !PlanReady(c, Observe(s, now), now) then NotReady
    else if BeginEpoch(ApplyPlan(c, Observe(s, now), now)).None? then InvalidState
    else Accepted
  }

  function CancelResult(s: State, now: i64): RequestResult {
    if Regresses(s, now) then ClockRegressed
    else if s.mode == Preparing || s.mode == Filling then Accepted
    else if s.mode == Bypass || s.mode == Returning then NoOp
    else InvalidState
  }

  function DeactivateResult(s: State, now: i64): RequestResult {
    if Regresses(s, now) then ClockRegressed
    else if s.mode == Bypass || s.mode == Returning then NoOp
    else if s.mode == Failed then InvalidState
    else Accepted
  }

  ghost function CommitReturnResult(c: Config, s: State, now: i64): RequestResult {
    if Regresses(s, now) then ClockRegressed
    else if s.mode != Returning then InvalidState
    else if s.returnCommitted then NoOp
    else if !ReturnReady(c, Observe(s, now), now) then NotReady
    else if BuildPending(c, Observe(s, now)).None? then InvalidState
    else Accepted
  }

  function FinishResult(s: State, now: i64): RequestResult {
    if Regresses(s, now) then ClockRegressed
    else if s.mode == Bypass then NoOp
    else if s.mode != Returning then InvalidState
    else if !s.returnCommitted || s.pending != [] then NotReady
    else Accepted
  }

  function RecoverResult(s: State, now: i64): RequestResult {
    if Regresses(s, now) then ClockRegressed
    else if s.mode == Failed then Accepted
    else NoOp
  }

  /** Whether an output that bypassed the core may be noted. */
  predicate ExternalAccepted(c: Config, s: State, p: Packet) {
    && (Timeline(p.stream) in s.known || |s.known| < c.maxStreams)
    && p.tb.Valid() && !RegressesOutput(s, p)
  }

  /** Calls that answer with a result. */
  predicate Request(op: Op) {
    match op
    case ReportError => false
    case Push(_, _) => false
    case Poll(_) => false
    case PruneNow(_) => false
    case External(_) => false
    case _ => true
  }

  ghost function Result(c: Config, s: State, op: Op): RequestResult
    requires Request(op)
  {
    match op
    case Activate(delay, now) => ActivateResult(c, s, delay, now)
    case BeginFilling(now) => BeginResult(s, now)
    case ChangeDelay(delay, now) => ChangeResult(c, s, delay, now)
    case CommitDelayed(now, _) => CommitDelayedResult(c, s, now)
    case Cancel(now) => CancelResult(s, now)
    case Deactivate(now) => DeactivateResult(s, now)
    case CommitReturn(now, _) => CommitReturnResult(c, s, now)
    case FinishReturn(now) => FinishResult(s, now)
    case Recover(now) => RecoverResult(s, now)
  }

  /** A failed commit is the one refusal that costs the transaction. */
  lemma RefusedOnlyTellsTime(c: Config, s: State, op: Op, n: nat)
    requires Request(op) && Result(c, s, op) != Accepted
    ensures Step(c, s, op, n).out == []
    ensures var r := Step(c, s, op, n).state;
            || r == Observe(s, op.now)
            || (r.mode == Failed && (op.CommitDelayed? || op.CommitReturn?) && Result(c, s, op) == InvalidState)
  {
    hide PlanReady, ApplyPlan, BeginEpoch, BuildPending, ReturnReady, StartReturn, ClearAll, EnterError;
    match op
    case CommitDelayed(now, left) =>
      Failing(ApplyPlan(c, Observe(s, now), now).(offsets := left), DelayedEpoch);
    case CommitReturn(now, left) =>
      Failing(Observe(s, now).(offsets := left), LiveEpoch);
    case _ =>
  }

  lemma Failing(s: State, fault: Fault)
    ensures EnterError(s, fault).mode == Failed
  {
  }

  /** The transitions an accepted request may take. */
  predicate Edge(op: Op, from: Mode, to: Mode) {
    match op
    case Activate(_, _) => from == Bypass && to == Preparing
    case BeginFilling(_) => from == Preparing && to == Filling
    case ChangeDelay(_, _) => (from == to == Filling) || ((from == Bypass || from == Preparing || from == Delayed) && to == Preparing)
    case CommitDelayed(_, _) => from == Filling && to == Delayed
    case Cancel(_) => (from == Preparing || from == Filling) && (to == Delayed || to == Returning)
    case Deactivate(_) => (from == Preparing || from == Filling || from == Delayed) && to == Returning
    case CommitReturn(_, _) => from == to == Returning
    case FinishReturn(_) => from == Returning && to == Bypass
    case Recover(_) => from == Failed && to == Bypass
    case _ => false
  }

  lemma AcceptedMoves(c: Config, s: State, op: Op, n: nat)
    requires Request(op) && Result(c, s, op) == Accepted
    ensures Edge(op, s.mode, Step(c, s, op, n).state.mode)
  {
    hide DoCommitDelayed, DoCommitReturn, DoChangeDelay, DoCancel, CommitDelayedResult, CommitReturnResult, ReturnLanes,
         ClearAll, ClearQueues;
    match op
    case ChangeDelay(delay, now) => ChangeMoves(c, s, delay, now);
    case CommitDelayed(now, left) => CommitMoves(c, s, now, left);
    case Cancel(now) => CancelMoves(c, s, now);
    case CommitReturn(now, left) => ReturnMoves(c, s, now, left);
    case _ =>
  }

  lemma RetargetMoves(s: State, delay: nat)
    requires s.mode != Bypass && s.mode != Returning && s.mode != Failed && delay != ReportedTarget(s)
    ensures Retarget(s, delay).mode == if s.mode == Filling then Filling else Preparing
  {
  }

  lemma ChangeMoves(c: Config, s: State, delay: int, now: i64)
    requires ChangeResult(c, s, delay, now) == Accepted
    ensures DoChangeDelay(c, s, delay, now).mode == if s.mode == Filling then Filling else Preparing
  {
    hide ClearAll, Retarget, Observe;
    Observing(s, now);
    if s.mode != Bypass {
      RetargetMoves(Observe(s, now), delay);
    }
  }

  lemma CancelledMoves(c: Config, s: State, now: i64)
    requires s.mode == Preparing || s.mode == Filling
    ensures var m := Cancelled(c, s, now).mode; m == Delayed || m == Returning
  {
    hide ReturnLanes;
  }

  lemma CancelMoves(c: Config, s: State, now: i64)
    requires CancelResult(s, now) == Accepted
    ensures var m := DoCancel(c, s, now).mode; (s.mode == Preparing || s.mode == Filling) && (m == Delayed || m == Returning)
  {
    hide Cancelled, Observe;
    Observing(s, now);
    CancelledMoves(c, Observe(s, now), now);
  }

  lemma CommitMoves(c: Config, s: State, now: i64, left: map<StreamKey, i64>)
    requires CommitDelayedResult(c, s, now) == Accepted
    ensures s.mode == Filling && DoCommitDelayed(c, s, now, left).mode == Delayed
  {
    hide PlanReady, ApplyPlan, BeginEpoch, Observe;
    Observing(s, now);
  }

  lemma ReturnMoves(c: Config, s: State, now: i64, left: map<StreamKey, i64>)
    requires CommitReturnResult(c, s, now) == Accepted
    ensures s.mode == Returning && DoCommitReturn(c, s, now, left).mode == Returning
  {
    hide BuildPending, ReturnReady, Observe;
    Observing(s, now);
    BuiltMode(c, Observe(s, now));
  }

  lemma Observing(s: State, now: i64)
    requires !Regresses(s, now)
    ensures var r := Observe(s, now); r.mode == s.mode && r.returnCommitted == s.returnCommitted && ReportedTarget(r) == ReportedTarget(s)
  {
  }

  /** Whatever a call does besides an accepted transition, it stays in its mode or fails. */
  lemma OtherwiseStays(c: Config, s: State, op: Op, n: nat)
    requires c.Valid() && Ok(c, s, n) && !(Request(op) && Result(c, s, op) == Accepted)
    ensures var m := Step(c, s, op, n).state.mode; m == s.mode || m == Failed
  {
    hide Result, Ok, DoPush, DoPoll, DoActivate, DoBeginFilling, DoChangeDelay, DoCommitDelayed, DoCancel, DoDeactivate,
         DoCommitReturn, DoFinishReturn, DoRecover, DoExternal, Prune, EnterError;
    if Request(op) {
      RefusedOnlyTellsTime(c, s, op, n);
      Ticking(s, op.now);
    } else {
      match op
      case Push(p, now) => PushStays(c, s, p, now, n);
      case Poll(now) => PollStays(c, s, now);
      case PruneNow(now) =>
        Ticking(s, now);
        PruneReturn(c, Observe(s, now), now);
      case External(p) => ExternalStays(c, s, p);
      case ReportError => Failing(s, Reported);
    }
  }

  predicate Stays(s: State, r: State) { r.mode == s.mode || r.mode == Failed }

  lemma Ticking(s: State, now: i64)
    ensures Stays(s, Observe(s, now))
  {
  }

  lemma ExternalStays(c: Config, s: State, p: Packet)
    ensures Stays(s, DoExternal(c, s, p))
  {
    hide Note, EnterError;
    var s1 := s.(known := s.known + {Timeline(p.stream)});
    Failing(s, TooManyTimelines);
    Failing(s1, ExternalOutput);
    NoteStays(s1, p);
  }

  lemma NoteStays(s: State, p: Packet)
    ensures Note(s, p).Some? ==> Note(s, p).value.mode == s.mode
  {
    hide RegressesOutput;
  }

  lemma DrainStays(c: Config, s: State, now: i64)
    ensures Stays(s, Drain(c, s, now).state) && Stays(s, DrainAndPrune(c, s, now).state) && Stays(s, DrainPending(s, now).state)
  {
    hide DrainUpTo, Prune, DrainPending;
    DrainMode(c, s, now, Packets(s) + 1);
    PruneReturn(c, Drain(c, s, now).state, now);
    PendingStays(s, now);
  }

  lemma {:induction false} PendingStays(s: State, now: i64)
    ensures Stays(s, DrainPending(s, now).state)
    decreases |s.pending|
  {
    hide Emit;
    if s.pending != [] {
      var rest := s.(pending := s.pending[1..]);
      EmitStays(rest, s.pending[0], now);
      var one := Emit(rest, s.pending[0], now, false, ReturnRegression, ReturnRegression);
      if one.out != [] {
        PendingStays(one.state, now);
      }
    }
  }

  lemma EmitStays(s: State, x: Queued, now: i64)
    ensures var r := Emit(s, x, now, false, ReturnRegression, ReturnRegression);
            Stays(s, r.state) && (r.out != [] ==> r.state.pending == s.pending && r.state.mode == s.mode)
  {
    hide RegressesOutput;
  }

  lemma PollStays(c: Config, s: State, now: i64)
    ensures Stays(s, DoPoll(c, s, now).state)
  {
    hide Drain, DrainAndPrune, DrainPending, Prune, Observe;
    Ticking(s, now);
    DrainStays(c, Observe(s, now), now);
    PruneReturn(c, Observe(s, now), now);
  }

  lemma BypassedStays(c: Config, s: State, p: Packet, now: i64, n: nat, fault: Fault)
    ensures Stays(s, RetimestampLive(c, s, p).state) && Stays(s, Bypassed(c, s, p, now, n, fault).state)
  {
    hide RetimestampLive;
    LiveMode(c, s, p);
  }

  lemma PushStays(c: Config, s: State, p: Packet, now: i64, n: nat)
    requires c.Valid() && Ok(c, s, n)
    ensures Stays(s, DoPush(c, s, p, now, n).state)
  {
    hide PushBuffered, DrainPending, Bypassed, RetimestampLive, Observe, Ok;
    Ticking(s, now);
    var s1 := Observe(s, now);
    BypassedStays(c, s1, p, now, n, FailOpenTimestamps);
    DrainStays(c, s1, now);
    BypassedStays(c, DrainPending(s1, now).state, p, now, n, LiveTimestamps);
    BufferedStays(c, s1, p, now, n);
  }

  lemma BufferedStays(c: Config, s: State, p: Packet, now: i64, n: nat)
    ensures Stays(s, PushBuffered(c, s, p, now, n).state)
  {
    hide Enqueue, Drain, DrainAndPrune, Bypassed, Prune, ObserveReturnKey;
    EnqueueStays(c, s, p, now, n);
    var queued := Enqueue(c, s, p, now, n);
    if !queued.ok {
      BypassedStays(c, queued.state, p, now, n, FailOpenTimestamps);
    } else if s.mode == Preparing || s.mode == Filling {
      PruneReturn(c, queued.state, now);
      DrainStays(c, Prune(c, queued.state, now), now);
    } else if s.mode == Delayed {
      DrainStays(c, queued.state, now);
    } else {
      var observed := ObserveReturnKey(c, queued.state, NewItem(c, p, now, n));
      ObservedStays(c, queued.state, NewItem(c, p, now, n));
      DrainStays(c, observed, now);
    }
  }

  lemma ObservedStays(c: Config, s: State, item: Queued)
    ensures ObserveReturnKey(c, s, item).mode == s.mode
  {
  }

  lemma EnqueueStays(c: Config, s: State, p: Packet, now: i64, n: nat)
    ensures Stays(s, Enqueue(c, s, p, now, n).state)
  {
    hide PrepareStream, Place, EnterError;
    PrepareMode(c, s, p.stream);
    var prepared := PrepareStream(c, s, p.stream);
    Failing(prepared.state, InvalidTimeBase);
    PlaceStays(c, prepared.state, p, now, n);
  }

  lemma PlaceStays(c: Config, s: State, p: Packet, now: i64, n: nat)
    ensures Stays(s, Place(c, s, p, now, n).state)
  {
    hide EpochOffset, OverCapacity, Prune, Ordering, Append, EnterError, WithOffset;
    Failing(s, NewStreamOffset);
    OffsetStays(s, p);
    var based := WithOffset(s, p);
    if based.Some? {
      Failing(based.value, OrderingOverflow);
      var dts := Ordering(based.value, p);
      if dts.Some? {
        PruneReturn(c, based.value, now);
        var room := if s.mode == Returning then based.value else Prune(c, based.value, now);
        Failing(room, Capacity);
        AppendStays(c, room, p, now, n, dts.value);
      }
    }
  }

  lemma OffsetStays(s: State, p: Packet)
    ensures WithOffset(s, p).Some? ==> WithOffset(s, p).value.mode == s.mode
  {
    hide EpochOffset;
  }

  lemma AppendStays(c: Config, s: State, p: Packet, now: i64, n: nat, dts: Horizon)
    ensures Append(c, s, p, now, n, dts).mode == s.mode
  {
    hide NewItem, EpochActive;
  }

  // ---------------------------------------------------------------------
  // Where every request leads

  /** The state that a request other than a commit leads to while the clock does not go back. */
  function Lands(c: Config, s: State, op: Op): Mode
    requires Request(op) && !op.CommitDelayed? && !op.CommitReturn?
  {
    match op
    case Activate(delay, _) => if s.mode == Bypass && 0 <= delay <= c.maxDelay then Preparing else s.mode
    case BeginFilling(_) => if s.mode == Preparing then Filling else s.mode
    case ChangeDelay(delay, _) =>
      if 0 <= delay <= c.maxDelay && (s.mode == Bypass || (s.mode == Delayed && delay != s.target)) then Preparing else s.mode
    case Cancel(_) =>
      if (s.mode == Preparing && s.preparingChange) || (s.mode == Filling && s.originDelayed) then Delayed
      else if s.mode == Preparing || s.mode == Filling then Returning
      else s.mode
    case Deactivate(_) => if s.mode == Preparing || s.mode == Filling || s.mode == Delayed then Returning else s.mode
    case FinishReturn(_) => if s.mode == Returning && s.returnCommitted && s.pending == [] then Bypass else s.mode
    case Recover(_) => if s.mode == Failed then Bypass else s.mode
  }

  /** Every request leads where the table says, and to a failure exactly when the clock goes back or it was there. */
  lemma RequestLands(c: Config, s: State, op: Op, n: nat)
    requires Request(op) && !op.CommitDelayed? && !op.CommitReturn?
    ensures Step(c, s, op, n).state.mode == if Regresses(s, op.now) then Failed else Lands(c, s, op)
  {
    hide DoActivate, DoBeginFilling, DoChangeDelay, DoCancel, DoDeactivate, DoFinishReturn, DoRecover, Observe, Regresses;
    match op
    case Activate(delay, now) => ActivateLands(c, s, delay, now);
    case BeginFilling(now) => BeginLands(s, now);
    case ChangeDelay(delay, now) => ChangeLands(c, s, delay, now);
    case Cancel(now) => CancelLands(c, s, now);
    case Deactivate(now) => DeactivateLands(c, s, now);
    case FinishReturn(now) => FinishLands(s, now);
    case Recover(now) => RecoverLands(s, now);
  }

  lemma ClockLands(s: State, now: i64)
    ensures if Regresses(s, now) then Observe(s, now).mode == Failed else Observe(s, now) == s.(lastObserved := Some(now))
  {
  }

  lemma ActivateLands(c: Config, s: State, delay: int, now: i64)
    ensures DoActivate(c, s, delay, now).mode
         == if Regresses(s, now) then Failed else if s.mode == Bypass && 0 <= delay <= c.maxDelay then Preparing else s.mode
  {
    hide Observe, Regresses, ClearAll;
    ClockLands(s, now);
  }

  lemma BeginLands(s: State, now: i64)
    ensures DoBeginFilling(s, now).mode == if Regresses(s, now) then Failed else if s.mode == Preparing then Filling else s.mode
  {
    hide Observe, Regresses, ClearQueues;
    ClockLands(s, now);
  }

  lemma ChangeLands(c: Config, s: State, delay: int, now: i64)
    ensures DoChangeDelay(c, s, delay, now).mode
         == if Regresses(s, now) then Failed else Lands(c, s, ChangeDelay(delay, now))
  {
    hide Observe, Regresses, ClearAll, Retarget;
    ClockLands(s, now);
    if ValidDelay(c, delay) {
      RetargetLands(Observe(s, now), delay);
    }
  }

  lemma RetargetLands(s: State, delay: nat)
    ensures Retarget(s, delay).mode == if s.mode == Delayed && delay != s.target then Preparing else s.mode
  {
    if s.mode == Preparing {
    } else if s.mode == Filling {
    } else if s.mode == Delayed {
    } else {
      assert Retarget(s, delay) == s;
    }
  }

  lemma CancelLands(c: Config, s: State, now: i64)
    ensures DoCancel(c, s, now).mode == if Regresses(s, now) then Failed else Lands(c, s, Cancel(now))
  {
    hide Observe, Regresses, ReturnLanes;
    ClockLands(s, now);
    var s1 := Observe(s, now);
    if s1.mode == Preparing && s1.preparingChange {
    } else if s1.mode == Filling && s1.originDelayed {
    } else if s1.mode == Preparing || s1.mode == Filling {
    }
  }

  lemma DeactivateLands(c: Config, s: State, now: i64)
    ensures DoDeactivate(c, s, now).mode == if Regresses(s, now) then Failed else Lands(c, s, Deactivate(now))
  {
    hide Observe, Regresses, ReturnLanes;
    ClockLands(s, now);
  }

  lemma FinishLands(s: State, now: i64)
    ensures DoFinishReturn(s, now).mode == if Regresses(s, now) then Failed
                                          else if s.mode == Returning && s.returnCommitted && s.pending == [] then Bypass else s.mode
  {
    hide Observe, Regresses, ClearAll;
    ClockLands(s, now);
  }

  lemma RecoverLands(s: State, now: i64)
    ensures DoRecover(s, now).mode == if Regresses(s, now) then Failed else if s.mode == Failed then Bypass else s.mode
  {
    hide Observe, Regresses, ClearAll;
    ClockLands(s, now);
  }
}
