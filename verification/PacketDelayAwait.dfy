/** A return waits for every video lane. The lanes that a return waits for are the video lanes of the output when it
    was asked for, a later generation in the place of an earlier one; a commit needs a keyframe of each since then,
    or its silence. */
module PacketDelayAwait {
  import opened Options
  import opened Timestamps
  import opened PacketTypes
  import opened PacketDelaySpec
  import opened PacketDelayStep
  import opened PacketDelayInvariant
  import opened PacketDelayKeep
  import opened PacketDelayRun
  import opened PacketDelayResults
  import opened PacketDelayDecode
  import opened PacketDelayReturn
  import opened PacketDelayCounts
  import opened PacketDelayAge
  import opened PacketDelayWaits
  import opened PacketDelayGate
  import opened PacketDelayTwin

  /** The video lane, whatever its generation, is waited for. */
  predicate AwaitsLane(s: State, k: StreamKey) {
    exists j :: j in s.returnVideo && Timeline(j) == Timeline(k)
  }

  predicate SameAwaited(s: State, r: State) { r.returnVideo == s.returnVideo }

  // ---------------------------------------------------------------------
  // A drain waits for the same lanes after as before

  lemma EmitAwaits(s: State, x: Queued, now: i64)
    ensures var r := Emit(s, x, now, true, RetimestampOverflow, LatePacket).state; r.mode == Failed || SameAwaited(s, r)
  {
    hide Retimestamp, RegressesOutput;
    ErrorHolds(s, RetimestampOverflow);
    ErrorHolds(s, LatePacket);
  }

  lemma ErasedAwaits(s: State, k: StreamKey)
    requires k in s.queues && s.queues[k] != []
    ensures SameAwaited(s, GateErases(s, k)) && SameAwaited(GateErases(s, k), PopFront(GateErases(s, k), k))
    ensures GateErases(s, k).queues == s.queues
  {
  }

  lemma LaneAwaits(c: Config, s: State, now: i64, k: StreamKey)
    requires k in s.queues && s.queues[k] != [] && Ordering(s, s.queues[k][0].packet).Some?
    ensures var r := DrainLane(c, s, now, k).state; r.mode == Failed || SameAwaited(s, r)
  {
    hide Watermark, Emit, EnterError, GateStops, GateErases, PopFront;
    ErasedAwaits(s, k);
    ErrorHolds(GateErases(s, k), ReorderWindow);
    EmitAwaits(PopFront(GateErases(s, k), k), s.queues[k][0], now);
  }

  lemma OnceAwaits(c: Config, s: State, now: i64)
    ensures var r := DrainOnce(c, s, now).state; r.mode == Failed || SameAwaited(s, r)
  {
    hide DrainLane, Next, Ordered, DueFront, Watching, EnterError;
    ErrorHolds(s, InvalidQueuedTimeBase);
    if !(exists k :: k in s.active && Watching(c, s, now, k) && k !in s.latest) &&
       Ordered(s, now) && exists k :: k in s.queues && DueFront(s, now, k) {
      var k := NextLane(s, now);
      NextDated(s, now, k);
      LaneAwaits(c, s, now, k);
    }
  }

  lemma {:induction false} DrainAwaits(c: Config, s: State, now: i64, fuel: nat, n: nat)
    requires c.Valid() && Ok(c, s, n)
    ensures var r := DrainUpTo(c, s, now, fuel).state; r.mode == Failed || SameAwaited(s, r)
    decreases fuel
  {
    hide Ok, DrainOnce;
    if fuel != 0 {
      OnceAwaits(c, s, now);
      OkDrainOnce(c, s, now, n);
      var one := DrainOnce(c, s, now);
      if one.out != [] {
        if one.state.mode == Failed {
          FailedDrain(c, one.state, now, fuel - 1, n);
        } else {
          DrainAwaits(c, one.state, now, fuel - 1, n);
        }
      }
    }
  }

  // ---------------------------------------------------------------------
  // A packet that comes in

  lemma PlaceAwaits(c: Config, s: State, p: Packet, now: i64, n: nat)
    requires Place(c, s, p, now, n).ok && s.mode == Returning
    ensures SameAwaited(s, Place(c, s, p, now, n).state)
  {
    hide EpochOffset, Ordering, Prune, OverCapacity, EnterError, EpochActive, Append;
    var based := WithOffset(s, p).value;
    AppendAwaits(c, based, p, now, n, Ordering(based, p).value);
  }

  lemma AppendAwaits(c: Config, s: State, p: Packet, now: i64, n: nat, dts: Horizon)
    ensures SameAwaited(s, Append(c, s, p, now, n, dts))
  {
  }

  lemma PreparedAwaits(c: Config, s: State, stream: StreamKey, k: StreamKey)
    requires PrepareStream(c, s, stream).ok && k.kind == Video && AwaitsLane(s, k)
    ensures AwaitsLane(PrepareStream(c, s, stream).state, k)
  {
    hide HasOldGeneration, Keep, EnterError;
    var j :| j in s.returnVideo && Timeline(j) == Timeline(k);
    var r := PrepareStream(c, s, stream).state;
    if Replaced(stream, j) {
      assert stream in r.returnVideo && Timeline(stream) == Timeline(k);
    } else {
      assert j in r.returnVideo;
    }
  }

  lemma EnqueueAwaits(c: Config, s: State, p: Packet, now: i64, n: nat, k: StreamKey)
    requires Enqueue(c, s, p, now, n).ok && s.mode == Returning && k.kind == Video && AwaitsLane(s, k)
    ensures AwaitsLane(Enqueue(c, s, p, now, n).state, k)
  {
    hide PrepareStream, Place, EnterError;
    PreparedAwaits(c, s, p.stream, k);
    PrepareReturn(c, s, p.stream);
    PlaceAwaits(c, PrepareStream(c, s, p.stream).state, p, now, n);
  }

  lemma ObservedAwaits(c: Config, s: State, item: Queued)
    ensures SameAwaited(s, ObserveReturnKey(c, s, item))
  {
  }

  // ---------------------------------------------------------------------
  // One call

  /** The return is under way and waits for the lane. */
  predicate WaitsFor(s: State, k: StreamKey) {
    s.mode == Returning && !s.returnCommitted && AwaitsLane(s, k)
  }

  lemma BufferedAwaits(c: Config, s: State, p: Packet, now: i64, n: nat, k: StreamKey)
    requires c.Valid() && Ok(c, s, n) && s.lastObserved == Some(now) && WaitsFor(s, k) && k.kind == Video
    ensures var r := PushBuffered(c, s, p, now, n).state; r.mode == Failed || AwaitsLane(r, k)
  {
    hide Ok, Enqueue, DrainUpTo, Packets, Bypassed, ObserveReturnKey, RetimestampLive;
    var q := Enqueue(c, s, p, now, n);
    if !q.ok {
      RejectFails(c, s, p, now, n);
      LiveCourse(c, q.state, p, now, n, FailOpenTimestamps);
    } else {
      OkEnqueue(c, s, p, now, n);
      EnqueueAwaits(c, s, p, now, n, k);
      QuietObserveKey(c, q.state, NewItem(c, p, now, n), n + 1);
      var observed := ObserveReturnKey(c, q.state, NewItem(c, p, now, n));
      ObservedAwaits(c, q.state, NewItem(c, p, now, n));
      DrainAwaits(c, observed, now, Packets(observed) + 1, n + 1);
    }
  }

  lemma PushAwaits(c: Config, s: State, p: Packet, now: i64, n: nat, k: StreamKey)
    requires c.Valid() && Ok(c, s, n) && WaitsFor(s, k) && k.kind == Video
    ensures var r := DoPush(c, s, p, now, n).state; r.mode == Failed || AwaitsLane(r, k)
  {
    hide Ok, PushBuffered, Bypassed, RetimestampLive, AwaitsLane;
    if Regresses(s, now) {
      RegressedFails(c, s, p, now, n);
    } else {
      OkClock(c, s, now, n);
      SameAwaits(s, Observe(s, now), k);
      BufferedAwaits(c, Observe(s, now), p, now, n, k);
    }
  }

  lemma PollAwaits(c: Config, s: State, now: i64, n: nat, k: StreamKey)
    requires c.Valid() && Ok(c, s, n) && WaitsFor(s, k)
    ensures var r := DoPoll(c, s, now).state; r.mode == Failed || AwaitsLane(r, k)
  {
    hide Ok, DrainUpTo, Packets, AwaitsLane;
    if Regresses(s, now) {
      RegressFails(s, now);
    } else {
      OkClock(c, s, now, n);
      DrainAwaits(c, Observe(s, now), now, Packets(Observe(s, now)) + 1, n);
      SameAwaits(s, DoPoll(c, s, now).state, k);
    }
  }

  lemma PruneAwaits(c: Config, s: State, now: i64, k: StreamKey)
    requires AwaitsLane(s, k) && !Regresses(s, now)
    ensures AwaitsLane(Prune(c, Observe(s, now), now), k)
  {
    hide PruneQueue, AwaitsLane;
    SameAwaits(s, Prune(c, Observe(s, now), now), k);
  }

  lemma CallAwaits(c: Config, s: State, op: Op, n: nat, k: StreamKey)
    requires c.Valid() && Ok(c, s, n) && WaitsFor(s, k) && k.kind == Video && PacketCall(op)
    ensures var r := Step(c, s, op, n).state; r.mode == Failed || WaitsFor(r, k)
  {
    hide Ok, DoPush, DoPoll, DoExternal, Prune, Result, AwaitsLane, Observe, Regresses;
    OtherCourse(c, s, op, n);
    match op
    case Push(p, now) => PushAwaits(c, s, p, now, n, k);
    case Poll(now) => PollAwaits(c, s, now, n, k);
    case PruneNow(now) =>
      if Regresses(s, now) {
        RegressFails(s, now);
      } else {
        PruneAwaits(c, s, now, k);
      }
    case External(p) =>
      ExternalAwaits(c, s, p);
      SameAwaits(s, DoExternal(c, s, p), k);
  }

  lemma SameAwaits(s: State, r: State, k: StreamKey)
    requires AwaitsLane(s, k)
    ensures SameAwaited(s, r) ==> AwaitsLane(r, k)
  {
  }

  lemma ExternalAwaits(c: Config, s: State, p: Packet)
    ensures var r := DoExternal(c, s, p); r.mode == Failed || SameAwaited(s, r)
  {
    hide RegressesOutput;
    ErrorHolds(s, TooManyTimelines);
    ErrorHolds(s.(known := s.known + {Timeline(p.stream)}), ExternalOutput);
  }

  // ---------------------------------------------------------------------
  // Every return

  /** The lanes that the output consists of when a return is asked for. */
  predicate Shown(s: State, k: StreamKey) {
    if s.active != {} then k in s.active else k in s.queues
  }

  /** Asking for the return waits for each of its video lanes. */
  lemma RequestAwaits(c: Config, s: State, stop: Op, n: nat, k: StreamKey)
    requires (stop.Deactivate? || stop.Cancel?) && Result(c, s, stop) == Accepted && Step(c, s, stop, n).state.mode == Returning
    requires c.requireKeyframe && k.kind == Video && Shown(s, k)
    ensures WaitsFor(Step(c, s, stop, n).state, k)
  {
    hide StartReturn;
    var s1 := Observe(s, stop.now);
    StartAwaits(c, s1, true, stop.now, k);
    StartAwaits(c, s1, false, stop.now, k);
  }

  lemma StartAwaits(c: Config, s: State, fromDelayed: bool, now: i64, k: StreamKey)
    requires c.requireKeyframe && k.kind == Video && Shown(s, k)
    ensures WaitsFor(StartReturn(c, s, fromDelayed, now), k)
  {
    assert k in ReturnLanes(c, s);
  }

  ghost function Waiting(c: Config, pre: seq<Op>, stop: Op, rest: seq<Op>): Run {
    Play(c, pre + [stop] + rest)
  }

  /** Until it is committed or fails, a return goes on waiting for the lane. */
  lemma {:induction false} ReturnAwaits(c: Config, pre: seq<Op>, stop: Op, rest: seq<Op>, k: StreamKey)
    requires c.Valid() && (stop.Deactivate? || stop.Cancel?) && Result(c, Play(c, pre).state, stop) == Accepted
    requires Play(c, pre + [stop]).state.mode == Returning && c.requireKeyframe && k.kind == Video && Shown(Play(c, pre).state, k)
    requires forall i :: 0 <= i < |rest| ==> PacketCall(rest[i])
    ensures var s := Waiting(c, pre, stop, rest).state; s.mode == Failed || WaitsFor(s, k)
    decreases |rest|
  {
    hide Ok, Step, Result, Shown, WaitsFor, Conserved;
    var all := pre + [stop] + rest;
    if rest == [] {
      assert all == pre + [stop] && all[..|all| - 1] == pre && all[|all| - 1] == stop;
      RequestAwaits(c, Play(c, pre).state, stop, Play(c, pre).next, k);
    } else {
      var less := rest[..|rest| - 1];
      ReturnAwaits(c, pre, stop, less, k);
      assert all[..|all| - 1] == pre + [stop] + less && all[|all| - 1] == rest[|rest| - 1];
      var before := Waiting(c, pre, stop, less);
      EveryRunConserves(c, pre + [stop] + less);
      ConservedOk(c, before);
      if before.state.mode == Failed {
        FailedStays(c, before.state, rest[|rest| - 1], before.next);
      } else {
        CallAwaits(c, before.state, rest[|rest| - 1], before.next, k);
      }
    }
  }

  lemma FailedStays(c: Config, s: State, op: Op, n: nat)
    requires s.mode == Failed && PacketCall(op)
    ensures Step(c, s, op, n).state.mode == Failed
  {
    hide Step, Result;
    OtherCourse(c, s, op, n);
  }

  /** Over every run: a return is committed only once each video lane of the output has a keyframe as its cut, buffered
      and the newest of its lane, or has gone quiet. */
  lemma EveryReturnWaits(c: Config, pre: seq<Op>, stop: Op, rest: seq<Op>, now: i64, left: map<StreamKey, i64>, k: StreamKey)
    requires c.Valid() && (stop.Deactivate? || stop.Cancel?) && Result(c, Play(c, pre).state, stop) == Accepted
    requires Play(c, pre + [stop]).state.mode == Returning && c.requireKeyframe && k.kind == Video && Shown(Play(c, pre).state, k)
    requires forall i :: 0 <= i < |rest| ==> PacketCall(rest[i])
    requires Result(c, Waiting(c, pre, stop, rest).state, CommitReturn(now, left)) == Accepted
    ensures var s := Waiting(c, pre, stop, rest).state;
            exists j :: Timeline(j) == Timeline(k) && CutOrQuiet(c, s.(lastObserved := Some(now)), now, j)
  {
    hide Ok, Step, Shown, Play, NewestKey, AwaitsLane, BuildPending;
    var s := Waiting(c, pre, stop, rest).state;
    ReturnAwaits(c, pre, stop, rest, k);
    EveryRunCutsOk(c, pre + [stop] + rest);
    CommitFound(c, s, now, k);
  }

  /** A buffered keyframe, the newest of its lane, is recorded as its cut, or the lane has been silent for too long. */
  ghost predicate CutOrQuiet(c: Config, s: State, now: i64, j: StreamKey) {
    (j in s.returnKeys && NewestKey(Lane(s, j), s.returnKeys[j])) || GoneQuiet(c, s, now, j)
  }

  lemma CommitFound(c: Config, s: State, now: i64, k: StreamKey)
    requires CommitReturnResult(c, s, now) == Accepted && CutsOk(c, s)
    requires s.mode == Failed || WaitsFor(s, k)
    ensures exists j :: Timeline(j) == Timeline(k) && CutOrQuiet(c, s.(lastObserved := Some(now)), now, j)
  {
    hide NewestKey, BuildPending, Stalled;
    var s1 := s.(lastObserved := Some(now));
    assert Observe(s, now) == s1;
    ReadyIsFound(c, s1, now);
    var j :| j in s.returnVideo && Timeline(j) == Timeline(k);
    assert Lane(s1, j) == Lane(s, j);
    assert CutOrQuiet(c, s1, now, j);
  }
}
