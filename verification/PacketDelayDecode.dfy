/** Every run leaves decodable output, whatever is pruned, retargeted or cancelled on the way. */
module PacketDelayDecode {
  // With keyframes required, what a committed video lane emits starts with a keyframe and goes on with the
  // lane's next packet or another keyframe.

  import opened Options
  import opened Timestamps
  import opened PacketTypes
  import opened PacketDelaySpec
  import opened PacketDelayStep
  import opened PacketDelayInvariant
  import opened PacketDelayKeep
  import opened PacketDelayRun

  /** A lane since the last committed cut: every packet it got, and what left delayed. */
  datatype LaneTrace = LaneTrace(hist: seq<Queued>, out: seq<Output>)

  type Traces = map<StreamKey, LaneTrace>

  function LaneOut(out: seq<Output>, k: StreamKey): seq<Output> {
    if out == [] then []
    else (if out[0].delayed && out[0].packet.stream == k then [out[0]] else []) + LaneOut(out[1..], k)
  }

  ghost predicate Commits(s: State, op: Op, r: State) {
    op.CommitDelayed? && s.mode == Filling && r.mode == Delayed
  }

  /** The lanes of a newly committed cut are traced afresh; otherwise traces grow. */
  ghost function Traced(c: Config, tr: Traces, s: State, op: Op, n: nat): Traces {
    var r := Step(c, s, op, n);
    if Commits(s, op, r.state) then
      map k | k in r.state.queues && k.kind == Video :: LaneTrace(r.state.queues[k], [])
    else
      map k | k in tr ::
        LaneTrace(if op.Push? && op.packet.stream == k then tr[k].hist + [NewItem(c, op.packet, op.now, n)]
                  else tr[k].hist,
                  tr[k].out + LaneOut(r.out, k))
  }

  /** Output i is the packet at index a of the lane: a keyframe, or right after output i - 1. */
  ghost predicate Follows(t: LaneTrace, i: nat, a: nat)
    requires i < |t.out|
  {
    && a < |t.hist| && Released(t.hist[a], t.out[i])
    && (t.hist[a].packet.keyframe || (i > 0 && a > 0 && Released(t.hist[a - 1], t.out[i - 1])))
  }

  ghost predicate Continues(t: LaneTrace, i: nat)
    requires i < |t.out|
  {
    exists a: nat :: Follows(t, i, a)
  }

  ghost predicate Decodable(t: LaneTrace) {
    forall i :: 0 <= i < |t.out| ==> Continues(t, i)
  }

  // ---------------------------------------------------------------------
  // The link between a trace and the lane still buffered

  /** The core is releasing delayed packets, or may resume doing so without a new commit. */
  predicate Streaming(s: State) {
    || s.mode == Delayed || (s.mode == Preparing && s.preparingChange) || (s.mode == Filling && s.originDelayed)
    || (s.mode == Returning && s.returnFromDelayed && !s.returnCommitted)
  }

  function Lane(s: State, k: StreamKey): Queue {
    if k in s.queues then s.queues[k] else []
  }

  ghost predicate LastWas(t: LaneTrace, a: int) {
    0 <= a < |t.hist| && t.out != [] && Released(t.hist[a], t.out[|t.out| - 1])
  }

  /** The buffered lane is the tail of the trace and may be emitted next. */
  ghost predicate Linked(q: Queue, t: LaneTrace) {
    && |q| <= |t.hist| && q == t.hist[|t.hist| - |q|..]
    && ((q != [] && q[0].packet.keyframe) || LastWas(t, |t.hist| - |q| - 1))
  }

  ghost predicate Links(s: State, k: StreamKey, t: LaneTrace) {
    Decodable(t) && (Streaming(s) ==> Linked(Lane(s, k), t))
  }

  lemma DecodableGrows(t: LaneTrace, hist: seq<Queued>)
    requires Decodable(t) && t.hist <= hist
    ensures Decodable(LaneTrace(hist, t.out))
  {
    forall i | 0 <= i < |t.out| ensures Continues(LaneTrace(hist, t.out), i) {
      assert Continues(t, i);
      var a: nat :| Follows(t, i, a);
      assert Follows(LaneTrace(hist, t.out), i, a);
    }
  }

  lemma LinkedAppend(q: Queue, t: LaneTrace, x: Queued)
    requires Linked(q, t) && Decodable(t)
    ensures Linked(q + [x], LaneTrace(t.hist + [x], t.out)) && Decodable(LaneTrace(t.hist + [x], t.out))
  {
    DecodableGrows(t, t.hist + [x]);
  }

  lemma LinkedPop(q: Queue, t: LaneTrace, o: Output)
    requires q != [] && Linked(q, t) && Decodable(t) && Released(q[0], o)
    ensures Linked(q[1..], LaneTrace(t.hist, t.out + [o])) && Decodable(LaneTrace(t.hist, t.out + [o]))
  {
    var u := LaneTrace(t.hist, t.out + [o]);
    var at := |t.hist| - |q|;
    assert t.hist[at] == q[0];
    forall i | 0 <= i < |u.out| ensures Continues(u, i) {
      if i < |t.out| {
        assert Continues(t, i);
        var a: nat :| Follows(t, i, a);
        assert Follows(u, i, a);
      } else {
        assert Follows(u, i, at);
      }
    }
    assert q[1..] == t.hist[at + 1..];
  }

  /** Any later keyframe of the lane may be emitted next. */
  lemma LinkedSkip(q: Queue, t: LaneTrace, i: nat)
    requires Linked(q, t) && i < |q| && q[i].packet.keyframe
    ensures Linked(q[i..], t)
  {
  }

  lemma PruneLinks(c: Config, s: State, now: i64, k: StreamKey, t: LaneTrace, bound: nat)
    requires c.requireKeyframe && k.kind == Video && LanesOk(c, s.queues, bound, s.lastObserved)
    requires Linked(Lane(s, k), t)
    ensures Linked(Lane(Prune(c, s, now), k), t)
  {
    hide Linked, Prune;
    PrunedLane(c, s, now, k);
    if k in s.queues {
      var q := s.queues[k];
      assert LaneOk(c, k, q, bound, s.lastObserved);
      KeepIndexAnchored(c, q, now, Retention(c, s), |q|);
      var i := KeepIndex(c, q, now, Retention(c, s), |q|);
      if i > 0 {
        LinkedSkip(q, t, i);
      }
    }
  }

  lemma PrunedLane(c: Config, s: State, now: i64, k: StreamKey)
    ensures Lane(Prune(c, s, now), k)
         == if k in s.queues then s.queues[k][KeepIndex(c, s.queues[k], now, Retention(c, s), |s.queues[k]|)..] else []
  {
    hide KeepIndex, Retention;
  }

  lemma {:induction false} KeepIndexAnchored(c: Config, q: Queue, now: i64, retention: int, n: nat)
    requires n <= |q|
    ensures var i := KeepIndex(c, q, now, retention, n);
            i > 0 ==> i < |q| && Anchor(c, q[i]) && Due(now, q[i].receivedAt, retention)
  {
    if n > 0 {
      KeepIndexAnchored(c, q, now, retention, n - 1);
    }
  }

  // ---------------------------------------------------------------------
  // Draining

  lemma LaneOutOne(out: seq<Output>, k: StreamKey)
    requires |out| == 1 && out[0].delayed
    ensures LaneOut(out, k) == if out[0].packet.stream == k then out else []
  {
    assert out[1..] == [];
  }

  lemma {:induction false} LaneOutThen(a: seq<Output>, b: seq<Output>, k: StreamKey)
    ensures LaneOut(a + b, k) == LaneOut(a, k) + LaneOut(b, k)
  {
    if a == [] {
      assert a + b == b;
    } else {
      assert (a + b)[1..] == a[1..] + b;
      LaneOutThen(a[1..], b, k);
    }
  }

  /** One drained packet is the front of its lane; all other lanes are untouched. */
  ghost predicate Pops(s: State, r: Drained) {
    if r.out == [] then r.state.mode != Failed ==> r.state.queues == s.queues && Streaming(r.state) == Streaming(s)
    else
      exists j :: j in s.queues && s.queues[j] != [] && r.out[0].packet.stream == j && |r.out| == 1 &&
        r.out[0].delayed && Released(s.queues[j][0], r.out[0]) && Streaming(r.state) == Streaming(s) &&
        r.state.queues == PopFront(s, j).queues
  }

  lemma EmitPops(c: Config, s: State, j: StreamKey, now: i64, bound: nat)
    requires Ok(c, s, bound) && j in s.queues && s.queues[j] != []
    ensures Pops(s, Emit(PopFront(s, j), s.queues[j][0], now, true, RetimestampOverflow, LatePacket))
  {
    assert LaneOk(c, j, s.queues[j], bound, s.lastObserved);
    var r := Emit(PopFront(s, j), s.queues[j][0], now, true, RetimestampOverflow, LatePacket);
    if r.out != [] {
      assert Released(s.queues[j][0], r.out[0]);
    }
  }

  lemma DrainLanePops(c: Config, s: State, now: i64, k: StreamKey, bound: nat)
    requires Ok(c, s, bound)
    requires k in s.queues && s.queues[k] != [] && Ordering(s, s.queues[k][0].packet).Some?
    ensures Pops(s, DrainLane(c, s, now, k))
  {
    hide GateStops, Watermark, Ordering, Emit, PopFront;
    OkErase(c, s, k, bound);
    var s1 := GateErases(s, k);
    EmitPops(c, s1, k, now, bound);
    ErasePops(s, k, Emit(PopFront(s1, k), s.queues[k][0], now, true, RetimestampOverflow, LatePacket));
  }

  lemma ErasePops(s: State, k: StreamKey, r: Drained)
    requires k in s.queues && s.queues[k] != [] && Pops(GateErases(s, k), r)
    ensures Pops(s, r) && Streaming(GateErases(s, k)) == Streaming(s)
  {
    hide GateErases, PopFront, Released;
    ErasedSame(s, k);
    if r.out != [] {
      var j := r.out[0].packet.stream;
      PoppedQueues(s, j);
      PoppedQueues(GateErases(s, k), j);
    }
  }

  lemma ErasedSame(s: State, k: StreamKey)
    requires k in s.queues && s.queues[k] != []
    ensures GateErases(s, k).queues == s.queues && Streaming(GateErases(s, k)) == Streaming(s)
  {
  }

  lemma PoppedQueues(s: State, k: StreamKey)
    requires k in s.queues && s.queues[k] != []
    ensures PopFront(s, k).queues
         == if s.queues[k][1..] == [] then s.queues - {k} else s.queues[k := s.queues[k][1..]]
    ensures PopFront(s, k).pending == s.pending
  {
  }

  lemma DrainOncePops(c: Config, s: State, now: i64, bound: nat)
    requires Ok(c, s, bound)
    ensures Pops(s, DrainOnce(c, s, now))
  {
    hide DrainLane, Pops, Ok;
    if !(exists k :: k in s.active && Watching(c, s, now, k) && k !in s.latest) &&
       Ordered(s, now) && exists k :: k in s.queues && DueFront(s, now, k) {
      DrainLanePops(c, s, now, NextLane(s, now), bound);
    } else {
      StandsStill(s, DrainOnce(c, s, now));
    }
  }

  lemma StandsStill(s: State, r: Drained)
    requires r.out == [] && (r.state == s || r.state.mode == Failed)
    ensures Pops(s, r)
  {
  }

  lemma PopLinks(s: State, r: Drained, k: StreamKey, t: LaneTrace)
    requires Pops(s, r) && r.out != [] && Decodable(t) && Linked(Lane(s, k), t)
    ensures var u := LaneTrace(t.hist, t.out + LaneOut(r.out, k));
            Decodable(u) && Linked(Lane(r.state, k), u)
  {
    LaneOutOne(r.out, k);
    var j :| j in s.queues && s.queues[j] != [] && r.out[0].packet.stream == j && |r.out| == 1 &&
      r.out[0].delayed && Released(s.queues[j][0], r.out[0]) && r.state.queues == PopFront(s, j).queues;
    if j == k {
      LinkedPop(s.queues[k], t, r.out[0]);
      assert r.out == [r.out[0]];
      assert Lane(r.state, k) == s.queues[k][1..];
    } else {
      assert Lane(r.state, k) == Lane(s, k);
      assert t.out + [] == t.out;
    }
  }

  lemma {:induction false} DrainLinks(c: Config, s: State, now: i64, fuel: nat, k: StreamKey, t: LaneTrace, bound: nat)
    requires c.Valid() && Ok(c, s, bound) && Streaming(s) && Decodable(t) && Linked(Lane(s, k), t)
    ensures Links(DrainUpTo(c, s, now, fuel).state, k, LaneTrace(t.hist, t.out + LaneOut(DrainUpTo(c, s, now, fuel).out, k)))
    decreases fuel
  {
    hide DrainOnce, Ok, Decodable, Linked;
    assert t.out + [] == t.out;
    if fuel != 0 {
      DrainOncePops(c, s, now, bound);
      OkDrainOnce(c, s, now, bound);
      var one := DrainOnce(c, s, now);
      if one.out == [] {
        StillLinks(s, one, k, t);
      } else {
        PopLinks(s, one, k, t);
        var u := LaneTrace(t.hist, t.out + LaneOut(one.out, k));
        DrainLinks(c, one.state, now, fuel - 1, k, u, bound);
        var rest := DrainUpTo(c, one.state, now, fuel - 1);
        LaneOutThen(one.out, rest.out, k);
        assert u.out + LaneOut(rest.out, k) == t.out + LaneOut(one.out + rest.out, k);
      }
    }
  }

  lemma StillLinks(s: State, r: Drained, k: StreamKey, t: LaneTrace)
    requires Pops(s, r) && r.out == [] && Decodable(t) && Linked(Lane(s, k), t)
    ensures Links(r.state, k, LaneTrace(t.hist, t.out + LaneOut(r.out, k)))
  {
    assert t.out + [] == t.out;
  }

  // ---------------------------------------------------------------------
  // Operations that do not drain

  /** Release of delayed packets cannot resume on other queues. */
  predicate Calm(s: State, r: State) {
    Streaming(r) ==> Streaming(s) && r.queues == s.queues
  }

  lemma CalmLinks(s: State, r: State, k: StreamKey, t: LaneTrace)
    requires Calm(s, r) && Links(s, k, t)
    ensures Links(r, k, LaneTrace(t.hist, t.out + []))
  {
    assert t.out + [] == t.out;
  }

  lemma CalmRetarget(s: State, delay: nat)
    requires ModesOk(s)
    ensures Calm(s, Retarget(s, delay))
  {
    if s.mode == Preparing {
      assert Retarget(s, delay).queues == s.queues;
    } else if s.mode == Filling {
      assert Retarget(s, delay).queues == s.queues;
    } else if s.mode == Delayed {
      assert Retarget(s, delay).queues == s.queues;
    } else {
      assert Retarget(s, delay) == s;
    }
  }

  lemma CalmClock(s: State, now: i64)
    requires ModesOk(s)
    ensures var r := Observe(s, now);
            && Calm(s, r) && ModesOk(r)
            && (if Regresses(s, now) then r.mode == Failed else r.lastObserved == Some(now) && r.mode == s.mode)
  {
    if Regresses(s, now) {
    }
  }

  lemma CalmBeginFilling(s: State, now: i64)
    requires ModesOk(s)
    ensures Calm(s, DoBeginFilling(s, now))
  {
    CalmClock(s, now);
    if s.mode == Preparing {
      if s.preparingChange {
      }
    }
  }

  lemma CalmChange(c: Config, s: State, delay: int, now: i64)
    requires ModesOk(s)
    ensures Calm(s, DoChangeDelay(c, s, delay, now))
  {
    hide Retarget, Observe;
    CalmClock(s, now);
    if ValidDelay(c, delay) {
      CalmRetarget(Observe(s, now), delay);
    }
  }

  lemma CalmCancelled(c: Config, s: State, now: i64)
    requires ModesOk(s)
    ensures Calm(s, Cancelled(c, s, now))
  {
    if s.mode == Preparing && s.preparingChange {
    } else if s.mode == Filling && s.originDelayed {
    } else if s.mode == Preparing || s.mode == Filling {
      assert !Streaming(StartReturn(c, s, false, now));
    }
  }

  lemma CalmCancel(c: Config, s: State, now: i64)
    requires ModesOk(s)
    ensures Calm(s, DoCancel(c, s, now))
  {
    hide Cancelled, Observe;
    CalmClock(s, now);
    CalmCancelled(c, Observe(s, now), now);
  }

  lemma CalmDeactivate(c: Config, s: State, now: i64)
    requires ModesOk(s)
    ensures Calm(s, DoDeactivate(c, s, now))
  {
    hide Observe;
    CalmClock(s, now);
    var s1 := Observe(s, now);
    if s1.mode == Bypass || s1.mode == Returning || s1.mode == Failed {
    } else if Streaming(s1) {
    } else {
      assert !s1.originDelayed;
    }
  }

  lemma CalmControl(c: Config, s: State, op: Op, n: nat)
    requires ModesOk(s) && !op.Push? && !op.Poll? && !op.PruneNow? && !op.CommitDelayed? && !op.CommitReturn?
    ensures Step(c, s, op, n).out == [] && Calm(s, Step(c, s, op, n).state)
  {
    hide DoBeginFilling, DoChangeDelay, DoCancel, DoDeactivate, DoExternal;
    match op
    case Activate(delay, now) => CalmClock(s, now);
    case BeginFilling(now) => CalmBeginFilling(s, now);
    case ChangeDelay(delay, now) => CalmChange(c, s, delay, now);
    case Cancel(now) => CalmCancel(c, s, now);
    case Deactivate(now) => CalmDeactivate(c, s, now);
    case FinishReturn(now) => CalmClock(s, now);
    case ReportError =>
    case Recover(now) => CalmClock(s, now);
    case External(p) => CalmExternal(c, s, p);
  }

  lemma NotedQueues(s: State, p: Packet)
    requires Note(s, p).Some?
    ensures Note(s, p).value == s.(emitted := Note(s, p).value.emitted, outputDts := Note(s, p).value.outputDts,
                                   outputPts := Note(s, p).value.outputPts)
  {
  }

  lemma CalmExternal(c: Config, s: State, p: Packet)
    ensures Calm(s, DoExternal(c, s, p))
  {
    hide Note;
    var lane := Timeline(p.stream);
    var s1 := s.(known := s.known + {lane});
    if lane !in s.known && |s.known| >= c.maxStreams {
    } else if Note(s1, p).Some? {
      NotedQueues(s1, p);
    }
  }

  lemma BuiltMode(c: Config, s: State)
    requires BuildPending(c, s).Some?
    ensures BuildPending(c, s).value.mode == s.mode
  {
    hide KeptQueues, UnifiedOffsets, Merge, AllOrdered, LiveCut;
  }

  lemma CalmCommitDelayed(c: Config, s: State, now: i64, left: map<StreamKey, i64>)
    requires ModesOk(s) && (s.mode == Filling ==> DoCommitDelayed(c, s, now, left).mode != Delayed)
    ensures Calm(s, DoCommitDelayed(c, s, now, left))
  {
    hide ApplyPlan, BeginEpoch, PlanReady, Observe, Regresses;
    CalmClock(s, now);
  }

  lemma CalmCommitReturn(c: Config, s: State, now: i64, left: map<StreamKey, i64>)
    requires ModesOk(s)
    ensures Calm(s, DoCommitReturn(c, s, now, left))
  {
    hide BuildPending, ReturnReady, Observe, Regresses;
    CalmClock(s, now);
    var s1 := Observe(s, now);
    if s1.mode == Returning && BuildPending(c, s1).Some? {
      BuiltMode(c, s1);
    }
  }

  lemma CalmCommits(c: Config, s: State, op: Op, n: nat)
    requires ModesOk(s) && (op.CommitDelayed? || op.CommitReturn?) && !Commits(s, op, Step(c, s, op, n).state)
    ensures Step(c, s, op, n).out == [] && Calm(s, Step(c, s, op, n).state)
  {
    hide DoCommitDelayed, DoCommitReturn;
    match op
    case CommitDelayed(now, left) => CalmCommitDelayed(c, s, now, left);
    case CommitReturn(now, left) => CalmCommitReturn(c, s, now, left);
  }

  // ---------------------------------------------------------------------
  // Packets that leave live

  lemma {:induction false} NotDelayedOut(out: seq<Output>, k: StreamKey)
    requires AllDelayed(out, false)
    ensures LaneOut(out, k) == []
  {
    if out != [] {
      NotDelayedOut(out[1..], k);
    }
  }

  lemma PrepareMode(c: Config, s: State, stream: StreamKey)
    ensures var r := PrepareStream(c, s, stream);
            if r.ok then Streaming(r.state) == Streaming(s) && r.state.queues == s.queues && r.state.mode == s.mode
                         && Retention(c, r.state) == Retention(c, s)
            else r.state.mode == Failed
  {
    hide HasOldGeneration;
    if Timeline(stream) !in s.known && |s.known| >= c.maxStreams {
    } else if HasOldGeneration(s.(known := s.known + {Timeline(stream)}), stream) {
    } else {
    }
  }

  lemma LiveStays(c: Config, s: State, p: Packet)
    requires !Streaming(s)
    ensures !Streaming(RetimestampLive(c, s, p).state)
  {
    hide EpochOffset, PrepareStream;
    PrepareMode(c, s, p.stream);
  }

  lemma PendingStays(c: Config, s: State, now: i64, bound: nat)
    requires c.Valid() && Ok(c, s, bound) && s.returnCommitted
    ensures !Streaming(DrainPending(s, now).state) && AllDelayed(DrainPending(s, now).out, false)
  {
    OkDrainPending(c, s, now, bound);
    PendingMode(s, now);
  }

  lemma {:induction false} PendingMode(s: State, now: i64)
    requires s.mode == Returning && s.returnCommitted
    ensures var r := DrainPending(s, now).state;
            r.mode == Failed || (r.mode == Returning && r.returnCommitted)
    decreases |s.pending|
  {
    if s.pending != [] {
      var one := Emit(s.(pending := s.pending[1..]), s.pending[0], now, false, ReturnRegression, ReturnRegression);
      if one.out != [] {
        PendingMode(one.state, now);
      }
    }
  }

  lemma DecodableKeeps(s: State, r: State, k: StreamKey, t: LaneTrace, hist: seq<Queued>, out: seq<Output>)
    requires Decodable(t) && !Streaming(r) && t.hist <= hist && LaneOut(out, k) == []
    ensures Links(r, k, LaneTrace(hist, t.out + LaneOut(out, k)))
  {
    assert t.out + [] == t.out;
    DecodableGrows(t, hist);
  }

  // ---------------------------------------------------------------------
  // Pushing into the buffer

  lemma PruneSame(c: Config, s: State, r: State, now: i64)
    requires r.queues == s.queues && Retention(c, r) == Retention(c, s)
    ensures Prune(c, r, now).queues == Prune(c, s, now).queues
  {
  }

  lemma EnqueueQueues(c: Config, s: State, p: Packet, now: i64, n: nat)
    requires Enqueue(c, s, p, now, n).ok
    ensures var r := Enqueue(c, s, p, now, n).state;
            && r.queues == Appended(if s.mode == Returning then s.queues else Prune(c, s, now).queues, NewItem(c, p, now, n))
            && Streaming(r) == Streaming(s) && r.mode == s.mode && Retention(c, r) == Retention(c, s)
  {
    hide PrepareStream, Place, Prune, Streaming, Retention;
    PrepareMode(c, s, p.stream);
    var prepared := PrepareStream(c, s, p.stream).state;
    PlaceQueues(c, prepared, p, now, n);
    PruneSame(c, s, prepared, now);
  }

  lemma PlaceQueues(c: Config, s: State, p: Packet, now: i64, n: nat)
    requires Place(c, s, p, now, n).ok
    ensures var r := Place(c, s, p, now, n).state;
            && r.queues == Appended(if s.mode == Returning then s.queues else Prune(c, s, now).queues, NewItem(c, p, now, n))
            && Streaming(r) == Streaming(s) && r.mode == s.mode && Retention(c, r) == Retention(c, s)
  {
    hide Place, WithOffset, Prune, Append, Streaming, Retention;
    PlaceIs(c, s, p, now, n);
    var based := WithOffset(s, p).value;
    BasedSame(c, s, p);
    PruneSame(c, s, based, now);
    var room := if s.mode == Returning then based else Prune(c, based, now);
    var dts := Ordering(based, p).value;
    if s.mode != Returning {
      PrunedSame(c, based, now);
    }
    AppendedSame(c, room, p, now, n, dts);
  }

  lemma PlaceIs(c: Config, s: State, p: Packet, now: i64, n: nat)
    requires Place(c, s, p, now, n).ok
    ensures WithOffset(s, p).Some? && Ordering(WithOffset(s, p).value, p).Some?
    ensures var based := WithOffset(s, p).value;
            Place(c, s, p, now, n).state
              == Append(c, if s.mode == Returning then based else Prune(c, based, now), p, now, n, Ordering(based, p).value)
  {
    hide WithOffset, Ordering, OverCapacity, Prune, Append, EnterError;
  }

  lemma BasedSame(c: Config, s: State, p: Packet)
    requires WithOffset(s, p).Some?
    ensures var r := WithOffset(s, p).value;
            && r == s.(offsets := r.offsets) && r.queues == s.queues && r.mode == s.mode
            && Streaming(r) == Streaming(s) && Retention(c, r) == Retention(c, s)
  {
    hide EpochOffset;
  }

  lemma PrunedSame(c: Config, s: State, now: i64)
    ensures var r := Prune(c, s, now);
            Streaming(r) == Streaming(s) && r.mode == s.mode && Retention(c, r) == Retention(c, s)
  {
    hide PruneQueue;
  }

  lemma AppendedSame(c: Config, s: State, p: Packet, now: i64, n: nat, dts: Horizon)
    ensures var r := Append(c, s, p, now, n, dts);
            && r.queues == Appended(s.queues, NewItem(c, p, now, n)) && r.mode == s.mode
            && Streaming(r) == Streaming(s) && Retention(c, r) == Retention(c, s)
  {
  }

  function History(t: LaneTrace, k: StreamKey, x: Queued): LaneTrace {
    if x.packet.stream == k then LaneTrace(t.hist + [x], t.out) else t
  }

  lemma EnqueueLinks(c: Config, s: State, p: Packet, now: i64, n: nat, k: StreamKey, t: LaneTrace)
    requires c.requireKeyframe && k.kind == Video && Ok(c, s, n)
    requires Streaming(s) && Decodable(t) && Linked(Lane(s, k), t) && Enqueue(c, s, p, now, n).ok
    ensures var u := History(t, k, NewItem(c, p, now, n));
            Decodable(u) && Linked(Lane(Enqueue(c, s, p, now, n).state, k), u)
  {
    hide Enqueue, Prune;
    EnqueueQueues(c, s, p, now, n);
    PruneLinks(c, s, now, k, t, n);
    var before := if s.mode == Returning then Lane(s, k) else Lane(Prune(c, s, now), k);
    if p.stream == k {
      LinkedAppend(before, t, NewItem(c, p, now, n));
    }
  }

  // ---------------------------------------------------------------------
  // One operation, then every run

  /** The trace of a lane of the old cut after one more operation. */
  ghost function Grown(c: Config, t: LaneTrace, k: StreamKey, s: State, op: Op, n: nat): LaneTrace {
    LaneTrace(if op.Push? && op.packet.stream == k then t.hist + [NewItem(c, op.packet, op.now, n)] else t.hist,
              t.out + LaneOut(Step(c, s, op, n).out, k))
  }

  lemma DrainAndPruneLinks(c: Config, s: State, now: i64, k: StreamKey, t: LaneTrace, bound: nat)
    requires c.Valid() && c.requireKeyframe && k.kind == Video && Ok(c, s, bound)
    requires Streaming(s) && Decodable(t) && Linked(Lane(s, k), t)
    ensures var r := DrainAndPrune(c, s, now);
            Links(r.state, k, LaneTrace(t.hist, t.out + LaneOut(r.out, k)))
  {
    hide Drain, Prune, Ok, Decodable, Linked;
    var drained := Drain(c, s, now);
    DrainedLinks(c, s, now, k, t, bound);
    OkDrain(c, s, now, bound);
    if drained.state.mode == Delayed {
      OkLanes(c, drained.state, bound);
      PruneLinks(c, drained.state, now, k, LaneTrace(t.hist, t.out + LaneOut(drained.out, k)), bound);
    }
  }

  lemma OkLanes(c: Config, s: State, bound: nat)
    requires Ok(c, s, bound)
    ensures LanesOk(c, s.queues, bound, s.lastObserved) && ModesOk(s)
  {
  }

  lemma DrainedLinks(c: Config, s: State, now: i64, k: StreamKey, t: LaneTrace, bound: nat)
    requires c.Valid() && Ok(c, s, bound) && Streaming(s) && Decodable(t) && Linked(Lane(s, k), t)
    ensures Links(Drain(c, s, now).state, k, LaneTrace(t.hist, t.out + LaneOut(Drain(c, s, now).out, k)))
  {
    DrainLinks(c, s, now, Packets(s) + 1, k, t, bound);
  }

  lemma PruneKeepsStreaming(c: Config, s: State, now: i64)
    ensures Streaming(Prune(c, s, now)) == Streaming(s) && Prune(c, s, now).mode == s.mode
  {
    hide PruneQueue;
  }

  lemma PollLinks(c: Config, s: State, now: i64, k: StreamKey, t: LaneTrace, bound: nat)
    requires c.Valid() && c.requireKeyframe && k.kind == Video && Ok(c, s, bound) && Links(s, k, t)
    ensures var r := DoPoll(c, s, now);
            Links(r.state, k, LaneTrace(t.hist, t.out + LaneOut(r.out, k)))
  {
    hide Drain, DrainAndPrune, DrainPending, Prune, Ok, Decodable, Linked, Observe, Regresses;
    OkLanes(c, s, bound);
    CalmClock(s, now);
    var s1 := Observe(s, now);
    OkClock(c, s, now, bound);
    CalmLinks(s, s1, k, t);
    assert t.out + [] == t.out;
    if !Regresses(s, now) {
      if s1.mode == Returning && s1.returnCommitted {
        PendingStays(c, s1, now, bound);
        NotDelayedOut(DrainPending(s1, now).out, k);
        DecodableKeeps(s1, DrainPending(s1, now).state, k, t, t.hist, DrainPending(s1, now).out);
      } else if Streaming(s1) {
        DrainedLinks(c, s1, now, k, t, bound);
        DrainAndPruneLinks(c, s1, now, k, t, bound);
        OkLanes(c, s1, bound);
        PruneLinks(c, s1, now, k, t, bound);
        PruneKeepsStreaming(c, s1, now);
      } else {
        OkLanes(c, s1, bound);
        PruneKeepsStreaming(c, s1, now);
      }
    }
  }

  lemma PushLinks(c: Config, s: State, p: Packet, now: i64, n: nat, k: StreamKey, t: LaneTrace)
    requires c.Valid() && c.requireKeyframe && k.kind == Video && Ok(c, s, n) && Links(s, k, t)
    ensures Links(DoPush(c, s, p, now, n).state, k, Grown(c, t, k, s, Push(p, now), n))
  {
    hide PushBuffered, PushCommitted, Bypassed, RetimestampLive, Ok, Decodable, Linked, Observe, Regresses;
    OkLanes(c, s, n);
    OkClock(c, s, now, n);
    CalmClock(s, now);
    var s1 := Observe(s, now);
    var u := History(t, k, NewItem(c, p, now, n));
    OkLanes(c, s1, n);
    if Regresses(s, now) {
      assert !Streaming(s1);
      LiveStays(c, s1, p);
      LiveOnly(c, s1, p, now, n, k, t, RetimestampLive(c, s1, p).state, u.hist);
    } else if PassesLive(s1) {
      BypassStays(c, s1, p, now, n, FailOpenTimestamps);
      LiveOnly(c, s1, p, now, n, k, t, Bypassed(c, s1, p, now, n, FailOpenTimestamps).state, u.hist);
    } else if s1.mode == Returning && s1.returnCommitted {
      CommittedLinks(c, s1, p, now, n, k, t, u.hist);
    } else {
      CalmLinks(s, s1, k, t);
      assert t.out + [] == t.out;
      StartModes(s1);
      BufferedLinks(c, s1, p, now, n, k, t);
    }
  }

  lemma LiveOnly(c: Config, s: State, p: Packet, now: i64, n: nat, k: StreamKey, t: LaneTrace, r: State, hist: seq<Queued>)
    requires Decodable(t) && !Streaming(r) && t.hist <= hist
    ensures forall q: Packet :: Links(r, k, LaneTrace(hist, t.out + LaneOut([Output(q, now, now, n, false)], k)))
  {
    forall q: Packet ensures Links(r, k, LaneTrace(hist, t.out + LaneOut([Output(q, now, now, n, false)], k))) {
      NotDelayedOut([Output(q, now, now, n, false)], k);
      DecodableKeeps(s, r, k, t, hist, [Output(q, now, now, n, false)]);
    }
  }

  lemma BypassStays(c: Config, s: State, p: Packet, now: i64, n: nat, fault: Fault)
    requires !Streaming(s)
    ensures var r := Bypassed(c, s, p, now, n, fault);
            !Streaming(r.state) && |r.out| == 1 && r.out == [Output(r.out[0].packet, now, now, n, false)]
  {
    hide RetimestampLive;
    LiveStays(c, s, p);
  }

  lemma CommittedLinks(c: Config, s: State, p: Packet, now: i64, n: nat, k: StreamKey, t: LaneTrace, hist: seq<Queued>)
    requires c.Valid() && Ok(c, s, n) && s.returnCommitted && Decodable(t) && t.hist <= hist
    ensures var r := PushCommitted(c, s, p, now, n);
            Links(r.state, k, LaneTrace(hist, t.out + LaneOut(r.out, k)))
  {
    hide Bypassed, DrainPending, Decodable, Ok;
    PendingStays(c, s, now, n);
    var drained := DrainPending(s, now);
    BypassStays(c, drained.state, p, now, n, LiveTimestamps);
    var r := PushCommitted(c, s, p, now, n);
    NotDelayedOut(r.out, k);
    DecodableKeeps(s, r.state, k, t, hist, r.out);
  }

  lemma BufferedLinks(c: Config, s: State, p: Packet, now: i64, n: nat, k: StreamKey, t: LaneTrace)
    requires c.Valid() && c.requireKeyframe && k.kind == Video && Ok(c, s, n) && Links(s, k, t)
    requires Buffering(s) && !s.returnCommitted && s.lastObserved == Some(now)
    ensures var r := PushBuffered(c, s, p, now, n);
            Links(r.state, k, LaneTrace(History(t, k, NewItem(c, p, now, n)).hist, t.out + LaneOut(r.out, k)))
  {
    hide Enqueue, Drain, Prune, Ok, DrainAndPrune, Bypassed, ObserveReturnKey, Decodable, Linked;
    var x := NewItem(c, p, now, n);
    var u := History(t, k, x);
    DecodableGrows(t, u.hist);
    var queued := Enqueue(c, s, p, now, n);
    OkEnqueue(c, s, p, now, n);
    assert u.out + [] == u.out;
    if !queued.ok {
      RejectFails(c, s, p, now, n);
      BypassStays(c, queued.state, p, now, n, FailOpenTimestamps);
      LiveOnly(c, queued.state, p, now, n, k, t, Bypassed(c, queued.state, p, now, n, FailOpenTimestamps).state, u.hist);
    } else {
      EnqueueQueues(c, s, p, now, n);
      if Streaming(s) {
        EnqueueLinks(c, s, p, now, n, k, t);
        AcceptedLinks(c, s, queued.state, x, now, n, k, u);
      } else {
        PruneKeepsStreaming(c, queued.state, now);
        ObserveSame(c, queued.state, x);
      }
    }
  }

  lemma ObserveSame(c: Config, s: State, x: Queued)
    ensures var r := ObserveReturnKey(c, s, x);
            Streaming(r) == Streaming(s) && r.queues == s.queues
  {
  }

  lemma RejectFails(c: Config, s: State, p: Packet, now: i64, n: nat)
    requires !Enqueue(c, s, p, now, n).ok
    ensures Enqueue(c, s, p, now, n).state.mode == Failed
  {
    hide PrepareStream, EpochOffset, OverCapacity, Prune, Ordering;
    PrepareMode(c, s, p.stream);
  }

  lemma AcceptedLinks(c: Config, s: State, r: State, x: Queued, now: i64, n: nat, k: StreamKey, u: LaneTrace)
    requires c.Valid() && c.requireKeyframe && k.kind == Video && Ok(c, r, n + 1)
    requires Streaming(r) && Decodable(u) && Linked(Lane(r, k), u)
    ensures var d := Drain(c, Prune(c, r, now), now);
            Links(d.state, k, LaneTrace(u.hist, u.out + LaneOut(d.out, k)))
    ensures Links(Prune(c, r, now), k, u)
    ensures var d := DrainAndPrune(c, r, now);
            Links(d.state, k, LaneTrace(u.hist, u.out + LaneOut(d.out, k)))
    ensures var d := Drain(c, ObserveReturnKey(c, r, x), now);
            r.mode == Returning ==> Links(d.state, k, LaneTrace(u.hist, u.out + LaneOut(d.out, k)))
    ensures Links(ObserveReturnKey(c, r, x), k, u)
  {
    hide Drain, Prune, Ok, DrainAndPrune, ObserveReturnKey, Decodable, Linked;
    OkLanes(c, r, n + 1);
    OkPrune(c, r, now, n + 1);
    PruneLinks(c, r, now, k, u, n + 1);
    PruneKeepsStreaming(c, r, now);
    DrainedLinks(c, Prune(c, r, now), now, k, u, n + 1);
    DrainAndPruneLinks(c, r, now, k, u, n + 1);
    ObserveSame(c, r, x);
    if r.mode == Returning {
      QuietObserveKey(c, r, x, n + 1);
      DrainedLinks(c, ObserveReturnKey(c, r, x), now, k, u, n + 1);
    }
  }

  lemma PruneNowLinks(c: Config, s: State, now: i64, k: StreamKey, t: LaneTrace, bound: nat)
    requires c.Valid() && c.requireKeyframe && k.kind == Video && Ok(c, s, bound) && Links(s, k, t)
    ensures Links(if Regresses(s, now) then Observe(s, now) else Prune(c, Observe(s, now), now), k, t)
  {
    hide Prune, Ok, Decodable, Linked, Observe, Regresses;
    OkLanes(c, s, bound);
    OkClock(c, s, now, bound);
    CalmClock(s, now);
    var s1 := Observe(s, now);
    OkLanes(c, s1, bound);
    PruneKeepsStreaming(c, s1, now);
    if Streaming(s1) {
      PruneLinks(c, s1, now, k, t, bound);
    }
  }

  /** A traced lane stays decodable through any operation that does not commit a new cut. */
  lemma GrownLinks(c: Config, s: State, op: Op, n: nat, k: StreamKey, t: LaneTrace)
    requires c.Valid() && c.requireKeyframe && k.kind == Video && Ok(c, s, n) && Links(s, k, t)
    requires !Commits(s, op, Step(c, s, op, n).state)
    ensures Links(Step(c, s, op, n).state, k, Grown(c, t, k, s, op, n))
  {
    hide DoPush, DoPoll, Prune, Ok, Decodable, Linked, Streaming;
    OkLanes(c, s, n);
    assert t.out + [] == t.out;
    if op.Push? {
      PushLinks(c, s, op.packet, op.now, n, k, t);
    } else if op.Poll? {
      PollLinks(c, s, op.now, k, t, n);
    } else if op.PruneNow? {
      PruneNowLinks(c, s, op.now, k, t, n);
    } else if op.CommitDelayed? || op.CommitReturn? {
      CalmCommits(c, s, op, n);
      CalmLinks(s, Step(c, s, op, n).state, k, t);
    } else {
      CalmControl(c, s, op, n);
      CalmLinks(s, Step(c, s, op, n).state, k, t);
    }
  }

  /** Every video lane of a committed cut opens on a keyframe. */
  lemma CommitLinks(c: Config, s: State, op: Op, n: nat, k: StreamKey)
    requires c.requireKeyframe && k.kind == Video && Ok(c, s, n) && Commits(s, op, Step(c, s, op, n).state)
    requires k in Step(c, s, op, n).state.queues
    ensures Links(Step(c, s, op, n).state, k, LaneTrace(Step(c, s, op, n).state.queues[k], []))
  {
    hide DoCommitDelayed, ApplyPlan, Observe, Ok;
    CommittedQueues(c, s, op.now, op.leftover);
    CutStartsOnKey(c, s, op.now, n, k);
  }

  lemma CommittedQueues(c: Config, s: State, now: i64, left: map<StreamKey, i64>)
    requires s.mode == Filling && DoCommitDelayed(c, s, now, left).mode == Delayed
    ensures DoCommitDelayed(c, s, now, left).queues == ApplyPlan(c, s.(lastObserved := Some(now)), now).queues
  {
    hide PlanReady, BeginEpoch, ApplyPlan, EnterError;
    ErrorHolds(s, ClockRegression);
    var cut := ApplyPlan(c, s.(lastObserved := Some(now)), now);
    EpochKeepsLanes(cut);
    EpochFails(cut, left);
    if !Regresses(s, now) {
      assert Observe(s, now) == s.(lastObserved := Some(now));
    }
  }

  lemma EpochFails(s: State, left: map<StreamKey, i64>)
    ensures EnterError(s.(offsets := left), DelayedEpoch).mode == Failed
  {
  }

  lemma CutStartsOnKey(c: Config, s: State, now: i64, n: nat, k: StreamKey)
    requires c.requireKeyframe && k.kind == Video && Ok(c, s, n)
    requires k in ApplyPlan(c, s.(lastObserved := Some(now)), now).queues
    ensures var q := ApplyPlan(c, s.(lastObserved := Some(now)), now).queues[k]; q != [] && q[0].packet.keyframe
  {
    hide Continuous, Due;
    var q := s.queues[k];
    assert LaneOk(c, k, q, n, s.lastObserved);
    assert LaneStart(c, q, now, s.target).Some?;
  }

  lemma EpochKeepsLanes(s: State)
    ensures BeginEpoch(s).Some? ==> BeginEpoch(s).value.queues == s.queues
  {
    hide UnifiedOffsets, Ordering;
  }

  datatype TracedRun = TracedRun(run: Run, traces: Traces)

  ghost function PlayTraced(c: Config, ops: seq<Op>): TracedRun {
    if ops == [] then TracedRun(Play(c, []), map[])
    else
      var before := PlayTraced(c, ops[..|ops| - 1]);
      var op := ops[|ops| - 1];
      TracedRun(Played(c, before.run, op), Traced(c, before.traces, before.run.state, op, before.run.next))
  }

  ghost predicate TracesOk(s: State, tr: Traces) {
    forall k :: k in tr ==> k.kind == Video && Links(s, k, tr[k])
  }

  lemma TracedStep(c: Config, s: State, op: Op, n: nat, tr: Traces)
    requires c.Valid() && c.requireKeyframe && Ok(c, s, n) && TracesOk(s, tr)
    ensures TracesOk(Step(c, s, op, n).state, Traced(c, tr, s, op, n))
  {
    hide Step, Ok, Links;
    var r := Step(c, s, op, n);
    var next := Traced(c, tr, s, op, n);
    forall k | k in next ensures k.kind == Video && Links(r.state, k, next[k]) {
      if Commits(s, op, r.state) {
        CommitLinks(c, s, op, n, k);
      } else {
        GrownLinks(c, s, op, n, k, tr[k]);
      }
    }
  }

  lemma {:induction false} EveryRunTraced(c: Config, ops: seq<Op>)
    requires c.Valid() && c.requireKeyframe
    ensures PlayTraced(c, ops).run == Play(c, ops) && TracesOk(Play(c, ops).state, PlayTraced(c, ops).traces)
  {
    hide Traced, Played, TracesOk;
    if ops == [] {
      NoTraces(Play(c, []).state);
    } else {
      var before := PlayTraced(c, ops[..|ops| - 1]);
      EveryRunTraced(c, ops[..|ops| - 1]);
      EveryRunConserves(c, ops[..|ops| - 1]);
      TracedPlayed(c, before.run, ops[|ops| - 1], before.traces);
    }
  }

  lemma NoTraces(s: State)
    ensures TracesOk(s, map[])
  {
  }

  lemma TracedPlayed(c: Config, r: Run, op: Op, tr: Traces)
    requires c.Valid() && c.requireKeyframe && Conserved(c, r) && TracesOk(r.state, tr)
    ensures TracesOk(Played(c, r, op).state, Traced(c, tr, r.state, op, r.next))
  {
    TracedStep(c, r.state, op, r.next, tr);
  }

  /** In every run each video lane of the latest cut has left decodable output. */
  lemma EveryRunDecodable(c: Config, ops: seq<Op>, k: StreamKey)
    requires c.Valid() && c.requireKeyframe && k in PlayTraced(c, ops).traces
    ensures Decodable(PlayTraced(c, ops).traces[k])
    ensures var t := PlayTraced(c, ops).traces[k]; t.out != [] ==> t.out[0].packet.keyframe
  {
    EveryRunTraced(c, ops);
    var t := PlayTraced(c, ops).traces[k];
    if t.out != [] {
      assert Continues(t, 0);
      var a: nat :| Follows(t, 0, a);
    }
  }
}
