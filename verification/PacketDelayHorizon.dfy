/** A new epoch starts above everything the run put out before. */
module PacketDelayHorizon {
  // The horizons of a lane are never below what was noted on it: its delayed and returned packets, its live
  // packets that could be retimestamped, and its external outputs.

  import opened Options
  import opened Timestamps
  import opened PacketTypes
  import opened PacketDelaySpec
  import opened PacketDelayStep
  import opened PacketDelayInvariant
  import opened PacketDelayMerge
  import opened PacketDelayKeep
  import opened PacketDelayRun
  import opened PacketDelayDecode
  import opened PacketDelayEpoch
  import opened PacketDelayReturn
  import opened PacketDelayResults
  import opened PacketDelayLive

  /** What a state remembers of its outputs. */
  datatype Memory = Memory(emitted: Option<Horizon>, dts: map<StreamKey, Horizon>, pts: map<StreamKey, Horizon>)

  function Of(s: State): Memory { Memory(s.emitted, s.outputDts, s.outputPts) }

  predicate Below(a: Horizon, b: Horizon) { Le(a.value, a.tb.den, b.value, b.tb.den) }

  /** Valid time bases, and no lane's DTS above the last one. */
  ghost predicate Tidy(m: Memory) {
    && (m.emitted.Some? ==> m.emitted.value.tb.Valid())
    && m.dts.Keys == m.pts.Keys
    && (forall k :: k in m.dts ==> m.dts[k].tb.Valid() && m.pts[k].tb.Valid() && m.emitted.Some? && Below(m.dts[k], m.emitted.value))
  }

  /** Neither timestamp of a packet is above its lane's horizons. */
  ghost predicate Behind(m: Memory, p: Packet) {
    var k := Timeline(p.stream);
    && p.tb.Valid() && k in m.dts && k in m.pts
    && Below(Horizon(p.dts, p.tb), m.dts[k]) && Below(Horizon(p.pts, p.tb), m.pts[k])
  }

  ghost predicate Advances(m: Memory, r: Memory) {
    && (forall k :: k in m.dts ==> k in r.dts && Below(m.dts[k], r.dts[k]))
    && (forall k :: k in m.pts ==> k in r.pts && Below(m.pts[k], r.pts[k]))
  }

  /** The horizons only advance, past all of the packets. */
  ghost predicate Marks(m: Memory, ps: seq<Packet>, r: Memory) {
    Tidy(m) ==> Tidy(r) && Advances(m, r) && forall i :: 0 <= i < |ps| ==> Behind(r, ps[i])
  }

  lemma BelowThen(a: Horizon, b: Horizon, d: Horizon)
    requires a.tb.den > 0 && b.tb.den > 0 && d.tb.den > 0 && Below(a, b) && Below(b, d)
    ensures Below(a, d)
  {
    LeTransitive(a.value, a.tb.den, b.value, b.tb.den, d.value, d.tb.den);
  }

  lemma BehindThen(m: Memory, p: Packet, r: Memory)
    requires Tidy(m) && Tidy(r) && Behind(m, p) && Advances(m, r)
    ensures Behind(r, p)
  {
    var k := Timeline(p.stream);
    BelowThen(Horizon(p.dts, p.tb), m.dts[k], r.dts[k]);
    BelowThen(Horizon(p.pts, p.tb), m.pts[k], r.pts[k]);
  }

  lemma AdvancesThen(a: Memory, b: Memory, d: Memory)
    requires Tidy(a) && Tidy(b) && Tidy(d) && Advances(a, b) && Advances(b, d)
    ensures Advances(a, d)
  {
    hide Below;
    forall k | k in a.dts ensures k in d.dts && Below(a.dts[k], d.dts[k]) && k in d.pts && Below(a.pts[k], d.pts[k]) {
      BelowThen(a.dts[k], b.dts[k], d.dts[k]);
      BelowThen(a.pts[k], b.pts[k], d.pts[k]);
    }
  }

  lemma MarksThen(a: Memory, ps: seq<Packet>, b: Memory, qs: seq<Packet>, d: Memory)
    requires Marks(a, ps, b) && Marks(b, qs, d)
    ensures Marks(a, ps + qs, d)
  {
    hide Behind, Advances, Tidy;
    if Tidy(a) {
      AdvancesThen(a, b, d);
      var all := ps + qs;
      forall i | 0 <= i < |all| ensures Behind(d, all[i]) {
        if i < |ps| {
          assert all[i] == ps[i];
          BehindThen(b, ps[i], d);
        } else {
          assert all[i] == qs[i - |ps|];
        }
      }
    }
  }

  lemma MarksNothing(m: Memory)
    ensures Marks(m, [], m)
  {
  }

  /** A noted packet becomes its lane's DTS horizon, and its PTS horizon if that is higher. */
  lemma NoteMarks(s: State, p: Packet)
    requires Note(s, p).Some?
    ensures Marks(Of(s), [p], Of(Note(s, p).value))
  {
    var m, r := Of(s), Of(Note(s, p).value);
    if Tidy(m) {
      var lane := Timeline(p.stream);
      var h := Horizon(p.dts, p.tb);
      if m.emitted.Some? {
        CmpFlip(p.dts, p.tb.den, m.emitted.value.value, m.emitted.value.tb.den);
        forall k | k in m.dts ensures Below(m.dts[k], h) {
          BelowThen(m.dts[k], m.emitted.value, h);
        }
      }
      if lane in m.pts {
        CmpFlip(p.pts, p.tb.den, m.pts[lane].value, m.pts[lane].tb.den);
      }
    }
  }

  // ---------------------------------------------------------------------
  // What leaves the horizons alone

  lemma ErrorOf(s: State, fault: Fault)
    ensures Of(EnterError(s, fault)) == Of(s)
  {
  }

  lemma ObserveOf(s: State, now: i64)
    ensures Of(Observe(s, now)) == Of(s)
  {
    if Regresses(s, now) {
    }
  }

  lemma PruneOf(c: Config, s: State, now: i64)
    ensures Of(Prune(c, s, now)) == Of(s)
  {
    hide PruneQueue;
  }

  lemma PrepareOf(c: Config, s: State, stream: StreamKey)
    ensures Of(PrepareStream(c, s, stream).state) == Of(s)
  {
    hide HasOldGeneration, EnterError;
    ErrorOf(s, TooManyTimelines);
    ErrorOf(s.(known := s.known + {Timeline(stream)}), GenerationChanged);
  }

  lemma OffsetOf(s: State, p: Packet)
    ensures WithOffset(s, p).Some? ==> Of(WithOffset(s, p).value) == Of(s)
  {
    hide EpochOffset;
  }

  lemma AppendOf(c: Config, s: State, p: Packet, now: i64, n: nat, dts: Horizon)
    ensures Of(Append(c, s, p, now, n, dts)) == Of(s)
  {
    hide NewItem, EpochActive;
  }

  lemma PlaceOf(c: Config, s: State, p: Packet, now: i64, n: nat)
    ensures Of(Place(c, s, p, now, n).state) == Of(s)
  {
    hide EpochOffset, OverCapacity, Prune, Ordering, Append, EnterError, WithOffset, Of;
    OffsetOf(s, p);
    ErrorOf(s, NewStreamOffset);
    var based := WithOffset(s, p);
    if based.Some? {
      ErrorOf(based.value, OrderingOverflow);
      var dts := Ordering(based.value, p);
      if dts.Some? {
        PruneOf(c, based.value, now);
        var room := if s.mode == Returning then based.value else Prune(c, based.value, now);
        ErrorOf(room, Capacity);
        AppendOf(c, room, p, now, n, dts.value);
      }
    }
  }

  lemma EnqueueOf(c: Config, s: State, p: Packet, now: i64, n: nat)
    ensures Of(Enqueue(c, s, p, now, n).state) == Of(s)
  {
    hide PrepareStream, Place, EnterError, Of;
    PrepareOf(c, s, p.stream);
    var prepared := PrepareStream(c, s, p.stream);
    PlaceOf(c, prepared.state, p, now, n);
    ErrorOf(prepared.state, InvalidTimeBase);
  }

  lemma PopOf(s: State, k: StreamKey)
    requires k in s.queues && s.queues[k] != []
    ensures Of(PopFront(s, k)) == Of(s) && Of(GateErases(s, k)) == Of(s) && GateErases(s, k).queues == s.queues
  {
  }

  lemma KeyOf(c: Config, s: State, item: Queued)
    ensures Of(ObserveReturnKey(c, s, item)) == Of(s)
  {
  }

  // ---------------------------------------------------------------------
  // What moves them

  function Packed(out: seq<Output>): seq<Packet> { seq(|out|, i requires 0 <= i < |out| => out[i].packet) }

  lemma PackedThen(a: seq<Output>, b: seq<Output>)
    ensures Packed(a + b) == Packed(a) + Packed(b)
  {
  }

  ghost predicate OutMarks(s: State, r: Drained) { Marks(Of(s), Packed(r.out), Of(r.state)) }

  lemma QuietMarks(s: State, r: State)
    requires Of(r) == Of(s)
    ensures OutMarks(s, Drained(r, [])) && Marks(Of(s), [], Of(r))
  {
    hide Of;
    assert Packed([]) == [];
    MarksNothing(Of(s));
  }

  lemma OutMarksThen(s: State, one: Drained, rest: Drained)
    requires OutMarks(s, one) && OutMarks(one.state, rest)
    ensures OutMarks(s, Drained(rest.state, one.out + rest.out))
  {
    hide Marks, Packed, Of;
    PackedThen(one.out, rest.out);
    MarksThen(Of(s), Packed(one.out), Of(one.state), Packed(rest.out), Of(rest.state));
  }

  lemma EmitMarks(s: State, x: Queued, now: i64, delayed: bool, overflow: Fault, regress: Fault)
    ensures OutMarks(s, Emit(s, x, now, delayed, overflow, regress))
  {
    hide EnterError, Note, Retimestamp, Marks, Of;
    ErrorOf(s, overflow);
    ErrorOf(s, regress);
    QuietMarks(s, EnterError(s, overflow));
    QuietMarks(s, EnterError(s, regress));
    if x.packet.stream in s.offsets {
      var shifted := Retimestamp(x.packet, s.offsets[x.packet.stream]);
      if shifted.Some? && Note(s, shifted.value).Some? {
        NoteMarks(s, shifted.value);
        assert Packed(Emit(s, x, now, delayed, overflow, regress).out) == [shifted.value];
      }
    }
  }

  lemma DrainLaneMarks(c: Config, s: State, now: i64, k: StreamKey)
    requires k in s.queues && s.queues[k] != [] && Ordering(s, s.queues[k][0].packet).Some?
    ensures OutMarks(s, DrainLane(c, s, now, k))
  {
    hide GateStops, GateErases, PopFront, Watermark, Ordering, Emit, Marks, EnterError, Of, Packed;
    PopOf(s, k);
    var s1 := GateErases(s, k);
    PopOf(s1, k);
    ErrorOf(s1, ReorderWindow);
    QuietMarks(s, s);
    QuietMarks(s, s1);
    QuietMarks(s, EnterError(s1, ReorderWindow));
    EmitMarks(PopFront(s1, k), s.queues[k][0], now, true, RetimestampOverflow, LatePacket);
  }

  lemma DrainOnceMarks(c: Config, s: State, now: i64)
    ensures OutMarks(s, DrainOnce(c, s, now))
  {
    hide DrainLane, Precedes, OutMarks, EnterError;
    QuietMarks(s, s);
    ErrorOf(s, InvalidQueuedTimeBase);
    QuietMarks(s, EnterError(s, InvalidQueuedTimeBase));
    if !(exists k :: k in s.active && Watching(c, s, now, k) && k !in s.latest) &&
       Ordered(s, now) && exists k :: k in s.queues && DueFront(s, now, k) {
      DrainLaneMarks(c, s, now, NextLane(s, now));
    }
  }

  lemma {:induction false} DrainMarks(c: Config, s: State, now: i64, fuel: nat)
    ensures OutMarks(s, DrainUpTo(c, s, now, fuel))
    decreases fuel
  {
    hide DrainOnce, OutMarks;
    QuietMarks(s, s);
    if fuel != 0 {
      DrainOnceMarks(c, s, now);
      var one := DrainOnce(c, s, now);
      if one.out != [] {
        DrainMarks(c, one.state, now, fuel - 1);
        OutMarksThen(s, one, DrainUpTo(c, one.state, now, fuel - 1));
      }
    }
  }

  lemma {:induction false} PendingMarks(s: State, now: i64)
    ensures OutMarks(s, DrainPending(s, now))
    decreases |s.pending|
  {
    hide Emit, OutMarks;
    QuietMarks(s, s);
    if s.pending != [] {
      var s1 := s.(pending := s.pending[1..]);
      var one := Emit(s1, s.pending[0], now, false, ReturnRegression, ReturnRegression);
      EmitMarks(s1, s.pending[0], now, false, ReturnRegression, ReturnRegression);
      SameStart(s, s1, one);
      PendingShrinks(s1, s.pending[0], now);
      if one.out != [] {
        PendingMarks(one.state, now);
        OutMarksThen(s, one, DrainPending(one.state, now));
      }
    }
  }

  lemma SameStart(s: State, s1: State, r: Drained)
    requires Of(s1) == Of(s) && OutMarks(s1, r)
    ensures OutMarks(s, r)
  {
    hide Of;
  }

  lemma PendingShrinks(s: State, x: Queued, now: i64)
    ensures var r := Emit(s, x, now, false, ReturnRegression, ReturnRegression); r.out != [] ==> r.state.pending == s.pending
  {
    if x.packet.stream in s.offsets {
      var shifted := Retimestamp(x.packet, s.offsets[x.packet.stream]);
      if shifted.Some? && Note(s, shifted.value).Some? {
        NoteSame(s, shifted.value);
      }
    }
  }

  lemma DrainAndPruneMarks(c: Config, s: State, now: i64)
    ensures OutMarks(s, DrainAndPrune(c, s, now))
  {
    hide DrainUpTo, Prune, Of;
    DrainMarks(c, s, now, Packets(s) + 1);
    PruneOf(c, Drain(c, s, now).state, now);
  }

  // ---------------------------------------------------------------------
  // Live packets

  /** A live packet is noted when it could be retimestamped; otherwise it passes as it is and the engine fails. */
  function LiveShown(live: Live): seq<Packet> { if live.ok then [live.packet] else [] }

  lemma LiveFromMarks(s: State, p: Packet)
    ensures var r := LiveFrom(s, p); Marks(Of(s), LiveShown(r), Of(r.state))
  {
    hide EpochOffset, Note, Retimestamp, Marks;
    MarksNothing(Of(s));
    var offset := if p.stream in s.offsets then Some(s.offsets[p.stream]) else EpochOffset(s, p, 0);
    if offset.Some? {
      var s1 := s.(offsets := s.offsets[p.stream := offset.value]);
      assert Of(s1) == Of(s);
      var shifted := Retimestamp(p, offset.value);
      if shifted.Some? && Note(s1, shifted.value).Some? {
        NoteMarks(s1, shifted.value);
      }
    }
  }

  lemma LiveMarks(c: Config, s: State, p: Packet)
    ensures var r := RetimestampLive(c, s, p); Marks(Of(s), LiveShown(r), Of(r.state))
  {
    hide PrepareStream, LiveFrom, Marks, Of;
    PrepareOf(c, s, p.stream);
    var prepared := PrepareStream(c, s, p.stream);
    LiveFromMarks(prepared.state, p);
    MarksNothing(Of(s));
  }

  lemma BypassMarks(c: Config, s: State, p: Packet, now: i64, n: nat, fault: Fault)
    ensures Marks(Of(s), LiveShown(RetimestampLive(c, s, p)), Of(Bypassed(c, s, p, now, n, fault).state))
  {
    hide RetimestampLive, Marks, Of, EnterError;
    LiveMarks(c, s, p);
    ErrorOf(RetimestampLive(c, s, p).state, fault);
  }

  // ---------------------------------------------------------------------
  // What a call notes

  ghost function PushShown(c: Config, s: State, p: Packet, now: i64, n: nat): seq<Packet> {
    var s1 := Observe(s, now);
    if Regresses(s, now) || PassesLive(s1) then LiveShown(RetimestampLive(c, s1, p))
    else if s1.mode == Returning && s1.returnCommitted then
      var drained := DrainPending(s1, now);
      Packed(drained.out) + LiveShown(RetimestampLive(c, drained.state, p))
    else
      var queued := Enqueue(c, s1, p, now, n);
      if queued.ok then Packed(PushBuffered(c, s1, p, now, n).out) else LiveShown(RetimestampLive(c, queued.state, p))
  }

  /** The packets that a call puts out under the watch of the horizons. */
  ghost function Shown(c: Config, s: State, op: Op, n: nat): seq<Packet> {
    match op
    case Push(p, now) => PushShown(c, s, p, now, n)
    case Poll(now) => Packed(DoPoll(c, s, now).out)
    case External(p) => if ExternalAccepted(c, s, p) then [p] else []
    case _ => []
  }

  /** All that is handed out is shown, but for a pushed packet that passes because it cannot be retimestamped. */
  lemma ShownIsOut(c: Config, s: State, op: Op, n: nat)
    requires !op.External?
    ensures var r := Step(c, s, op, n); var shown := Shown(c, s, op, n);
            || Packed(r.out) == shown
            || (op.Push? && r.state.mode == Failed && |Packed(r.out)| == |shown| + 1 && shown == Packed(r.out)[..|shown|])
  {
    hide DrainPending, Drain, DrainAndPrune, Prune, Enqueue, RetimestampLive, Observe, Regresses, EnterError, DoCommitDelayed, DoCommitReturn, DoPoll;
    if op.Push? {
      PushIsOut(c, s, op.packet, op.now, n);
    } else {
      assert Packed([]) == [];
    }
  }

  lemma PushIsOut(c: Config, s: State, p: Packet, now: i64, n: nat)
    ensures var r := DoPush(c, s, p, now, n); var shown := PushShown(c, s, p, now, n);
            || Packed(r.out) == shown
            || (r.state.mode == Failed && |Packed(r.out)| == |shown| + 1 && shown == Packed(r.out)[..|shown|])
  {
    hide DrainPending, PushBuffered, Enqueue, RetimestampLive, Bypassed;
    var s1 := Observe(s, now);
    if Regresses(s, now) {
      FailedStays(c, s1, p);
      OneOut(DoPush(c, s, p, now, n), RetimestampLive(c, s1, p), [], now, n);
    } else if PassesLive(s1) {
      BypassedOut(c, s1, p, now, n, FailOpenTimestamps);
      OneOut(DoPush(c, s, p, now, n), RetimestampLive(c, s1, p), [], now, n);
    } else if s1.mode == Returning && s1.returnCommitted {
      var drained := DrainPending(s1, now);
      BypassedOut(c, drained.state, p, now, n, LiveTimestamps);
      OneOut(DoPush(c, s, p, now, n), RetimestampLive(c, drained.state, p), drained.out, now, n);
    } else {
      BufferedOut(c, s1, p, now, n);
      var queued := Enqueue(c, s1, p, now, n);
      if !queued.ok {
        OneOut(DoPush(c, s, p, now, n), RetimestampLive(c, queued.state, p), [], now, n);
      }
    }
  }

  lemma FailedStays(c: Config, s: State, p: Packet)
    requires s.mode == Failed
    ensures RetimestampLive(c, s, p).state.mode == Failed
  {
    BypassedStays(c, s, p, 0, 0, FailOpenTimestamps);
  }

  lemma BypassedOut(c: Config, s: State, p: Packet, now: i64, n: nat, fault: Fault)
    ensures var live := RetimestampLive(c, s, p); var r := Bypassed(c, s, p, now, n, fault);
            r.out == [Output(live.packet, now, now, n, false)] && (!live.ok ==> r.state.mode == Failed)
  {
    hide RetimestampLive;
  }

  lemma BufferedOut(c: Config, s: State, p: Packet, now: i64, n: nat)
    ensures var queued := Enqueue(c, s, p, now, n);
            !queued.ok ==>
              var live := RetimestampLive(c, queued.state, p); var r := PushBuffered(c, s, p, now, n);
              r.out == [Output(live.packet, now, now, n, false)] && (!live.ok ==> r.state.mode == Failed)
  {
    hide Enqueue, Bypassed, RetimestampLive;
    BypassedOut(c, Enqueue(c, s, p, now, n).state, p, now, n, FailOpenTimestamps);
  }

  lemma OneOut(r: Drained, live: Live, before: seq<Output>, now: i64, n: nat)
    requires r.out == before + [Output(live.packet, now, now, n, false)] && (!live.ok ==> r.state.mode == Failed)
    ensures var shown := Packed(before) + LiveShown(live);
            || Packed(r.out) == shown
            || (r.state.mode == Failed && |Packed(r.out)| == |shown| + 1 && shown == Packed(r.out)[..|shown|])
    ensures before == [] ==> Packed(before) + LiveShown(live) == LiveShown(live)
  {
    PackedThen(before, [Output(live.packet, now, now, n, false)]);
    assert Packed([Output(live.packet, now, now, n, false)]) == [live.packet];
  }

  // ---------------------------------------------------------------------
  // Every call and every run

  lemma BufferedMarks(c: Config, s: State, p: Packet, now: i64, n: nat)
    requires Enqueue(c, s, p, now, n).ok
    ensures OutMarks(s, PushBuffered(c, s, p, now, n))
  {
    hide Enqueue, DrainUpTo, Prune, DrainAndPrune, OutMarks, Of, ObserveReturnKey;
    EnqueueOf(c, s, p, now, n);
    var r := Enqueue(c, s, p, now, n).state;
    PruneOf(c, r, now);
    var pruned := Prune(c, r, now);
    var keyed := ObserveReturnKey(c, r, NewItem(c, p, now, n));
    KeyOf(c, r, NewItem(c, p, now, n));
    QuietMarks(s, pruned);
    QuietMarks(s, keyed);
    if s.mode == Preparing {
      DrainMarks(c, pruned, now, Packets(pruned) + 1);
      SameStart(s, pruned, Drain(c, pruned, now));
    } else if s.mode == Delayed {
      DrainAndPruneMarks(c, r, now);
      SameStart(s, r, DrainAndPrune(c, r, now));
    } else if s.mode != Filling {
      DrainMarks(c, keyed, now, Packets(keyed) + 1);
      SameStart(s, keyed, Drain(c, keyed, now));
    }
  }

  lemma PushMarks(c: Config, s: State, p: Packet, now: i64, n: nat)
    ensures Marks(Of(s), PushShown(c, s, p, now, n), Of(DoPush(c, s, p, now, n).state))
  {
    hide PushBuffered, DrainPending, Bypassed, RetimestampLive, Observe, Marks, Regresses, Enqueue, Of, Packed;
    ObserveOf(s, now);
    var s1 := Observe(s, now);
    LiveMarks(c, s1, p);
    if Regresses(s, now) {
    } else if PassesLive(s1) {
      BypassMarks(c, s1, p, now, n, FailOpenTimestamps);
    } else if s1.mode == Returning && s1.returnCommitted {
      PendingMarks(s1, now);
      var drained := DrainPending(s1, now);
      BypassMarks(c, drained.state, p, now, n, LiveTimestamps);
      MarksThen(Of(s), Packed(drained.out), Of(drained.state), LiveShown(RetimestampLive(c, drained.state, p)),
                Of(DoPush(c, s, p, now, n).state));
    } else {
      var queued := Enqueue(c, s1, p, now, n);
      if queued.ok {
        BufferedMarks(c, s1, p, now, n);
      } else {
        RejectedMarks(c, s1, p, now, n);
      }
    }
  }

  lemma RejectedMarks(c: Config, s: State, p: Packet, now: i64, n: nat)
    requires !Enqueue(c, s, p, now, n).ok
    ensures Marks(Of(s), LiveShown(RetimestampLive(c, Enqueue(c, s, p, now, n).state, p)), Of(PushBuffered(c, s, p, now, n).state))
  {
    hide Enqueue, Bypassed, RetimestampLive, Marks, Of;
    EnqueueOf(c, s, p, now, n);
    BypassMarks(c, Enqueue(c, s, p, now, n).state, p, now, n, FailOpenTimestamps);
  }

  lemma PollMarks(c: Config, s: State, now: i64)
    ensures OutMarks(s, DoPoll(c, s, now))
  {
    hide DrainUpTo, DrainAndPrune, DrainPending, Prune, Observe, Regresses, OutMarks, Of;
    ObserveOf(s, now);
    var s1 := Observe(s, now);
    PruneOf(c, s1, now);
    QuietMarks(s, s1);
    QuietMarks(s, Prune(c, s1, now));
    if s1.mode == Delayed {
      DrainAndPruneMarks(c, s1, now);
      SameStart(s, s1, DrainAndPrune(c, s1, now));
    } else if s1.mode == Returning && s1.returnCommitted {
      PendingMarks(s1, now);
      SameStart(s, s1, DrainPending(s1, now));
    } else {
      DrainMarks(c, s1, now, Packets(s1) + 1);
      SameStart(s, s1, Drain(c, s1, now));
    }
  }

  lemma ExternalMarks(c: Config, s: State, p: Packet)
    ensures Marks(Of(s), if ExternalAccepted(c, s, p) then [p] else [], Of(DoExternal(c, s, p)))
  {
    hide Note, Marks, EnterError;
    MarksNothing(Of(s));
    var lane := Timeline(p.stream);
    var s1 := s.(known := s.known + {lane});
    ErrorOf(s, TooManyTimelines);
    ErrorOf(s1, ExternalOutput);
    AcceptedNotes(s, s1, p);
    if Note(s1, p).Some? {
      NoteMarks(s1, p);
    }
  }

  lemma AcceptedNotes(s: State, s1: State, p: Packet)
    requires s1.emitted == s.emitted
    ensures Note(s1, p).Some? <==> p.tb.Valid() && !RegressesOutput(s, p)
  {
  }

  lemma RetargetOf(s: State, delay: nat)
    ensures Of(Retarget(s, delay)) == Of(s)
  {
    if s.mode == Preparing {
    } else if s.mode == Filling {
    } else if s.mode == Delayed {
    } else {
      assert Retarget(s, delay) == s;
    }
  }

  lemma ChangeOf(c: Config, s: State, delay: int, now: i64)
    ensures Of(DoChangeDelay(c, s, delay, now)) == Of(s)
  {
    hide Observe, Regresses, Retarget;
    ObserveOf(s, now);
    if ValidDelay(c, delay) {
      RetargetOf(Observe(s, now), delay);
    }
  }

  lemma BeginOf(s: State, now: i64)
    ensures Of(DoBeginFilling(s, now)) == Of(s)
  {
    hide Observe, Regresses;
    ObserveOf(s, now);
    var s1 := Observe(s, now);
    if s1.mode == Preparing && s1.preparingChange {
    }
  }

  lemma CommitOf(c: Config, s: State, now: i64, left: map<StreamKey, i64>)
    ensures Of(DoCommitDelayed(c, s, now, left)) == Of(s)
  {
    hide Observe, Regresses, PlanReady, BeginEpoch, ApplyPlan, EnterError;
    ObserveOf(s, now);
    var cut := ApplyPlan(c, Observe(s, now), now);
    PlanKeeps(c, Observe(s, now), now);
    ErrorOf(cut.(offsets := left), DelayedEpoch);
    if BeginEpoch(cut).Some? {
      EpochKeeps(cut);
    }
  }

  lemma CancelOf(c: Config, s: State, now: i64)
    ensures Of(DoCancel(c, s, now)) == Of(s)
  {
    hide Observe, Regresses;
    ObserveOf(s, now);
    var s1 := Observe(s, now);
    if s1.mode == Preparing && s1.preparingChange {
    } else if s1.mode == Filling && s1.originDelayed {
    }
  }

  lemma ReturnOf(c: Config, s: State, now: i64, left: map<StreamKey, i64>)
    ensures Of(DoCommitReturn(c, s, now, left)) == Of(s)
  {
    hide Observe, Regresses, ReturnReady, UnifiedOffsets, KeptQueues, LiveCut, Merge, AllOrdered;
    ObserveOf(s, now);
    var s1 := Observe(s, now);
    if BuildPending(c, s1).Some? {
      assert Of(BuildPending(c, s1).value) == Of(s1);
    }
  }

  lemma ControlOf(c: Config, s: State, op: Op, n: nat)
    requires !op.Push? && !op.Poll? && !op.External?
    ensures Of(Step(c, s, op, n).state) == Of(s)
  {
    hide Observe, Regresses, Prune, DoBeginFilling, DoChangeDelay, DoCommitDelayed, DoCancel, DoCommitReturn;
    match op
    case Activate(delay, now) => ObserveOf(s, now);
    case BeginFilling(now) => BeginOf(s, now);
    case ChangeDelay(delay, now) => ChangeOf(c, s, delay, now);
    case CommitDelayed(now, left) => CommitOf(c, s, now, left);
    case Cancel(now) => CancelOf(c, s, now);
    case Deactivate(now) => ObserveOf(s, now);
    case CommitReturn(now, left) => ReturnOf(c, s, now, left);
    case FinishReturn(now) => ObserveOf(s, now);
    case ReportError => ErrorOf(s, Reported);
    case Recover(now) => ObserveOf(s, now);
    case PruneNow(now) => ObserveOf(s, now); PruneOf(c, Observe(s, now), now);
  }

  /** Every call moves the horizons past what it shows, and only forward. */
  lemma StepMarks(c: Config, s: State, op: Op, n: nat)
    ensures Marks(Of(s), Shown(c, s, op, n), Of(Step(c, s, op, n).state))
  {
    hide DoPush, DoPoll, DoExternal, PushShown, Marks, Of, DoActivate, DoBeginFilling, DoChangeDelay, DoCommitDelayed, DoCancel,
         DoDeactivate, DoCommitReturn, DoFinishReturn, DoRecover, EnterError, Prune, Observe, ExternalAccepted, Packed;
    if op.Push? {
      PushMarks(c, s, op.packet, op.now, n);
    } else if op.Poll? {
      PollMarks(c, s, op.now);
    } else if op.External? {
      ExternalMarks(c, s, op.packet);
    } else {
      ControlOf(c, s, op, n);
      MarksNothing(Of(s));
    }
  }

  /** Everything a run showed. */
  ghost function ShownBy(c: Config, ops: seq<Op>): seq<Packet> {
    if ops == [] then []
    else
      var before := Play(c, ops[..|ops| - 1]);
      ShownBy(c, ops[..|ops| - 1]) + Shown(c, before.state, ops[|ops| - 1], before.next)
  }

  /** In every reachable state no packet shown so far is above the horizons of its lane. */
  lemma {:induction false} EveryRunBehind(c: Config, ops: seq<Op>)
    ensures Tidy(Of(Play(c, ops).state))
    ensures forall i :: 0 <= i < |ShownBy(c, ops)| ==> Behind(Of(Play(c, ops).state), ShownBy(c, ops)[i])
  {
    hide Step, Shown, Behind, Tidy;
    if ops == [] {
      StartsTidy(c);
    } else {
      var init := ops[..|ops| - 1];
      EveryRunBehind(c, init);
      var before := Play(c, init);
      StepMarks(c, before.state, ops[|ops| - 1], before.next);
      MarksAfter(Of(before.state), ShownBy(c, init), Shown(c, before.state, ops[|ops| - 1], before.next), Of(Play(c, ops).state));
    }
  }

  lemma MarksAfter(m: Memory, ps: seq<Packet>, qs: seq<Packet>, r: Memory)
    requires Tidy(m) && (forall i :: 0 <= i < |ps| ==> Behind(m, ps[i])) && Marks(m, qs, r)
    ensures Tidy(r) && forall i :: 0 <= i < |ps + qs| ==> Behind(r, (ps + qs)[i])
  {
    hide Behind, Advances, Tidy;
    var all := ps + qs;
    forall i | 0 <= i < |all| ensures Behind(r, all[i]) {
      if i < |ps| {
        assert all[i] == ps[i];
        BehindThen(m, ps[i], r);
      } else {
        assert all[i] == qs[i - |ps|];
      }
    }
  }

  lemma StartsTidy(c: Config)
    ensures Tidy(Of(Initial(c)))
  {
  }

  // ---------------------------------------------------------------------
  // New epochs

  /** A packet shifted by an offset lies strictly above another one, DTS and PTS. */
  predicate Exceeds(first: Packet, offset: int, p: Packet) {
    Cmp(p.dts, p.tb.den, first.dts + offset, first.tb.den) < 0 && Cmp(p.pts, p.tb.den, first.pts + offset, first.tb.den) < 0
  }

  lemma AcceptableExceeds(s: State, first: Packet, base: int, offset: int, p: Packet)
    requires Tidy(Of(s)) && Behind(Of(s), p) && first.tb.Valid() && Acceptable(s, first, base, offset)
    requires Timeline(first.stream) == Timeline(p.stream)
    ensures Exceeds(first, offset, p)
  {
    var k := Timeline(p.stream);
    var d, t := s.outputDts[k], s.outputPts[k];
    CmpFlip(first.dts + offset, first.tb.den, d.value, d.tb.den);
    CmpFlip(first.pts + offset, first.tb.den, t.value, t.tb.den);
    LeTransitive(p.dts, p.tb.den, d.value, d.tb.den, first.dts + offset, first.tb.den);
    LeTransitive(p.pts, p.tb.den, t.value, t.tb.den, first.pts + offset, first.tb.den);
  }

  /** The first packet of each lane that goes live lies above every packet the run showed on that lane. */
  lemma ReturnExceedsRun(c: Config, ops: seq<Op>, k: StreamKey, i: nat)
    requires var r := Play(c, ops); Committing(c, r.state, r.next) && k in KeptQueues(c, r.state, LiveCut(r.state))
    requires i < |ShownBy(c, ops)| && Timeline(ShownBy(c, ops)[i].stream) == Timeline(k)
    ensures var s := Play(c, ops).state; var first := KeptQueues(c, s, LiveCut(s))[k][0].packet;
            k in Built(c, s).offsets && Exceeds(first, Built(c, s).offsets[k], ShownBy(c, ops)[i])
  {
    hide Play, KeptQueues, BuildPending, Ok, LiveCut, CutsOk, Acceptable, Tidy, Behind, Exceeds, Steady;
    var s, n := Play(c, ops).state, Play(c, ops).next;
    EveryRunBehind(c, ops);
    ReturnedAhead(c, s, k, n);
    KeptFront(c, s, k, n);
    AcceptableExceeds(s, KeptQueues(c, s, LiveCut(s))[k][0].packet, 0, Built(c, s).offsets[k], ShownBy(c, ops)[i]);
  }

  lemma KeptFront(c: Config, s: State, k: StreamKey, n: nat)
    requires Committing(c, s, n) && k in KeptQueues(c, s, LiveCut(s))
    ensures var kept := KeptQueues(c, s, LiveCut(s)); kept[k] != [] && kept[k][0].packet.stream == k && kept[k][0].packet.tb.Valid()
  {
    hide KeptQueues, BuildPending, Ok, LiveCut, CutsOk, Merges, Mergeable, UnifiedOffsets;
    BuiltMerges(c, s, n);
    assert LaneOk(c, k, KeptQueues(c, s, LiveCut(s))[k], n, s.lastObserved);
  }

  /** The first delayed packet of each lane of a committed cut lies above every packet the run showed on that lane. */
  lemma CutExceedsRun(c: Config, ops: seq<Op>, now: i64, k: StreamKey, i: nat)
    requires c.Valid() && !Regresses(Play(c, ops).state, now)
    requires var cut := ApplyPlan(c, Observe(Play(c, ops).state, now), now); BeginEpoch(cut).Some? && k in cut.queues
    requires i < |ShownBy(c, ops)| && Timeline(ShownBy(c, ops)[i].stream) == Timeline(k)
    ensures var cut := ApplyPlan(c, Observe(Play(c, ops).state, now), now); var offsets := BeginEpoch(cut).value.offsets;
            cut.queues[k] != [] && k in offsets && Exceeds(cut.queues[k][0].packet, offsets[k], ShownBy(c, ops)[i])
  {
    hide Play, ApplyPlan, BeginEpoch, Ok, Acceptable, Tidy, Behind, Exceeds, Observe, Regresses;
    var s, n := Play(c, ops).state, Play(c, ops).next;
    EveryRunBehind(c, ops);
    EveryRunConserves(c, ops);
    ConservedOk(c, Play(c, ops));
    OkClock(c, s, now, n);
    ObserveOf(s, now);
    CutAhead(c, Observe(s, now), now, k, n);
    var cut := ApplyPlan(c, Observe(s, now), now);
    PlanKeeps(c, Observe(s, now), now);
    AcceptableExceeds(cut, cut.queues[k][0].packet, DelayTicks(cut.target, cut.queues[k][0].packet.tb).value,
                      BeginEpoch(cut).value.offsets[k], ShownBy(c, ops)[i]);
  }

  lemma CutAhead(c: Config, s: State, now: i64, k: StreamKey, n: nat)
    requires Ok(c, s, n)
    requires var cut := ApplyPlan(c, s, now); BeginEpoch(cut).Some? && k in cut.queues
    ensures var cut := ApplyPlan(c, s, now); var offsets := BeginEpoch(cut).value.offsets;
            && cut.queues[k] != [] && k in offsets && cut.queues[k][0].packet.stream == k && cut.queues[k][0].packet.tb.Valid()
            && DelayTicks(cut.target, cut.queues[k][0].packet.tb).Some?
            && Acceptable(cut, cut.queues[k][0].packet, DelayTicks(cut.target, cut.queues[k][0].packet.tb).value, offsets[k])
  {
    hide ApplyPlan, UnifiedOffsets, Acceptable, LanesOk;
    PlanKeeps(c, s, now);
    PlanSuffixes(c, s, now);
    var cut := ApplyPlan(c, s, now);
    OkSuffixes(c, s, cut.queues, n);
    CutLane(c, s, cut, k, n);
    var fronts := QueueFronts(cut.queues);
    UnifiedAcceptable(cut, fronts, cut.target, k);
    UnifiedDefined(cut, fronts, cut.target);
    OffsetHasBase(cut, fronts[k], cut.target);
  }

  lemma CutLane(c: Config, s: State, cut: State, k: StreamKey, n: nat)
    requires LanesOk(c, cut.queues, n, cut.lastObserved) && k in cut.queues
    ensures cut.queues[k] != [] && cut.queues[k][0].packet.stream == k && cut.queues[k][0].packet.tb.Valid()
  {
    assert LaneOk(c, k, cut.queues[k], n, cut.lastObserved);
  }
}
