/** Hold lanes are queues. */
module SessionHoldLine {
  // What stands in for the live output while the delay fills, and while a fill is abandoned, is what the hold encoder
  // sent for the lane: in order, once each, from the first packet that the preroll kept.

  import opened Options
  import opened SessionSpec
  import opened SessionRealign
  import opened SessionDelayLine
  import opened SessionSteady
  import opened SessionBytes

  /** The hold stands in for the live output, and has not failed. */
  predicate Holding(s: State) {
    !s.errorReturn && (s.mode == Filling || (s.mode == Returning && s.fromFilling))
  }

  /** It does, or is being prepared to. */
  predicate InHold(s: State) {
    Holding(s) || (s.mode == Preparing && !s.errorReturn)
  }

  /** The lane has a packet that a live one can be exchanged for. */
  predicate Serves(s: State, p: Packet)
    requires s.Shaped()
  {
    var q := s.hold[LaneFor(p)];
    q != [] && FormatOf(q[0]) == FormatOf(p)
  }

  // ---------------------------------------------------------------------
  // One live packet

  lemma TakesFront(s: State, c: Packet)
    requires s.Shaped()
    ensures var l := LaneFor(c); var r := TakeHold(s, c);
            if Serves(s, c) then
              r.ok && !r.fallback && r.state == s.(hold := s.hold[l := s.hold[l][1..]], holdBuffered := r.state.holdBuffered)
              && SamePayload(r.carrier, s.hold[l][0])
            else
              r.state == s && (r.ok ==> r.fallback && s.holdFallback[l].Some? && SamePayload(r.carrier, s.holdFallback[l].value))
              && (!r.ok ==> r.carrier == c)
  {
  }

  lemma StartFormat(s: State, c: Packet, starting: bool)
    requires s.Shaped()
    ensures var b := StartHold(s, c, starting);
            && b.state.hold == s.hold && b.state.holdFallback == s.holdFallback && b.state.mode == s.mode
            && b.state.errorReturn == s.errorReturn && b.state.fromFilling == s.fromFilling
            && FormatOf(b.carrier) == FormatOf(c) && LaneFor(b.carrier) == LaneFor(c)
  {
    hide BeginEpoch;
    if starting && s.hold[0] != [] {
      EpochRest(s, c, s.hold[0][0]);
      EpochHold(s, c, s.hold[0][0]);
    }
  }

  lemma EpochHold(s: State, c: Packet, payload: Packet)
    ensures var r := BeginEpoch(s, c, payload).state;
            r.hold == s.hold && r.holdFallback == s.holdFallback && r.fromFilling == s.fromFilling
  {
    hide Presented, NextSafe;
  }

  /** What a live packet on its lane does to the hold lanes while the hold goes on. */
  predicate Served(s: State, c: Packet, r: Flow)
    requires s.Shaped() && r.state.Shaped()
  {
    var l := LaneFor(c);
    if Serves(s, c) then r.state.hold == s.hold[l := s.hold[l][1..]] && SamePayload(r.carrier, s.hold[l][0])
    else r.state.hold == s.hold && s.holdFallback[l].Some? && SamePayload(r.carrier, s.holdFallback[l].value)
  }

  /** The fill is long enough to end with this packet. */
  predicate Filled(s: State, p: Packet) {
    p.video && p.usec >= s.fillStart && p.usec - s.fillStart >= s.target * 1_000_000
  }

  /** The hold lanes and what the flow of the hold is decided by are the same. */
  predicate SameHold(s: State, r: State) {
    && r.hold == s.hold && r.holdFallback == s.holdFallback && r.mode == s.mode
    && r.errorReturn == s.errorReturn && r.fromFilling == s.fromFilling
  }

  lemma TakenServed(s: State, c: Packet, s1: State, c1: Packet)
    requires s.Shaped() && s1.Shaped() && s1.hold == s.hold && s1.holdFallback == s.holdFallback && FormatOf(c1) == FormatOf(c)
    requires LaneFor(c1) == LaneFor(c)
    ensures var t := TakeHold(s1, c1);
            && (t.ok ==> Served(s, c, Flow(t.state, t.carrier))) && (Serves(s, c) ==> t.ok && !t.fallback)
            && t.state.mode == s1.mode && t.state.errorReturn == s1.errorReturn && t.state.fromFilling == s1.fromFilling
  {
    hide TakeHold;
    TakesFront(s1, c1);
  }

  lemma FillServed(s: State, c: Packet, raw: int, starting: bool)
    requires s.Shaped() && s.mode == Filling && !s.errorReturn
    ensures var r := FillStep(s, c, raw, starting);
            && (Holding(r.state) ==> Served(s, c, r))
            && (Serves(s, c) && !FillReady(Buffer(s, c, raw), c, raw) ==> Holding(r.state))
  {
    hide StartHold, TakeHold, Underrun, EnterDelayed, Fits, FillReady, Served, Serves;
    if !Fits(MAX_PRIMARY_BYTES, s.buffered, c.size) {
      var s1 := s.(fromFilling := true, mode := Returning);
      StartFormat(s1, c, starting);
      var b := StartHold(s1, c, starting);
      TakenServed(s, c, b.state, b.carrier);
    } else {
      var s1 := Buffer(s, c, raw);
      if FillReady(s1, c, raw) {
        assert s1.primary[0] != [] by { ReadyHead(s1, c, raw); }
        EnterNotHolding(s1, c);
      } else {
        StartFormat(s1, c, starting);
        var b := StartHold(s1, c, starting);
        TakenServed(s, c, b.state, b.carrier);
        UnderrunEnds(TakeHold(b.state, b.carrier));
      }
    }
  }

  lemma ReadyHead(s: State, c: Packet, raw: int)
    requires s.Shaped() && FillReady(s, c, raw)
    ensures s.primary[0] != []
  {
  }

  lemma UnderrunEnds(t: Taken)
    ensures Underrun(t, true).state.errorReturn
  {
    hide BeginEpoch;
  }

  lemma EnterNotHolding(s: State, c: Packet)
    requires s.Shaped() && s.mode == Filling && s.primary[0] != []
    ensures !Holding(EnterDelayed(s, c).state)
  {
    hide BeginEpoch, TakePrimary, TakeFallback;
    var b := BeginEpoch(s, c, s.primary[0][0]);
    var s1 := b.state.(mode := Delayed, lastEmitted := Nothing());
    TakenTails(s1, b.carrier);
  }

  lemma ReturnServed(s: State, c: Packet, raw: int)
    requires s.Shaped() && s.mode == Returning && s.fromFilling && !s.errorReturn
    ensures var r := ReturnStep(s, c, raw);
            (Holding(r.state) ==> Served(s, c, r)) && (Serves(s, c) ==> Holding(r.state))
  {
    hide TakeHold, Served, Serves;
    TakenServed(s, c, s, c);
  }

  lemma LiveEnds(s: State, c: Packet)
    ensures !InHold(GoLive(s, c).state)
  {
    hide BeginEpoch;
  }

  /** Whether a live packet is passed on as it is while the hold is being prepared. */
  predicate Waiting(s: State, c: Packet)
    requires s.Shaped()
  {
    s.mode == Preparing && !(c.video && c.keyframe && PrerollReady(s))
  }

  lemma RouteServed(s: State, c: Packet, raw: int)
    requires s.Shaped() && InHold(s)
    ensures var r := Route(s, c, raw);
            && (Holding(r.state) ==> Served(s, c, r) && !Waiting(s, c))
            && (Waiting(s, c) ==> r == Flow(s, c))
  {
    hide FillStep, ReturnStep, GoLive, Served, PrerollReady;
    if s.mode == Preparing {
      var s1 := s.(fillStart := raw, mode := Filling);
      FillServed(s1, c, raw, true);
      ServedSame(s, s1, c, FillStep(s1, c, raw, true));
    } else if s.mode == Filling {
      FillServed(s, c, raw, false);
    } else {
      LiveEnds(s, c);
      ReturnServed(s, c, raw);
    }
  }

  lemma ServedSame(s: State, s1: State, c: Packet, r: Flow)
    requires s.Shaped() && s1.Shaped() && r.state.Shaped() && s1.hold == s.hold && s1.holdFallback == s.holdFallback
    ensures Served(s, c, r) == Served(s1, c, r)
  {
  }

  lemma CadenceHold(s: State, p: Packet, audioStep: nat)
    requires s.Shaped()
    ensures SameHold(s, NoteCadence(s, p, audioStep))
  {
    hide StepAfter, Hole;
  }

  lemma NotedHold(s: State, c: Packet)
    ensures SameHold(s, NoteEmitted(s, c))
  {
    hide Presented;
  }

  /** A live packet while the hold goes on, or that starts it: it is exchanged for the front packet of its hold lane;
      only where that lane is empty or has another format does a fallback stand in. Other lanes do not move. */
  lemma LiveServed(s: State, p: Packet, audioStep: nat)
    requires s.Shaped() && InHold(s)
    ensures var r := Process(s, p, audioStep);
            && (Holding(r.state) ==> Served(s, p, r))
            && (r.state.mode == Preparing ==> r.state.hold == s.hold)
  {
    hide Route, NoteCadence, NoteEmitted, Shift, Served;
    var s1, c := NoteCadence(s, p, audioStep), Shift(p, s.offset);
    CadenceHold(s, p, audioStep);
    StoredFits(s, p);
    RouteServed(s1, c, p.usec);
    var routed := Route(s1, c, p.usec);
    NotedHold(routed.state, routed.carrier);
    if Holding(routed.state) {
      ServedLike(s, p, s1, c, routed, NoteEmitted(routed.state, routed.carrier));
    } else if routed.state.mode == Preparing {
      StaysPreparing(s1, c, p.usec);
    }
  }

  lemma ServedLike(s: State, p: Packet, s1: State, c: Packet, r: Flow, noted: State)
    requires s.Shaped() && s1.Shaped() && r.state.Shaped() && noted.Shaped() && SameHold(s, s1) && SameHold(r.state, noted)
    requires FormatOf(c) == FormatOf(p) && LaneFor(c) == LaneFor(p) && Served(s1, c, r)
    ensures Served(s, p, Flow(noted, r.carrier))
  {
  }

  lemma StaysPreparing(s: State, c: Packet, raw: int)
    requires s.Shaped() && InHold(s) && Route(s, c, raw).state.mode == Preparing
    ensures Route(s, c, raw).state == s
  {
    hide FillStep, PrerollReady;
    if s.mode == Preparing {
      FillGrows(s.(fillStart := raw, mode := Filling), c, raw, true);
    } else if s.mode == Filling {
      FillGrows(s, c, raw, false);
    } else {
      RouteModes(s, c, raw);
    }
  }

  /** While the hold goes on, a lane that can serve a packet does, unless the packet ends the fill or the return. */
  lemma ServesGoesOn(s: State, p: Packet, audioStep: nat)
    requires s.Shaped() && Holding(s) && Serves(s, p)
    requires if s.mode == Filling then !Filled(s, p) else !(p.video && p.keyframe)
    ensures Holding(Process(s, p, audioStep).state)
  {
    hide FillStep, ReturnStep, NoteCadence, NoteEmitted, Shift, Served;
    var s1, c := NoteCadence(s, p, audioStep), Shift(p, s.offset);
    CadenceHold(s, p, audioStep);
    CadenceRest(s, p, audioStep);
    StoredFits(s, p);
    ShiftKeeps(p, s.offset);
    var routed := Route(s1, c, p.usec);
    NotedHold(routed.state, routed.carrier);
    if s.mode == Filling {
      assert !FillReady(Buffer(s1, c, p.usec), c, p.usec);
      FillServed(s1, c, p.usec, false);
    } else {
      ReturnServed(s1, c, p.usec);
    }
  }

  // ---------------------------------------------------------------------
  // One hold packet

  /** All buffered hold packets and one more are within the limit. */
  predicate Room(lanes: seq<Queue>, p: Packet) {
    TotalSize(lanes) + p.size <= MAX_HOLD_BYTES
  }

  /** While the hold goes on a packet joins the end of its lane, unless the lanes are full; then a fill is abandoned. */
  lemma HoldJoins(s: State, p: Packet, compatible: bool)
    requires s.Shaped() && Holding(s) && Counted(s)
    ensures var r := ReceiveHold(s, p, compatible);
            && Holding(r) && r.hold == (if Room(s.hold, p) then Extended(s.hold, p) else s.hold)
            && r.mode == (if Room(s.hold, p) then s.mode else Returning)
            && r.holdFallback == if !p.video || p.keyframe then s.holdFallback[LaneFor(p) := Some(p)] else s.holdFallback
  {
    hide TotalSize, FormatClash, OpensHold, NoteHold, StoreHold, TrimHold;
    var s1 := NoteHold(s, p);
    NoteHolding(s, p);
    StoreHolding(s1, p);
    TrimHolding(StoreHold(s1, p), LaneFor(p));
  }

  lemma NoteHolding(s: State, p: Packet)
    requires s.Shaped() && Holding(s)
    ensures var r := NoteHold(s, p);
            && !OpensHold(s, p) && Holding(r) && r.mode == s.mode && r.hold == s.hold && r.holdBuffered == s.holdBuffered
            && r.holdFallback == if !p.video || p.keyframe then s.holdFallback[LaneFor(p) := Some(p)] else s.holdFallback
  {
    hide RestartHold;
  }

  lemma StoreHolding(s: State, p: Packet)
    requires s.Shaped() && Holding(s)
    ensures var r := StoreHold(s, p);
            Holding(r) && r.mode == s.mode && r.hold == Extended(s.hold, p) && r.holdFallback == s.holdFallback
  {
  }

  lemma TrimHolding(s: State, l: nat)
    requires s.Shaped() && l < LANES && s.mode != Preparing
    ensures TrimHold(s, l) == s
  {
  }

  lemma RestartKeeps(s: State, p: Packet)
    requires s.Shaped()
    ensures var r := RestartHold(s, p);
            && r.hold[0] == [] && (forall l :: 1 <= l < LANES ==> r.hold[l] == From(s.hold[l], p.usec)) && r.mode == s.mode
            && r.holdReady == s.holdReady
  {
    hide From, TotalSize;
  }

  /** The newest packets of a lane. */
  function Newest(q: Queue, count: nat): Queue { if |q| <= count then q else q[|q| - count..] }

  lemma {:induction false} TrimIs(s: State, l: nat)
    requires s.Shaped() && l < LANES
    ensures var r := TrimHold(s, l);
            && r.mode == s.mode
            && r.hold == s.hold[l := if s.mode == Preparing && l != 0 then Newest(s.hold[l], MAX_HOLD_LANE_PACKETS) else s.hold[l]]
    decreases |s.hold[l]|
  {
    if s.mode == Preparing && l != 0 && |s.hold[l]| > MAX_HOLD_LANE_PACKETS {
      var q := s.hold[l];
      var s1 := s.(hold := s.hold[l := q[1..]], holdBuffered := Less(s.holdBuffered, q[0].size));
      TrimIs(s1, l);
      assert s1.hold[l] == q[1..];
      assert Newest(q[1..], MAX_HOLD_LANE_PACKETS) == Newest(q, MAX_HOLD_LANE_PACKETS);
      assert s1.hold[l := Newest(q, MAX_HOLD_LANE_PACKETS)] == s.hold[l := Newest(q, MAX_HOLD_LANE_PACKETS)];
    } else {
      assert s.hold[l := s.hold[l]] == s.hold;
    }
  }

  /** What the lanes keep of their packets when this one comes during the preroll: the first keyframe starts the video
      lane afresh and drops what the audio lanes have from before it. */
  function Prerolling(s: State, p: Packet): (r: seq<Queue>)
    requires s.Shaped()
    ensures |r| == LANES
  {
    if p.video && p.keyframe && !s.holdReady then
      seq(LANES, l requires 0 <= l < LANES => if l == 0 then [] else Remaining(s.hold[l], Some(p.usec)))
    else s.hold
  }

  /** The preroll: the packet joins what its lane keeps, and an audio lane keeps only its newest packets. */
  lemma PrerollJoins(s: State, p: Packet, compatible: bool)
    requires s.Shaped() && s.mode == Preparing
    ensures var r, l := ReceiveHold(s, p, compatible), LaneFor(p); var kept := Prerolling(s, p);
            && (r.mode == Preparing || r.mode == Error)
            && (r.mode == Preparing ==>
                  r.hold == kept[l := if l == 0 then kept[l] + [p] else Newest(kept[l] + [p], MAX_HOLD_LANE_PACKETS)])
  {
    hide FormatClash, Fits, NoteHold, StoreHold, TrimHold, OpensHold, Prerolling;
    var l := LaneFor(p);
    var s1 := NoteHold(s, p);
    NotePreroll(s, p);
    var s2 := StoreHold(s1, p);
    StorePreroll(s1, p);
    TrimIs(s2, l);
    TrimIs(s2.(holdReady := true), l);
    TrimIs(s2.(mode := Error), l);
  }

  lemma NotePreroll(s: State, p: Packet)
    requires s.Shaped() && s.mode == Preparing
    ensures var r := NoteHold(s, p); r.hold == Prerolling(s, p) && r.mode == Preparing
  {
    hide RestartHold, From;
    RestartKeeps(s.(holdFormats := s.holdFormats[LaneFor(p) := Some(FormatOf(p))]), p);
    forall k | 1 <= k < LANES ensures From(s.hold[k], p.usec) == Remaining(s.hold[k], Some(p.usec)) {
    }
    assert NoteHold(s, p).hold == Prerolling(s, p);
  }

  lemma StorePreroll(s: State, p: Packet)
    requires s.Shaped()
    ensures var r := StoreHold(s, p); r.hold == s.hold[LaneFor(p) := s.hold[LaneFor(p)] + [p]] && r.mode == s.mode
  {
  }

  // ---------------------------------------------------------------------
  // Runs of the hold

  /** A live packet that a hold packet is handed out for. */
  predicate Hands(s: State, op: Op, l: nat)
    requires s.Shaped()
  {
    On(op, l) && Serves(s, op.packet)
  }

  predicate Joins(s: State, op: Op, l: nat)
    requires s.Shaped()
  {
    op.HoldPacket? && LaneFor(op.packet) == l && Room(s.hold, op.packet)
  }

  /** What a call does to a hold lane while the hold goes on. */
  predicate HoldMoves(s: State, op: Op, l: nat, r: Queue)
    requires s.Shaped() && l < LANES
  {
    var q := s.hold[l];
    if Hands(s, op, l) then r == q[1..] && SamePayload(Process(s, op.packet, op.audioStep).carrier, q[0])
    else if Joins(s, op, l) then r == q + [op.packet]
    else r == q
  }

  lemma StepCounted(s: State, op: Op)
    requires s.Shaped() && Counted(s)
    ensures Counted(Step(s, op))
  {
    hide Process, ReceiveHold, Counted;
    match op
    case Live(p, audioStep) => LiveCounted(s, p, audioStep);
    case HoldPacket(p, compatible) => HoldPacketCounted(s, p, compatible);
    case Delay(_, _, _) => RequestCounted(s, op);
    case Cancel => RequestCounted(s, op);
    case Activate => RequestCounted(s, op);
    case Maintain => RequestCounted(s, op);
  }

  lemma ServedMoves(s: State, op: Op, l: nat)
    requires s.Shaped() && l < LANES && op.Live? && Served(s, op.packet, Process(s, op.packet, op.audioStep))
    ensures HoldMoves(s, op, l, Step(s, op).hold[l])
  {
    hide Process;
  }

  lemma HoldStep(s: State, op: Op, l: nat)
    requires s.Shaped() && l < LANES && InHold(s) && Counted(s) && Holding(Step(s, op))
    ensures HoldMoves(s, op, l, Step(s, op).hold[l]) && Counted(Step(s, op))
  {
    hide Process, ReceiveHold, Counted, HoldMoves, Served, Room;
    StepCounted(s, op);
    match op
    case Live(p, audioStep) =>
      LiveServed(s, p, audioStep);
      ServedMoves(s, op, l);
    case HoldPacket(p, compatible) =>
      if s.mode == Preparing {
        PrerollJoins(s, p, compatible);
        assert false;
      } else {
        HoldJoins(s, p, compatible);
        JoinMoves(s, op, l);
      }
    case _ => RestMoves(s, op, l);
  }

  lemma JoinMoves(s: State, op: Op, l: nat)
    requires s.Shaped() && l < LANES && op.HoldPacket?
    requires Step(s, op).hold == if Room(s.hold, op.packet) then Extended(s.hold, op.packet) else s.hold
    ensures HoldMoves(s, op, l, Step(s, op).hold[l])
  {
    hide ReceiveHold, Room;
  }

  lemma RestMoves(s: State, op: Op, l: nat)
    requires s.Shaped() && l < LANES && !op.Live? && !op.HoldPacket? && InHold(s) && Holding(Step(s, op))
    ensures HoldMoves(s, op, l, Step(s, op).hold[l])
  {
    match op
    case Delay(_, _, _) =>
    case Cancel =>
    case Activate =>
    case Maintain =>
  }

  /** The hold goes on, or starts, with every call. */
  predicate HoldRuns(s: State, ops: seq<Op>)
    requires s.Shaped()
    decreases |ops|
  {
    ops != [] ==> Holding(Step(s, ops[0])) && HoldRuns(Step(s, ops[0]), ops[1..])
  }

  /** The hold packets that join a lane. */
  function HoldIn(s: State, ops: seq<Op>, l: nat): Queue
    requires s.Shaped()
    decreases |ops|
  {
    if ops == [] then []
    else (if Joins(s, ops[0], l) then [ops[0].packet] else []) + HoldIn(Step(s, ops[0]), ops[1..], l)
  }

  /** What is handed out for live packets where the hold lane can serve them. */
  function HoldOut(s: State, ops: seq<Op>, l: nat): Queue
    requires s.Shaped()
    decreases |ops|
  {
    if ops == [] then []
    else
      (if Hands(s, ops[0], l) then [Process(s, ops[0].packet, ops[0].audioStep).carrier] else []) +
      HoldOut(Step(s, ops[0]), ops[1..], l)
  }

  /** What was handed out is the start of the stream, in order; the rest is still buffered. */
  predicate InOrder(stream: Queue, out: Queue, rest: Queue) {
    && |out| <= |stream| && rest == stream[|out|..]
    && forall i :: 0 <= i < |out| ==> SamePayload(out[i], stream[i])
  }

  lemma OrderStep(s: State, op: Op, l: nat, next: Queue, joined: Queue, out: Queue, rest: Queue)
    requires s.Shaped() && l < LANES && HoldMoves(s, op, l, next) && InOrder(next + joined, out, rest)
    ensures InOrder(s.hold[l] + ((if Joins(s, op, l) then [op.packet] else []) + joined),
                    (if Hands(s, op, l) then [Process(s, op.packet, op.audioStep).carrier] else []) + out, rest)
  {
    hide Process, SamePayload, Room, Serves, InOrder;
    var q := s.hold[l];
    if Hands(s, op, l) {
      HandsFront(s, op, l);
      OrderTake(q, Process(s, op.packet, op.audioStep).carrier, joined, out, rest);
      assert [] + joined == joined;
    } else if Joins(s, op, l) {
      assert q + ([op.packet] + joined) == (q + [op.packet]) + joined;
      assert [] + out == out;
    } else {
      assert [] + joined == joined && [] + out == out;
    }
  }

  lemma OrderTake(q: Queue, x: Packet, joined: Queue, out: Queue, rest: Queue)
    requires q != [] && SamePayload(x, q[0]) && InOrder(q[1..] + joined, out, rest)
    ensures InOrder(q + joined, [x] + out, rest)
  {
    hide SamePayload;
    var stream := q + joined;
    assert stream[1..] == q[1..] + joined;
    forall i | 0 <= i < |[x] + out| ensures SamePayload(([x] + out)[i], stream[i]) {
      if i > 0 {
        assert SamePayload(out[i - 1], stream[1..][i - 1]);
      }
    }
  }

  lemma HandsFront(s: State, op: Op, l: nat)
    requires s.Shaped() && l < LANES && Hands(s, op, l)
    ensures s.hold[l] != [] && !Joins(s, op, l)
  {
  }

  /** Over every run of the hold, on every lane: what stands in for live packets is what the lane holds and is given,
      in order and once each. */
  lemma {:induction false} HoldLine(s: State, ops: seq<Op>, l: nat)
    requires s.Shaped() && l < LANES && InHold(s) && Counted(s) && HoldRuns(s, ops)
    ensures InOrder(s.hold[l] + HoldIn(s, ops, l), HoldOut(s, ops, l), After(s, ops).hold[l])
    decreases |ops|
  {
    hide Step, Counted, Joins, Hands, HoldMoves, InOrder, Holding, Process;
    if ops == [] {
      OrderNothing(s.hold[l]);
    } else {
      var op, next, rest := ops[0], Step(s, ops[0]), ops[1..];
      HoldStep(s, op, l);
      HoldLine(next, rest, l);
      OrderStep(s, op, l, next.hold[l], HoldIn(next, rest, l), HoldOut(next, rest, l), After(next, rest).hold[l]);
    }
  }

  lemma OrderNothing(q: Queue)
    ensures InOrder(q + [], [], q)
  {
    assert q + [] == q;
  }

  // ---------------------------------------------------------------------
  // Runs of the preroll

  predicate Prepares(s: State, ops: seq<Op>)
    requires s.Shaped()
    decreases |ops|
  {
    ops != [] ==> Step(s, ops[0]).mode == Preparing && Prepares(Step(s, ops[0]), ops[1..])
  }

  /** All that comes in for a lane. */
  function HoldGiven(ops: seq<Op>, l: nat): Queue {
    if ops == [] then []
    else (if ops[0].HoldPacket? && LaneFor(ops[0].packet) == l then [ops[0].packet] else []) + HoldGiven(ops[1..], l)
  }

  lemma PrepareStep(s: State, op: Op, l: nat)
    requires s.Shaped() && l < LANES && s.mode == Preparing && !s.errorReturn && Step(s, op).mode == Preparing
    ensures Tail(Step(s, op).hold[l], s.hold[l] + if op.HoldPacket? && LaneFor(op.packet) == l then [op.packet] else [])
    ensures !Step(s, op).errorReturn
  {
    hide Process, ReceiveHold, Served, Prerolling, Newest, Tail, Grew;
    StepSober(s, op);
    var q := s.hold[l];
    assert q + [] == q;
    TailSelf(q);
    match op
    case Live(p, audioStep) => LiveServed(s, p, audioStep);
    case HoldPacket(p, compatible) =>
      PrerollJoins(s, p, compatible);
      PrerollTail(s, p, l);
    case _ => RestPrepares(s, op);
  }

  lemma TailSelf(q: Queue)
    ensures Tail(q, q)
  {
  }

  lemma RestPrepares(s: State, op: Op)
    requires s.Shaped() && s.mode == Preparing && !op.Live? && !op.HoldPacket? && Step(s, op).mode == Preparing
    ensures Step(s, op).hold == s.hold
  {
    match op
    case Delay(_, _, _) =>
    case Cancel =>
    case Activate =>
    case Maintain =>
  }

  lemma PrerollTail(s: State, p: Packet, l: nat)
    requires s.Shaped() && l < LANES
    ensures var kept := Prerolling(s, p);
            && Tail(kept[l], s.hold[l]) && Tail(kept[l] + [p], s.hold[l] + [p])
            && Tail(Newest(kept[l] + [p], MAX_HOLD_LANE_PACKETS), s.hold[l] + [p])
  {
    hide Remaining;
    CutDropsPrefix(s.hold[l], Some(p.usec));
    TailMore(Prerolling(s, p)[l], s.hold[l], p);
  }

  lemma TailMore(r: Queue, q: Queue, x: Packet)
    requires Tail(r, q)
    ensures Tail(r + [x], q + [x])
  {
  }

  lemma TailThen(a: Queue, b: Queue, more: Queue, r: Queue)
    requires Tail(a, b) && Tail(r, a + more)
    ensures Tail(r, b + more)
  {
    assert a + more == (b + more)[|b| - |a|..];
  }

  /** The preroll of a lane is the newest part of what came in for it. */
  lemma {:induction false} PreparedLine(s: State, ops: seq<Op>, l: nat)
    requires s.Shaped() && l < LANES && s.mode == Preparing && !s.errorReturn && Prepares(s, ops)
    ensures var r := After(s, ops);
            r.mode == Preparing && !r.errorReturn && Tail(r.hold[l], s.hold[l] + HoldGiven(ops, l))
    decreases |ops|
  {
    hide Step, Tail, LaneFor;
    if ops == [] {
      assert s.hold[l] + [] == s.hold[l];
      TailSelf(s.hold[l]);
    } else {
      var next, rest := Step(s, ops[0]), ops[1..];
      PrepareStep(s, ops[0], l);
      PreparedLine(next, rest, l);
      var first: Queue := if ops[0].HoldPacket? && LaneFor(ops[0].packet) == l then [ops[0].packet] else [];
      TailThen(next.hold[l], s.hold[l] + first, HoldGiven(rest, l), After(s, ops).hold[l]);
      assert (s.hold[l] + first) + HoldGiven(rest, l) == s.hold[l] + (first + HoldGiven(rest, l));
    }
  }

  /** From the request for a delay on: the lane's packets reach the output in the order in which they came, once each
      and without a gap, from the first one that the preroll kept. */
  lemma EveryHoldLine(start: seq<Op>, request: Op, preroll: seq<Op>, ops: seq<Op>, l: nat)
    requires l < LANES && request.Delay? && request.started && 1 <= request.seconds <= 300
    requires Reached(start).mode == Bypass || Reached(start).mode == Error
    requires Prepares(Reached(start + [request]), preroll) && HoldRuns(Reached(start + [request] + preroll), ops)
    ensures var s := Reached(start + [request] + preroll);
            && Tail(s.hold[l], HoldGiven(preroll, l))
            && InOrder(s.hold[l] + HoldIn(s, ops, l), HoldOut(s, ops, l), Reached(start + [request] + preroll + ops).hold[l])
  {
    hide Step, Tail, InOrder, Prepares, HoldRuns, HoldIn, HoldOut, HoldGiven, Counted, Reached;
    var s0, s := Reached(start + [request]), Reached(start + [request] + preroll);
    RequestedHold(start, request, l);
    ReachedAfter(start + [request], preroll);
    PreparedLine(s0, preroll, l);
    assert [] + HoldGiven(preroll, l) == HoldGiven(preroll, l);
    EveryRunCounted(start + [request] + preroll);
    ReachedAfter(start + [request] + preroll, ops);
    HoldLine(s, ops, l);
  }

  lemma RequestedHold(start: seq<Op>, request: Op, l: nat)
    requires l < LANES && request.Delay? && request.started && 1 <= request.seconds <= 300
    requires Reached(start).mode == Bypass || Reached(start).mode == Error
    ensures var s := Reached(start + [request]); s.mode == Preparing && !s.errorReturn && s.hold[l] == []
  {
    assert (start + [request])[..|start|] == start;
  }
}
