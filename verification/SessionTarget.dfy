/** The delay is what was asked for. */
module SessionTarget {
  // The length of every fill is the seconds of the last request for a delay that was accepted, whatever came between.

  import opened Options
  import opened SessionSpec
  import opened SessionDelayLine
  import opened SessionSteady

  /** The seconds of the last request that found no delay running and asked for at most five minutes. */
  function Asked(ops: seq<Op>): nat {
    if ops == [] then 0
    else
      var before, op := ops[..|ops| - 1], ops[|ops| - 1];
      if op.Delay? && 1 <= op.seconds <= 300 && (Reached(before).mode == Bypass || Reached(before).mode == Error)
      then op.seconds else Asked(before)
  }

  /** The lanes that it named. */
  function AskedLanes(ops: seq<Op>): set<nat> {
    if ops == [] then {}
    else
      var before, op := ops[..|ops| - 1], ops[|ops| - 1];
      if op.Delay? && 1 <= op.seconds <= 300 && (Reached(before).mode == Bypass || Reached(before).mode == Error)
      then set l | l in op.active && 1 <= l <= 6 else AskedLanes(before)
  }

  predicate SameAim(s: State, r: State) { r.target == s.target && r.active == s.active }

  lemma EpochTarget(s: State, c: Packet, payload: Packet)
    ensures SameAim(s, BeginEpoch(s, c, payload).state)
  {
    hide Presented, NextSafe;
  }

  lemma TakenTarget(s: State, c: Packet)
    requires s.Shaped()
    ensures SameAim(s, TakePrimary(s, c).state) && SameAim(s, TakeHold(s, c).state)
  {
    hide Hole;
  }

  lemma UnderrunTarget(t: Taken, fromFilling: bool)
    ensures SameAim(t.state, Underrun(t, fromFilling).state)
  {
    hide BeginEpoch;
    EpochTarget(t.state, t.carrier, t.carrier);
  }

  lemma DrainTarget(s: State, c: Packet)
    requires s.Shaped()
    ensures SameAim(s, DrainDelayed(s, c).state)
  {
    hide TakePrimary, Underrun;
    TakenTarget(s, c);
    UnderrunTarget(TakePrimary(s, c), false);
  }

  lemma StartTarget(s: State, c: Packet, starting: bool)
    requires s.Shaped()
    ensures SameAim(s, StartHold(s, c, starting).state)
  {
    hide BeginEpoch;
    if starting && s.hold[0] != [] {
      EpochTarget(s, c, s.hold[0][0]);
    }
  }

  lemma EnterTarget(s: State, c: Packet)
    requires s.Shaped() && s.primary[0] != []
    ensures SameAim(s, EnterDelayed(s, c).state)
  {
    hide BeginEpoch, TakePrimary, TakeFallback;
    var b := BeginEpoch(s, c, s.primary[0][0]);
    EpochTarget(s, c, s.primary[0][0]);
    var s1 := b.state.(mode := Delayed, lastEmitted := Nothing());
    TakenTarget(s1, b.carrier);
    var t := TakePrimary(s1, b.carrier);
    var kept := TakeFallback(t.state.holdFallback, t.carrier);
    EpochTarget(t.state, kept.carrier, kept.carrier);
  }

  lemma FillTarget(s: State, c: Packet, raw: int, starting: bool)
    requires s.Shaped()
    ensures SameAim(s, FillStep(s, c, raw, starting).state)
  {
    hide StartHold, TakeHold, Underrun, EnterDelayed, Fits;
    if !Fits(MAX_PRIMARY_BYTES, s.buffered, c.size) {
      var s1 := s.(fromFilling := true, mode := Returning);
      StartTarget(s1, c, starting);
      TakenTarget(StartHold(s1, c, starting).state, StartHold(s1, c, starting).carrier);
    } else {
      var s1 := Buffer(s, c, raw);
      if FillReady(s1, c, raw) {
        EnterTarget(s1, c);
      } else {
        StartTarget(s1, c, starting);
        var b := StartHold(s1, c, starting);
        TakenTarget(b.state, b.carrier);
        UnderrunTarget(TakeHold(b.state, b.carrier), true);
      }
    }
  }

  lemma RealignTarget(s: State, c: Packet, raw: int)
    requires s.Shaped()
    ensures SameAim(s, Realign(s, c, raw).state)
  {
    hide Pick, Skewed, Covered, BeginEpoch, CutAt;
    if c.video && s.primary[0] != [] {
      var s1 := HeadChecked(s);
      if s1.realign && LanesReady(s1) && Skewed(s1, raw - s1.primary[0][0].usec) {
        var pick := Pick(s1, raw - s1.target * 1_000_000);
        if pick.Some? && Covered(s1, s1.primary[0][pick.value].usec) {
          var s2 := CutAt(s1, s1.primary[0][pick.value].usec);
          CutTarget(s1, s1.primary[0][pick.value].usec);
          if s2.primary[0] != [] {
            EpochTarget(s2, c, s2.primary[0][0]);
          }
        }
      }
    }
  }

  lemma CutTarget(s: State, origin: int)
    requires s.Shaped()
    ensures SameAim(s, CutAt(s, origin))
  {
    hide From, TotalSize;
  }

  lemma DelayTarget(s: State, c: Packet, raw: int)
    requires s.Shaped()
    ensures SameAim(s, DelayStep(s, c, raw).state)
  {
    hide Realign, DrainDelayed, BeginEpoch, Fits;
    var s1 := s.(fromFilling := false, drain := true, mode := Returning);
    EpochTarget(s1, c, c);
    DrainTarget(s1, c);
    var b := Buffer(s, c, raw);
    RealignTarget(b, c, raw);
    var a := Realign(b, c, raw);
    DrainTarget(a.state, a.carrier);
  }

  lemma ReturnTarget(s: State, c: Packet, raw: int)
    requires s.Shaped()
    ensures SameAim(s, ReturnStep(s, c, raw).state)
  {
    hide TakeHold, DrainDelayed, Fits, TakeFallback;
    TakenTarget(s, c);
    DrainTarget(s, c);
    DrainTarget(s.(drain := true), c);
    DrainTarget(Buffer(s, c, raw), c);
  }

  lemma LiveTarget(s: State, p: Packet, audioStep: nat)
    requires s.Shaped()
    ensures SameAim(s, Process(s, p, audioStep).state)
  {
    hide NoteCadence, NoteEmitted, FillStep, DelayStep, ReturnStep, BeginEpoch, PrerollReady, Shift;
    var s1, c, raw := NoteCadence(s, p, audioStep), Shift(p, s.offset), p.usec;
    CadenceAim(s, p, audioStep);
    FillTarget(s1.(fillStart := raw, mode := Filling), c, raw, true);
    FillTarget(s1, c, raw, false);
    DelayTarget(s1, c, raw);
    ReturnTarget(s1, c, raw);
    EpochTarget(s1, c, c);
    var routed := Route(s1, c, raw);
    NotedAim(routed.state, routed.carrier);
  }

  lemma CadenceAim(s: State, p: Packet, audioStep: nat)
    requires s.Shaped()
    ensures var r := NoteCadence(s, p, audioStep); SameAim(s, r) && r.mode == s.mode
  {
    hide StepAfter, Hole;
  }

  lemma NotedAim(s: State, c: Packet)
    ensures SameAim(s, NoteEmitted(s, c))
  {
    hide Presented;
  }

  lemma {:induction false} TrimTarget(s: State, l: nat)
    requires s.Shaped() && l < LANES
    ensures SameAim(s, TrimHold(s, l))
    decreases |s.hold[l]|
  {
    if s.mode == Preparing && l != 0 && |s.hold[l]| > MAX_HOLD_LANE_PACKETS {
      TrimTarget(s.(hold := s.hold[l := s.hold[l][1..]], holdBuffered := Less(s.holdBuffered, s.hold[l][0].size)), l);
    }
  }

  lemma HoldTarget(s: State, p: Packet, compatible: bool)
    requires s.Shaped()
    ensures SameAim(s, ReceiveHold(s, p, compatible))
  {
    hide FormatClash, NoteHold, TrimHold, Fits;
    if TakesHold(s) {
      NoteTarget(s, p);
      var s2 := StoreHold(NoteHold(s, p), p);
      TrimTarget(s2, LaneFor(p));
      TrimTarget(s2.(holdReady := true), LaneFor(p));
      TrimTarget(s2.(mode := Error), LaneFor(p));
    }
  }

  lemma NoteTarget(s: State, p: Packet)
    requires s.Shaped()
    ensures SameAim(s, NoteHold(s, p))
  {
    hide From, TotalSize;
  }

  predicate AcceptsDelay(s: State, op: Op) {
    op.Delay? && 1 <= op.seconds <= 300 && (s.mode == Bypass || s.mode == Error)
  }

  /** Aimed at what the accepted request asks for, else as before. */
  ghost predicate Aims(s: State, op: Op, r: State) {
    if AcceptsDelay(s, op) then r.target == op.seconds && forall l :: l in r.active <==> l in op.active && 1 <= l <= 6
    else SameAim(s, r)
  }

  lemma StepTarget(s: State, op: Op)
    requires s.Shaped()
    ensures Aims(s, op, Step(s, op))
  {
    hide Process, ReceiveHold, RequestDelay, RequestBypass, Reconnected, Retire;
    match op
    case Live(p, audioStep) => LiveTarget(s, p, audioStep);
    case HoldPacket(p, compatible) => HoldTarget(s, p, compatible);
    case _ => RequestTarget(s, op);
  }

  /** Over every run the session aims at the delay and the lanes that were last asked for and accepted. */
  lemma {:induction false} EveryTarget(ops: seq<Op>)
    ensures Reached(ops).target == Asked(ops) && Reached(ops).active == AskedLanes(ops)
  {
    hide Step;
    if ops != [] {
      EveryTarget(ops[..|ops| - 1]);
      StepTarget(Reached(ops[..|ops| - 1]), ops[|ops| - 1]);
    }
  }

  lemma RequestTarget(s: State, op: Op)
    requires s.Shaped() && !op.Live? && !op.HoldPacket?
    ensures Aims(s, op, Step(s, op))
  {
    match op
    case Delay(_, _, _) =>
    case Cancel => CancelAim(s);
    case Activate =>
    case Maintain =>
  }

  lemma CancelAim(s: State)
    ensures SameAim(s, RequestBypass(s))
  {
    if s.mode == Preparing || s.mode == Error {
    } else if s.mode == Bypass || s.mode == Returning {
    } else {
    }
  }

  /** An accepted request leaves nothing of an earlier delay behind; any other changes nothing. */
  lemma RequestStarts(s: State, op: Op)
    requires s.Shaped() && op.Delay?
    ensures var r := Step(s, op);
            if !AcceptsDelay(s, op) then r == s
            else
              && r.mode == (if op.started then Preparing else Error)
              && (forall l :: 0 <= l < LANES ==>
                    && r.primary[l] == r.hold[l] == [] && r.primaryFallback[l] == r.holdFallback[l] == None
                    && r.primaryFormats[l] == r.holdFormats[l] == None && r.lastPrimary[l] == r.lastEmitted[l] == None
                    && r.steps[l] == 0)
              && r.buffered == r.holdBuffered == 0
              && !r.holdReady && !r.realign && !r.fromFilling && !r.drain && !r.errorReturn
              && r.offset == s.offset && r.maxPts == s.maxPts && r.frame == s.frame
  {
  }

  /** Over every run with constant live formats: the first delayed packet is a keyframe that came at least the seconds
      asked for before the packet it takes the place of. */
  lemma FirstAsAsked(ops: seq<Op>, p: Packet, audioStep: nat, formats: seq<Format>)
    requires |formats| == LANES && Constant(ops, formats) && Fitting(p, formats)
    requires Reached(ops).mode == Filling && Process(Reached(ops), p, audioStep).state.mode == Delayed
    ensures var q := Reached(ops).primary[0]; var out := Process(Reached(ops), p, audioStep).carrier;
            && q != [] && SamePayload(out, q[0]) && q[0].keyframe && p.usec - q[0].usec >= Asked(ops) * 1_000_000
  {
    hide Reached, Process, Constant, Asked;
    EveryTarget(ops);
    EveryRunFillHead(ops);
    EveryFirstDelayed(ops, p, audioStep, formats);
  }
}
