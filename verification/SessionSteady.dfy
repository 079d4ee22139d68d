/** Every delay is steady. */
module SessionSteady {
  // Every delay that a new session reaches is a delay line.

  import opened Options
  import opened SessionSpec
  import opened SessionRealign
  import opened SessionDelayLine

  /** The delay line's lanes keep their formats, and only a return carries an error. */
  predicate Steady(s: State, formats: seq<Format>)
    requires s.Shaped() && |formats| == LANES
  {
    Uniform(s.primary, formats) && Sober(s)
  }

  /** Only a return carries an error. */
  predicate Sober(s: State) { s.errorReturn ==> s.mode == Returning }

  predicate Alike(s: State, r: State) {
    r.primary == s.primary && r.mode == s.mode && r.errorReturn == s.errorReturn
  }

  // ---------------------------------------------------------------------
  // A live packet at most joins its lane; everything else leaves lanes from the front

  predicate Grew(q: seq<Queue>, x: Packet, r: seq<Queue>)
    requires |q| == LANES && |r| == LANES
  {
    Tails(r, q) || Tails(r, Extended(q, x))
  }

  lemma TailsTail(a: seq<Queue>, b: seq<Queue>, c: seq<Queue>)
    requires |a| == LANES && |b| == LANES && |c| == LANES && Tails(a, b) && Tails(b, c)
    ensures Tails(a, c)
  {
    forall l | 0 <= l < LANES ensures Tail(a[l], c[l]) {
      assert Tail(a[l], b[l]) && Tail(b[l], c[l]);
    }
  }

  lemma TakenTails(s: State, c: Packet)
    requires s.Shaped()
    ensures var r := TakePrimary(s, c).state; Tails(r.primary, s.primary) && r.mode == s.mode && r.errorReturn == s.errorReturn
  {
    hide Tails, Tail, NoteSource;
    var l := LaneFor(c);
    TailsSelf(s.primary);
    if s.primary[l] != [] {
      PopTails(s.primary, s.primary, l);
      NotedSource(s, l, s.primary[l][0].usec);
    }
    if s.primaryFallback[l].Some? {
      NotedSource(s, l, s.primaryFallback[l].value.usec);
    }
  }

  lemma HoldAlike(s: State, c: Packet)
    requires s.Shaped()
    ensures Alike(s, TakeHold(s, c).state)
  {
  }

  lemma StartAlike(s: State, c: Packet, starting: bool)
    requires s.Shaped()
    ensures Alike(s, StartHold(s, c, starting).state)
  {
    hide BeginEpoch;
    if starting && s.hold[0] != [] {
      EpochRest(s, c, s.hold[0][0]);
    }
  }

  lemma BridgedAlike(t: Taken, fromFilling: bool)
    requires t.state.Shaped()
    ensures var r := Underrun(t, fromFilling).state; r.primary == t.state.primary && r.mode == Returning
  {
    hide BeginEpoch;
    EpochRest(t.state, t.carrier, t.carrier);
  }

  lemma DrainTails(s: State, c: Packet)
    requires s.Shaped() && Sober(s)
    ensures var r := DrainDelayed(s, c).state; Tails(r.primary, s.primary) && Sober(r)
  {
    hide Tails, TakePrimary, Underrun;
    TakenTails(s, c);
    BridgedAlike(TakePrimary(s, c), false);
  }

  lemma FillGrew(s: State, c: Packet, raw: int, starting: bool)
    requires s.Shaped() && !s.errorReturn
    ensures var r := FillStep(s, c, raw, starting).state; Grew(s.primary, c.(usec := raw), r.primary) && Sober(r)
  {
    hide Tails, StartHold, TakeHold, Underrun, EnterDelayed, Fits;
    TailsSelf(s.primary);
    if !Fits(MAX_PRIMARY_BYTES, s.buffered, c.size) {
      var s1 := s.(fromFilling := true, mode := Returning);
      StartAlike(s1, c, starting);
      HoldAlike(StartHold(s1, c, starting).state, StartHold(s1, c, starting).carrier);
    } else {
      var s1 := Buffer(s, c, raw);
      assert s1.primary == Extended(s.primary, c.(usec := raw));
      TailsSelf(s1.primary);
      if FillReady(s1, c, raw) {
        EnterTails(s1, c);
      } else {
        StartAlike(s1, c, starting);
        var b := StartHold(s1, c, starting);
        HoldAlike(b.state, b.carrier);
        BridgedAlike(TakeHold(b.state, b.carrier), true);
      }
    }
  }

  lemma EnterTails(s: State, c: Packet)
    requires s.Shaped() && !s.errorReturn && s.primary[0] != []
    ensures var r := EnterDelayed(s, c).state; Tails(r.primary, s.primary) && Sober(r)
  {
    hide Tails, BeginEpoch, TakePrimary, TakeFallback;
    var b := BeginEpoch(s, c, s.primary[0][0]);
    EpochRest(s, c, s.primary[0][0]);
    var s1 := b.state.(mode := Delayed, lastEmitted := Nothing());
    TakenTails(s1, b.carrier);
    var t := TakePrimary(s1, b.carrier);
    var kept := TakeFallback(t.state.holdFallback, t.carrier);
    EpochRest(t.state, kept.carrier, kept.carrier);
  }

  lemma DelayGrew(s: State, c: Packet, raw: int)
    requires s.Shaped() && !s.errorReturn
    ensures var r := DelayStep(s, c, raw).state; Grew(s.primary, c.(usec := raw), r.primary) && Sober(r)
  {
    hide Tails, Realign, DrainDelayed, BeginEpoch, Fits;
    TailsSelf(s.primary);
    if !Fits(MAX_PRIMARY_BYTES, s.buffered, c.size) {
      var s1 := s.(fromFilling := false, drain := true, mode := Returning);
      EpochRest(s1, c, c);
      DrainTails(s1, c);
    } else {
      var b := Buffer(s, c, raw);
      assert b.primary == Extended(s.primary, c.(usec := raw));
      RealignTails(b, c, raw);
      var a := Realign(b, c, raw);
      DrainTails(a.state, a.carrier);
      TailsTail(DrainDelayed(a.state, a.carrier).state.primary, a.state.primary, b.primary);
    }
  }

  lemma ReturnGrew(s: State, c: Packet, raw: int)
    requires s.Shaped() && s.mode == Returning
    ensures var r := ReturnStep(s, c, raw).state; Grew(s.primary, c.(usec := raw), r.primary) && Sober(r)
  {
    hide Tails, TakeHold, DrainDelayed, Fits, TakeFallback;
    TailsSelf(s.primary);
    HoldAlike(s, c);
    DrainTails(s, c);
    DrainTails(s.(drain := true), c);
    assert Buffer(s, c, raw).primary == Extended(s.primary, c.(usec := raw));
    DrainTails(Buffer(s, c, raw), c);
  }

  lemma RouteGrew(s: State, c: Packet, raw: int)
    requires s.Shaped() && Sober(s)
    ensures var r := Route(s, c, raw).state; Grew(s.primary, c.(usec := raw), r.primary) && Sober(r)
  {
    hide Tails, FillStep, DelayStep, ReturnStep, BeginEpoch, PrerollReady;
    TailsSelf(s.primary);
    match s.mode
    case Bypass =>
    case Error =>
    case Preparing => FillGrew(s.(fillStart := raw, mode := Filling), c, raw, true);
    case Filling => FillGrew(s, c, raw, false);
    case Delayed => DelayGrew(s, c, raw);
    case Returning =>
      EpochRest(s, c, c);
      ReturnGrew(s, c, raw);
  }

  /** Whatever the mode, a live packet at most joins its lane under its raw time. */
  lemma LiveGrew(s: State, p: Packet, audioStep: nat)
    requires s.Shaped() && Sober(s)
    ensures var r := Process(s, p, audioStep).state; Grew(s.primary, Stored(s, p), r.primary) && Sober(r)
  {
    hide Grew, NoteCadence, NoteEmitted, Route, Shift;
    TailsSelf(s.primary);
    assert Grew(s.primary, Stored(s, p), s.primary) by { SelfGrew(s.primary, Stored(s, p)); }
    var s1, c := NoteCadence(s, p, audioStep), Shift(p, s.offset);
    CadenceRest(s, p, audioStep);
    StoredFits(s, p);
    RouteGrew(s1, c, p.usec);
    var routed := Route(s1, c, p.usec);
    NotedRest(routed.state, routed.carrier);
  }

  lemma SelfGrew(q: seq<Queue>, x: Packet)
    requires |q| == LANES
    ensures Grew(q, x, q)
  {
  }

  lemma GrewUniform(q: seq<Queue>, x: Packet, r: seq<Queue>, formats: seq<Format>)
    requires |q| == LANES && |r| == LANES && |formats| == LANES && Grew(q, x, r) && Uniform(q, formats) && Fitting(x, formats)
    ensures Uniform(r, formats)
  {
    hide Tails, Uniform;
    if Tails(r, q) {
      TailsUniform(r, q, formats);
    } else {
      ExtendedUniform(q, formats, x);
      TailsUniform(r, Extended(q, x), formats);
    }
  }

  lemma LiveSteady(s: State, p: Packet, audioStep: nat, formats: seq<Format>)
    requires s.Shaped() && |formats| == LANES && Steady(s, formats) && Fitting(p, formats)
    ensures Steady(Process(s, p, audioStep).state, formats)
  {
    hide Uniform, Process, Grew, Stored;
    LiveGrew(s, p, audioStep);
    StoredFits(s, p);
    GrewUniform(s.primary, Stored(s, p), Process(s, p, audioStep).state.primary, formats);
  }

  lemma HoldSteady(s: State, p: Packet, compatible: bool, formats: seq<Format>)
    requires s.Shaped() && |formats| == LANES && Steady(s, formats)
    ensures Steady(ReceiveHold(s, p, compatible), formats)
  {
    hide Uniform, ReceiveHold;
    HoldRest(s, p, compatible);
    HoldKeepsReturn(s, p, compatible);
  }

  /** A hold packet neither starts an error return nor ends one. */
  lemma HoldKeepsReturn(s: State, p: Packet, compatible: bool)
    requires s.Shaped()
    ensures var r := ReceiveHold(s, p, compatible); r.errorReturn == s.errorReturn && (s.mode == Returning ==> r.mode == Returning)
  {
    hide FormatClash, NoteHold, StoreHold, Fits, TrimHold, OpensHold;
    if TakesHold(s) {
      NoteReturn(s, p);
      StoreReturn(NoteHold(s, p), p);
      var s2 := StoreHold(NoteHold(s, p), p);
      TrimReturn(s2, LaneFor(p));
      TrimReturn(s2.(holdReady := true), LaneFor(p));
      TrimReturn(s2.(mode := Error), LaneFor(p));
      OpensPreparing(s, p);
    }
  }

  lemma NoteReturn(s: State, p: Packet)
    requires s.Shaped()
    ensures NoteHold(s, p).errorReturn == s.errorReturn && NoteHold(s, p).mode == s.mode
  {
    hide RestartHold, OpensHold;
    RestartReturn(s.(holdFormats := s.holdFormats[LaneFor(p) := Some(FormatOf(p))]), p);
  }

  lemma StoreReturn(s: State, p: Packet)
    requires s.Shaped()
    ensures StoreHold(s, p).errorReturn == s.errorReturn && StoreHold(s, p).mode == s.mode
  {
  }

  lemma OpensPreparing(s: State, p: Packet)
    ensures OpensHold(s, p) ==> s.mode == Preparing
  {
  }

  lemma RestartReturn(s: State, p: Packet)
    requires s.Shaped()
    ensures RestartHold(s, p).errorReturn == s.errorReturn && RestartHold(s, p).mode == s.mode
  {
    hide From, TotalSize;
  }

  lemma {:induction false} TrimReturn(s: State, l: nat)
    requires s.Shaped() && l < LANES
    ensures TrimHold(s, l).errorReturn == s.errorReturn && TrimHold(s, l).mode == s.mode
    decreases |s.hold[l]|
  {
    if s.mode == Preparing && l != 0 && |s.hold[l]| > MAX_HOLD_LANE_PACKETS {
      TrimReturn(s.(hold := s.hold[l := s.hold[l][1..]], holdBuffered := Less(s.holdBuffered, s.hold[l][0].size)), l);
    }
  }

  lemma RequestSteady(s: State, op: Op, formats: seq<Format>)
    requires s.Shaped() && |formats| == LANES && Steady(s, formats) && !op.Live? && !op.HoldPacket?
    ensures Steady(Step(s, op), formats)
  {
    NoneUniform(formats);
    hide Uniform;
    match op
    case Delay(seconds, active, started) =>
    case Cancel =>
    case Activate =>
    case Maintain =>
  }

  lemma StepSober(s: State, op: Op)
    requires s.Shaped() && Sober(s)
    ensures Sober(Step(s, op))
  {
    hide Process, ReceiveHold, Grew;
    match op
    case Live(p, audioStep) => LiveGrew(s, p, audioStep);
    case HoldPacket(p, compatible) =>
      HoldRest(s, p, compatible);
      HoldKeepsReturn(s, p, compatible);
    case Delay(seconds, active, started) =>
    case Cancel =>
    case Activate =>
    case Maintain =>
  }

  lemma NoneUniform(formats: seq<Format>)
    requires |formats| == LANES
    ensures Uniform(NoQueues(), formats)
  {
  }

  /** Every live packet has its lane's format. */
  predicate Constant(ops: seq<Op>, formats: seq<Format>)
    requires |formats| == LANES
  {
    forall i :: 0 <= i < |ops| && ops[i].Live? ==> Fitting(ops[i].packet, formats)
  }

  lemma {:induction false} EveryRunSteady(ops: seq<Op>, formats: seq<Format>)
    requires |formats| == LANES && Constant(ops, formats)
    ensures Steady(Reached(ops), formats)
  {
    hide Process, ReceiveHold, Steady, Fitting;
    if ops == [] {
      StartSteady(formats);
    } else {
      var s, op := Reached(ops[..|ops| - 1]), ops[|ops| - 1];
      EveryRunSteady(ops[..|ops| - 1], formats);
      match op {
        case Live(p, audioStep) => LiveSteady(s, p, audioStep, formats);
        case HoldPacket(p, compatible) => HoldSteady(s, p, compatible, formats);
        case _ => RequestSteady(s, op, formats);
      }
    }
  }

  lemma StartSteady(formats: seq<Format>)
    requires |formats| == LANES
    ensures Steady(Initial(), formats)
  {
    NoneUniform(formats);
  }

  lemma {:induction false} ReachedAfter(start: seq<Op>, ops: seq<Op>)
    ensures Reached(start + ops) == After(Reached(start), ops)
    decreases |ops|
  {
    hide Step;
    if ops == [] {
      assert start + ops == start;
    } else {
      ReachedAfter(start + ops[..1], ops[1..]);
      assert start + ops == (start + ops[..1]) + ops[1..];
      assert (start + ops[..1])[..|start|] == start;
    }
  }

  /** From every Delayed state that a new session reaches, and over everything that goes on in it, each lane is a
      delay line: it hands out what it holds and is given, in order, and loses only what realignments cut. */
  lemma EveryDelayLine(start: seq<Op>, ops: seq<Op>, formats: seq<Format>, l: nat)
    requires |formats| == LANES && l < LANES && Constant(start, formats)
    requires Reached(start).mode == Delayed && Flows(Reached(start), ops, formats)
    ensures var s, r := Reached(start), Reached(start + ops);
            && r.mode == Delayed && !r.errorReturn
            && Line(s.primary[l], Inputs(s, ops, l), Outputs(s, ops, l), Drops(s, ops, l, 0), 0, TotalDrops(s, ops, l, 0), r.primary[l])
  {
    hide Reached, Uniform, Line, Flows, Inputs, Outputs, Drops, TotalDrops, After;
    EveryRunSteady(start, formats);
    ReachedAfter(start, ops);
    DelayLine(Reached(start), ops, formats, l, 0);
  }

  /** Between realignments such a lane keeps its length and hands out exactly what came that many packets earlier. */
  lemma EveryFixedDelay(start: seq<Op>, ops: seq<Op>, formats: seq<Format>, l: nat)
    requires |formats| == LANES && l < LANES && Constant(start, formats)
    requires Reached(start).mode == Delayed && Flows(Reached(start), ops, formats) && Uncut(Reached(start), ops)
    ensures var s := Reached(start);
            var q, inputs, outputs := s.primary[l], Inputs(s, ops, l), Outputs(s, ops, l);
            && |Reached(start + ops).primary[l]| == |q| && |outputs| == |inputs|
            && forall i :: 0 <= i < |outputs| ==> SamePayload(outputs[i], (q + inputs)[i])
  {
    hide Reached, Uniform, Flows, Uncut, Inputs, Outputs, After, SamePayload;
    EveryRunSteady(start, formats);
    ReachedAfter(start, ops);
    FixedDelay(Reached(start), ops, formats, l);
  }

  // ---------------------------------------------------------------------
  // How every delay starts

  /** Only a video packet ends a fill with a delay. */
  lemma VideoStartsDelay(s: State, p: Packet, audioStep: nat)
    requires s.Shaped() && s.mode == Filling && !p.video
    ensures Process(s, p, audioStep).state.mode != Delayed
  {
    hide NoteCadence, NoteEmitted, StartHold, TakeHold, Underrun, Shift, Fits, EnterDelayed;
    CadenceRest(s, p, audioStep);
    StoredFits(s, p);
    ShiftKeeps(p, s.offset);
    var s1, c := NoteCadence(s, p, audioStep), Shift(p, s.offset);
    var buffered := Buffer(s1, c, p.usec);
    var full := s1.(fromFilling := true, mode := Returning);
    HoldTaken(full, c, false);
    HoldTaken(buffered, c, false);
    var b := StartHold(buffered, c, false);
    BridgedAlike(TakeHold(b.state, b.carrier), true);
    var routed := Route(s1, c, p.usec);
    NotedRest(routed.state, routed.carrier);
  }

  lemma HeadFormat(s: State, formats: seq<Format>)
    requires s.Shaped() && |formats| == LANES && Uniform(s.primary, formats) && s.primary[0] != []
    ensures FormatOf(s.primary[0][0]) == formats[0]
  {
    assert Packed(s.primary[0], formats[0]);
  }

  /** Over every run with constant live formats, the first delayed packet is the keyframe that began the fill, at
      least the target old. */
  lemma EveryFirstDelayed(ops: seq<Op>, p: Packet, audioStep: nat, formats: seq<Format>)
    requires |formats| == LANES && Constant(ops, formats) && Fitting(p, formats)
    requires Reached(ops).mode == Filling && Process(Reached(ops), p, audioStep).state.mode == Delayed
    ensures var s := Reached(ops); var out := Process(s, p, audioStep).carrier;
            && s.primary[0] != [] && out.keyframe && out.id == s.primary[0][0].id && out.encoder == s.primary[0][0].encoder
            && s.primary[0][0].usec == s.fillStart && p.usec - s.fillStart >= s.target * 1_000_000
  {
    hide Reached, Process, Uniform, Constant;
    var s := Reached(ops);
    EveryRunFillHead(ops);
    EveryRunSteady(ops, formats);
    if !p.video {
      VideoStartsDelay(s, p, audioStep);
    }
    HeadFormat(s, formats);
    FirstDelayed(s, p, audioStep);
  }
}
