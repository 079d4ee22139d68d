/** Input without holes is delayed by a fixed amount. */
module SessionSmooth {
  // A realignment needs a hole in the source. Where no lane has one since the delay was asked for, none is ever wanted,
  // and every lane hands out exactly what came a fixed number of packets earlier.

  import opened Options
  import opened SessionSpec
  import opened SessionRealign
  import opened SessionDelayLine
  import opened SessionSteady
  import opened SessionDrift
  import opened SessionHoldLine
  import opened SessionCadence
  import opened SessionReturnLine

  /** Source times of a lane, from the last one handed out on. */
  function Times(s: State, l: nat): seq<int>
    requires s.Shaped() && l < LANES
  {
    (if s.lastEmitted[l].Some? then [s.lastEmitted[l].value] else []) + seq(|s.primary[l]|, i requires 0 <= i < |s.primary[l]| => s.primary[l][i].usec)
  }

  predicate NoHoles(step: nat, times: seq<int>) {
    forall i :: 0 < i < |times| ==> !Misses(step, times[i] - times[i - 1])
  }

  /** The lane has no hole, and ends with the newest live packet. */
  predicate LaneSmooth(s: State, l: nat)
    requires s.Shaped() && l < LANES
  {
    && NoHoles(s.steps[l], Times(s, l))
    && (Times(s, l) != [] ==> s.lastPrimary[l] == Some(Times(s, l)[|Times(s, l)| - 1]))
    && (s.lastPrimary[l].Some? ==> s.steps[l] > 0)
  }

  /** No realignment is wanted, and no lane has a hole. */
  predicate Smooth(s: State)
    requires s.Shaped()
  {
    !s.realign && forall l :: 0 <= l < LANES ==> LaneSmooth(s, l)
  }

  /** The delay is being prepared, filled, or running. */
  predicate Underway(s: State) {
    !s.errorReturn && (s.mode == Preparing || s.mode == Filling || s.mode == Delayed)
  }

  /** The packet comes without a hole after the one before on its lane, or is the lane's first and tells its step. */
  predicate InStep(s: State, p: Packet, audioStep: nat)
    requires s.Shaped()
  {
    var last := s.lastPrimary[LaneFor(p)];
    if last.Some? then !Misses(s.steps[LaneFor(p)], p.usec - last.value) else p.video || audioStep > 0
  }

  // ---------------------------------------------------------------------
  // The lanes of one call

  /** What the smoothness of lanes is decided by is the same. */
  predicate SameSource(s: State, r: State) {
    && r.primary == s.primary && r.lastEmitted == s.lastEmitted && r.lastPrimary == s.lastPrimary && r.steps == s.steps
    && r.realign == s.realign
  }

  lemma SameSmooth(s: State, r: State)
    requires s.Shaped() && r.Shaped() && SameSource(s, r) && Smooth(s)
    ensures Smooth(r)
  {
    hide NoHoles;
    forall l | 0 <= l < LANES ensures LaneSmooth(r, l) {
      assert LaneSmooth(s, l);
      assert Times(r, l) == Times(s, l);
    }
  }

  lemma StepKnown(s: State, p: Packet, audioStep: nat)
    requires s.Shaped() && (p.video || audioStep > 0 || s.steps[LaneFor(p)] > 0)
    ensures StepAfter(s, p, audioStep) > 0 && (s.steps[LaneFor(p)] > 0 ==> StepAfter(s, p, audioStep) == s.steps[LaneFor(p)])
  {
    hide TicksToUsec;
  }

  /** The live packet is noted and joins its lane. */
  lemma JoinsSmooth(s: State, p: Packet, audioStep: nat, r: State)
    requires s.Shaped() && Smooth(s) && InStep(s, p, audioStep) && r.Shaped()
    requires var l := LaneFor(p); var n := NoteCadence(s, p, audioStep);
             && r.lastEmitted == s.lastEmitted && r.steps == n.steps && r.lastPrimary == n.lastPrimary && r.realign == n.realign
             && exists x: Packet :: x.usec == p.usec && r.primary == s.primary[l := s.primary[l] + [x]]
    ensures Smooth(r)
  {
    hide NoHoles, NoteCadence, Misses;
    CadenceExactly(s, p, audioStep);
    var l := LaneFor(p);
    assert LaneSmooth(s, l);
    StepKept(s, p, audioStep);
    var x: Packet :| x.usec == p.usec && r.primary == s.primary[l := s.primary[l] + [x]];
    assert Times(r, l) == Times(s, l) + [p.usec];
    LongerSmooth(s.steps[l], r.steps[l], Times(s, l), p.usec);
    forall k | 0 <= k < LANES ensures LaneSmooth(r, k) {
      if k != l {
        assert LaneSmooth(s, k);
        assert Times(r, k) == Times(s, k);
      }
    }
  }

  lemma StepKept(s: State, p: Packet, audioStep: nat)
    requires s.Shaped() && LaneSmooth(s, LaneFor(p)) && InStep(s, p, audioStep)
    ensures var n := NoteCadence(s, p, audioStep); var l := LaneFor(p);
            n.steps[l] > 0 && (s.steps[l] > 0 ==> n.steps[l] == s.steps[l])
  {
    hide Misses, StepAfter, NoHoles;
    StepKnown(s, p, audioStep);
  }

  lemma LongerSmooth(before: nat, step: nat, times: seq<int>, at: int)
    requires NoHoles(before, times) && (before > 0 ==> step == before)
    requires times != [] ==> before > 0 && !Misses(step, at - times[|times| - 1])
    ensures NoHoles(step, times + [at])
  {
    hide Misses;
  }

  /** It is noted alone while nothing is buffered. */
  lemma NotedSmooth(s: State, p: Packet, audioStep: nat, r: State)
    requires s.Shaped() && Smooth(s) && InStep(s, p, audioStep) && r.Shaped()
    requires SameSource(NoteCadence(s, p, audioStep), r) && Times(s, LaneFor(p)) == []
    ensures Smooth(r)
  {
    hide NoHoles, NoteCadence, Misses;
    CadenceExactly(s, p, audioStep);
    var l := LaneFor(p);
    assert LaneSmooth(s, l);
    StepKept(s, p, audioStep);
    assert NoHoles(r.steps[l], []) by { NothingMissed(r.steps[l]); }
    forall k | 0 <= k < LANES ensures LaneSmooth(r, k) {
      assert Times(r, k) == Times(s, k);
      if k != l {
        assert LaneSmooth(s, k);
      }
    }
  }

  lemma NothingMissed(step: nat)
    ensures NoHoles(step, [])
  {
  }

  lemma TimesOut(s: State, l: nat, r: State)
    requires s.Shaped() && r.Shaped() && l < LANES && s.primary[l] != []
    requires r.primary[l] == s.primary[l][1..] && r.lastEmitted[l] == Some(s.primary[l][0].usec)
    ensures var t := Times(s, l);
            && t != [] && Times(r, l) == (if s.lastEmitted[l].Some? then t[1..] else t)
            && (s.lastEmitted[l].Some? ==> |t| > 1 && t[0] == s.lastEmitted[l].value && t[1] == s.primary[l][0].usec)
  {
    var t, u := Times(s, l), Times(r, l);
    if s.lastEmitted[l].Some? {
      assert |u| == |t[1..]|;
      assert forall i :: 0 <= i < |u| ==> u[i] == t[1..][i];
    } else {
      assert |u| == |t|;
      assert forall i :: 0 <= i < |u| ==> u[i] == t[i];
    }
  }

  lemma ShorterSmooth(step: nat, t: seq<int>)
    requires NoHoles(step, t) && |t| > 1
    ensures NoHoles(step, t[1..]) && !Misses(step, t[1] - t[0]) && t[1..][|t| - 2] == t[|t| - 1]
  {
    hide Misses;
    forall i | 0 < i < |t[1..]| ensures !Misses(step, t[1..][i] - t[1..][i - 1]) {
      assert !Misses(step, t[i + 1] - t[i]);
    }
  }

  lemma LaneOut(s: State, l: nat, r: State)
    requires s.Shaped() && r.Shaped() && l < LANES && LaneSmooth(s, l) && s.primary[l] != []
    requires r.primary[l] == s.primary[l][1..] && r.lastEmitted[l] == Some(s.primary[l][0].usec)
    requires r.steps == s.steps && r.lastPrimary == s.lastPrimary
    ensures LaneSmooth(r, l)
    ensures s.lastEmitted[l].Some? ==> !Misses(s.steps[l], s.primary[l][0].usec - s.lastEmitted[l].value)
  {
    hide Misses, Times, NoHoles;
    TimesOut(s, l, r);
    if s.lastEmitted[l].Some? {
      ShorterSmooth(s.steps[l], Times(s, l));
    }
  }

  /** A packet is handed out of a lane without holes. */
  lemma OutSmooth(s: State, l: nat, r: State)
    requires s.Shaped() && r.Shaped() && l < LANES && Smooth(s) && s.primary[l] != []
    requires r.primary == s.primary[l := s.primary[l][1..]] && r.lastEmitted == s.lastEmitted[l := Some(s.primary[l][0].usec)]
    requires r.steps == s.steps && r.lastPrimary == s.lastPrimary
    requires var at := s.primary[l][0].usec; var last := s.lastEmitted[l];
             r.realign <==> s.realign || (last.Some? && Misses(s.steps[l], at - last.value))
    ensures Smooth(r)
  {
    hide Misses, Times, NoHoles, LaneSmooth;
    LaneOut(s, l, r);
    forall k | 0 <= k < LANES ensures LaneSmooth(r, k) {
      if k != l {
        SameLane(s, r, k);
      }
    }
  }

  lemma SameLane(s: State, r: State, k: nat)
    requires s.Shaped() && r.Shaped() && k < LANES && LaneSmooth(s, k) && r.primary[k] == s.primary[k]
    requires r.lastEmitted[k] == s.lastEmitted[k] && r.steps[k] == s.steps[k] && r.lastPrimary[k] == s.lastPrimary[k]
    ensures LaneSmooth(r, k)
  {
    assert Times(r, k) == Times(s, k);
  }

  /** A new delay starts counting from its own first packet. */
  lemma ResetSmooth(s: State, r: State)
    requires s.Shaped() && r.Shaped() && Smooth(s) && r.lastEmitted == Nothing() && r.primary == s.primary
    requires r.steps == s.steps && r.lastPrimary == s.lastPrimary && r.realign == s.realign
    ensures Smooth(r)
  {
    hide LaneSmooth;
    forall l | 0 <= l < LANES ensures LaneSmooth(r, l) {
      LaneReset(s, r, l);
    }
  }

  lemma LaneReset(s: State, r: State, l: nat)
    requires s.Shaped() && r.Shaped() && l < LANES && LaneSmooth(s, l) && r.lastEmitted[l] == None
    requires r.primary[l] == s.primary[l] && r.steps == s.steps && r.lastPrimary == s.lastPrimary
    ensures LaneSmooth(r, l)
  {
    hide Misses, NoHoles, Times;
    TimesReset(s, r, l);
    NothingMissed(r.steps[l]);
    var t := Times(s, l);
    if |t| > 1 {
      ShorterSmooth(s.steps[l], t);
      assert t[1..][|t[1..]| - 1] == t[|t| - 1];
    } else if s.lastEmitted[l].Some? {
      assert Times(r, l) == [];
    }
  }

  lemma TimesReset(s: State, r: State, l: nat)
    requires s.Shaped() && r.Shaped() && l < LANES && r.lastEmitted[l] == None && r.primary[l] == s.primary[l]
    ensures s.lastEmitted[l].Some? ==> |Times(s, l)| > 0
    ensures Times(r, l) == if s.lastEmitted[l].Some? then Times(s, l)[1..] else Times(s, l)
  {
    var t, u := Times(s, l), Times(r, l);
    if s.lastEmitted[l].Some? {
      assert |u| == |t[1..]| && forall i :: 0 <= i < |u| ==> u[i] == t[1..][i];
    } else {
      assert |u| == |t| && forall i :: 0 <= i < |u| ==> u[i] == t[i];
    }
  }

  // ---------------------------------------------------------------------
  // One live packet

  /** Nothing is buffered or handed out before the fill. */
  predicate Unbuffered(s: State)
    requires s.Shaped()
  {
    s.mode == Preparing ==> s.primary == NoQueues() && s.lastEmitted == Nothing()
  }

  lemma EpochSource(s: State, c: Packet, payload: Packet)
    ensures SameSource(s, BeginEpoch(s, c, payload).state)
  {
    hide Presented, NextSafe;
  }

  lemma HoldSource(s: State, c: Packet, starting: bool)
    requires s.Shaped()
    ensures var b := StartHold(s, c, starting); SameSource(s, b.state) && SameSource(b.state, TakeHold(b.state, b.carrier).state)
  {
    hide BeginEpoch;
    if starting && s.hold[0] != [] {
      EpochSource(s, c, s.hold[0][0]);
    }
  }

  /** A lane that has nothing to hand out does not leave the delay running. */
  lemma DryEnds(s: State, c: Packet)
    requires s.Shaped() && (s.primary[LaneFor(c)] == [] || !Compatible(c, s.primary[LaneFor(c)][0]))
    ensures !Underway(DrainDelayed(s, c).state)
  {
    hide BeginEpoch, NoteSource;
    UnderrunFails(TakePrimary(s, c));
  }

  lemma HeadSource(s: State, c: Packet)
    requires s.Shaped()
    requires var q := s.primary[LaneFor(c)]; q != [] && Compatible(c, q[0])
    ensures var l := LaneFor(c); var r := TakePrimary(s, c).state;
            && r.primary == s.primary[l := s.primary[l][1..]] && r.steps == s.steps && r.lastPrimary == s.lastPrimary
            && r.lastEmitted == s.lastEmitted[l := Some(s.primary[l][0].usec)]
            && (r.realign <==>
                  s.realign || (s.lastEmitted[l].Some? && Misses(s.steps[l], s.primary[l][0].usec - s.lastEmitted[l].value)))
    ensures TakePrimary(s, c).ok && !TakePrimary(s, c).fallback && TakePrimary(s, c).state.mode == s.mode
  {
    SourceHole(s, LaneFor(c), s.primary[LaneFor(c)][0].usec);
    NotedSource(s, LaneFor(c), s.primary[LaneFor(c)][0].usec);
    SourceSteps(s, LaneFor(c), s.primary[LaneFor(c)][0].usec);
  }

  lemma SourceSteps(s: State, l: nat, usec: int)
    requires s.Shaped() && l < LANES
    ensures NoteSource(s, l, usec).steps == s.steps && NoteSource(s, l, usec).lastPrimary == s.lastPrimary
  {
  }

  lemma DrainSmooth(s: State, c: Packet)
    requires s.Shaped() && Smooth(s) && Underway(DrainDelayed(s, c).state)
    ensures Smooth(DrainDelayed(s, c).state)
  {
    hide TakePrimary, Underrun, Smooth, Compatible;
    var q := s.primary[LaneFor(c)];
    if q == [] || !Compatible(c, q[0]) {
      DryEnds(s, c);
    } else {
      HeadSource(s, c);
      OutSmooth(s, LaneFor(c), TakePrimary(s, c).state);
    }
  }

  lemma EnterSmooth(s: State, c: Packet)
    requires s.Shaped() && Smooth(s) && c.video && s.primary[0] != [] && FormatOf(s.primary[0][0]) == FormatOf(c)
    ensures Smooth(EnterDelayed(s, c).state)
  {
    hide BeginEpoch, TakePrimary, TakeFallback, Smooth;
    var b := BeginEpoch(s, c, s.primary[0][0]);
    EpochSource(s, c, s.primary[0][0]);
    EpochRest(s, c, s.primary[0][0]);
    var s1 := b.state.(mode := Delayed, lastEmitted := Nothing());
    ResetSmooth(s, s1);
    HeadSource(s1, b.carrier);
    OutSmooth(s1, LaneFor(b.carrier), TakePrimary(s1, b.carrier).state);
  }

  lemma FillSmooth(s: State, c: Packet, raw: int, starting: bool)
    requires s.Shaped() && s.mode == Filling && Underway(FillStep(s, c, raw, starting).state)
    requires Smooth(Buffer(s, c, raw)) && (c.video ==> FormatOf(Buffer(s, c, raw).primary[0][0]) == FormatOf(c))
    ensures Smooth(FillStep(s, c, raw, starting).state)
  {
    hide StartHold, TakeHold, Underrun, EnterDelayed, Fits, Smooth, Buffer;
    var b := Buffer(s, c, raw);
    if !Fits(MAX_PRIMARY_BYTES, s.buffered, c.size) {
      FullEnds(s, c, starting);
    } else if FillReady(b, c, raw) {
      ReadyHead(b, c, raw);
      EnterSmooth(b, c);
    } else {
      HoldSource(b, c, starting);
      var h := StartHold(b, c, starting);
      var t := TakeHold(h.state, h.carrier);
      UnderrunEnds(t);
      SameSmooth(b, h.state);
      SameSmooth(h.state, t.state);
    }
  }

  lemma FullEnds(s: State, c: Packet, starting: bool)
    requires s.Shaped()
    ensures !Underway(FillFull(s, c, starting).state)
  {
    hide StartHold, TakeHold;
    var s1 := s.(fromFilling := true, mode := Returning);
    HoldTaken(s1, c, starting);
  }

  /** Lanes without holes ask for no realignment. */
  lemma NotWanted(s: State)
    requires s.Shaped() && Smooth(s) && s.primary[0] != []
    ensures !Wanted(s)
  {
    hide Misses;
    assert LaneSmooth(s, 0);
    if s.lastEmitted[0].Some? {
      var t := Times(s, 0);
      assert t[0] == s.lastEmitted[0].value && t[1] == s.primary[0][0].usec;
    }
  }

  lemma NoCut(s: State, c: Packet, raw: int)
    requires s.Shaped() && Smooth(s)
    ensures Realign(s, c, raw) == Flow(s, c) && CutOrigin(s, c, raw) == None
  {
    hide Pick, Skewed, Covered, CutAt, BeginEpoch, Smooth, Wanted, HeadChecked;
    RealignExactly(s, c, raw);
    if s.primary[0] != [] {
      NotWanted(s);
      WantedIsChecked(s);
      SmoothFlag(s);
    }
  }

  lemma SmoothFlag(s: State)
    requires s.Shaped() && Smooth(s)
    ensures !s.realign && s.(realign := false) == s
  {
  }

  lemma DelaySmooth(s: State, c: Packet, raw: int)
    requires s.Shaped() && s.mode == Delayed && Underway(DelayStep(s, c, raw).state) && Smooth(Buffer(s, c, raw))
    ensures Smooth(DelayStep(s, c, raw).state)
  {
    hide Realign, DrainDelayed, Fits, Buffer, Smooth, BeginEpoch;
    if !Fits(MAX_PRIMARY_BYTES, s.buffered, c.size) {
      FullDelayEnds(s, c);
    } else {
      NoCut(Buffer(s, c, raw), c, raw);
      DrainSmooth(Buffer(s, c, raw), c);
    }
  }

  lemma FullDelayEnds(s: State, c: Packet)
    requires s.Shaped()
    ensures !Underway(DelayFull(s, c).state)
  {
    hide DrainDelayed, BeginEpoch;
    var s1 := s.(fromFilling := false, drain := true, mode := Returning);
    DrainMode(s1, c);
  }

  lemma BufferJoins(s: State, p: Packet, audioStep: nat, s1: State)
    requires s.Shaped() && Smooth(s) && InStep(s, p, audioStep) && s1.Shaped() && SameSource(NoteCadence(s, p, audioStep), s1)
    ensures var b := Buffer(s1, Shift(p, s.offset), p.usec); Smooth(b)
  {
    hide NoteCadence, Smooth, InStep, Shift;
    CadenceExactly(s, p, audioStep);
    StoredFits(s, p);
    var b := Buffer(s1, Shift(p, s.offset), p.usec);
    var x := Shift(p, s.offset).(usec := p.usec);
    assert b.primary == s.primary[LaneFor(p) := s.primary[LaneFor(p)] + [x]];
    JoinsSmooth(s, p, audioStep, b);
  }

  lemma NotedUnderway(s: State, c: Packet)
    ensures SameSource(s, NoteEmitted(s, c)) && Underway(NoteEmitted(s, c)) == Underway(s) && NoteEmitted(s, c).mode == s.mode
  {
    hide Presented;
  }

  /** What is buffered first has the lane's format, as the packet itself does. */
  lemma FirstFormat(s: State, c: Packet, raw: int, formats: seq<Format>)
    requires s.Shaped() && |formats| == LANES && Uniform(s.primary, formats) && Fitting(c, formats) && c.video
    ensures var b := Buffer(s, c, raw); b.primary[0] != [] && FormatOf(b.primary[0][0]) == FormatOf(c)
  {
    if s.primary[0] != [] {
      HeadFormat(s, formats);
    }
  }

  lemma LiveSmooth(s: State, p: Packet, audioStep: nat, formats: seq<Format>)
    requires s.Shaped() && Underway(s) && Smooth(s) && Unbuffered(s) && InStep(s, p, audioStep)
    requires |formats| == LANES && Uniform(s.primary, formats) && Fitting(p, formats)
    requires Underway(Process(s, p, audioStep).state)
    ensures Smooth(Process(s, p, audioStep).state) && Unbuffered(Process(s, p, audioStep).state)
    ensures Cutting(s, Live(p, audioStep)).None?
  {
    hide NoteCadence, NoteEmitted, Shift, FillStep, DelayStep, Smooth, InStep, Uniform, Buffer, CutOrigin, PrerollReady, Unbuffered;
    var s1, c, raw := NoteCadence(s, p, audioStep), Shift(p, s.offset), p.usec;
    CadenceRest(s, p, audioStep);
    CadenceHold(s, p, audioStep);
    StoredFits(s, p);
    ShiftKeeps(p, s.offset);
    BufferJoins(s, p, audioStep, s1);
    var routed := Route(s1, c, raw);
    NotedUnderway(routed.state, routed.carrier);
    var next := Process(s, p, audioStep).state;
    if c.video {
      FirstFormat(s1, c, raw, formats);
      FirstFormat(s1.(fillStart := raw, mode := Filling), c, raw, formats);
    }
    if s.mode == Preparing {
      if routed.state.mode == Preparing {
        StaysPreparing(s1, c, raw);
        NotedAlone(s, p, audioStep, next);
      } else {
        var s2 := s1.(fillStart := raw, mode := Filling);
        BufferJoins(s, p, audioStep, s2);
        FillSmooth(s2, c, raw, true);
        SameSmooth(routed.state, next);
        BufferedNow(next);
      }
    } else if s.mode == Filling {
      FillSmooth(s1, c, raw, false);
      SameSmooth(routed.state, next);
      FillNotPreparing(s1, c, raw);
      BufferedNow(next);
    } else {
      NoCut(Buffer(s1, c, raw), c, raw);
      DelaySmooth(s1, c, raw);
      SameSmooth(routed.state, next);
      RouteModes(s1, c, raw);
      BufferedNow(next);
    }
  }

  lemma BufferedNow(s: State)
    requires s.Shaped() && s.mode != Preparing
    ensures Unbuffered(s)
  {
  }

  lemma NotedAlone(s: State, p: Packet, audioStep: nat, r: State)
    requires s.Shaped() && s.mode == Preparing && Smooth(s) && Unbuffered(s) && InStep(s, p, audioStep) && r.Shaped()
    requires SameSource(NoteCadence(s, p, audioStep), r)
    ensures Smooth(r) && Unbuffered(r)
  {
    hide NoteCadence, Smooth, InStep;
    CadenceExactly(s, p, audioStep);
    assert Times(s, LaneFor(p)) == [];
    NotedSmooth(s, p, audioStep, r);
  }

  // ---------------------------------------------------------------------
  // Every smooth run

  /** Calls that keep the delay under way, with live packets in step and in their lanes' formats. */
  predicate SmoothRun(s: State, ops: seq<Op>, formats: seq<Format>)
    requires s.Shaped() && |formats| == LANES
    decreases |ops|
  {
    ops != [] ==>
      && Underway(Step(s, ops[0]))
      && (ops[0].Live? ==> InStep(s, ops[0].packet, ops[0].audioStep) && Fitting(ops[0].packet, formats))
      && SmoothRun(Step(s, ops[0]), ops[1..], formats)
  }

  lemma OtherSource(s: State, op: Op)
    requires s.Shaped() && !op.Live? && Underway(s) && Underway(Step(s, op))
    ensures SameSource(s, Step(s, op)) && Step(s, op).mode == s.mode
  {
    hide ReceiveHold;
    match op
    case HoldPacket(p, compatible) =>
      HoldPacketSource(s, p, compatible);
      HoldRest(s, p, compatible);
    case Delay(_, _, _) =>
    case Cancel =>
    case Activate =>
    case Maintain =>
  }

  lemma {:induction false} TrimSource(s: State, l: nat)
    requires s.Shaped() && l < LANES
    ensures SameSource(s, TrimHold(s, l))
    decreases |s.hold[l]|
  {
    if s.mode == Preparing && l != 0 && |s.hold[l]| > MAX_HOLD_LANE_PACKETS {
      TrimSource(s.(hold := s.hold[l := s.hold[l][1..]], holdBuffered := Less(s.holdBuffered, s.hold[l][0].size)), l);
    }
  }

  lemma NoteHoldSource(s: State, p: Packet)
    requires s.Shaped()
    ensures SameSource(s, NoteHold(s, p))
  {
    hide From, TotalSize;
  }

  lemma HoldPacketSource(s: State, p: Packet, compatible: bool)
    requires s.Shaped()
    ensures SameSource(s, ReceiveHold(s, p, compatible))
  {
    hide FormatClash, NoteHold, TrimHold, Fits;
    if TakesHold(s) {
      NoteHoldSource(s, p);
      var s2 := StoreHold(NoteHold(s, p), p);
      TrimSource(s2, LaneFor(p));
      TrimSource(s2.(holdReady := true), LaneFor(p));
      TrimSource(s2.(mode := Error), LaneFor(p));
    }
  }

  lemma SmoothStep(s: State, op: Op, formats: seq<Format>)
    requires s.Shaped() && Underway(s) && Smooth(s) && Unbuffered(s) && |formats| == LANES && Steady(s, formats)
    requires Underway(Step(s, op))
    requires op.Live? ==> InStep(s, op.packet, op.audioStep) && Fitting(op.packet, formats)
    ensures var r := Step(s, op); Smooth(r) && Unbuffered(r) && Steady(r, formats) && Cutting(s, op).None?
  {
    hide Process, ReceiveHold, Smooth, InStep, Uniform, Fitting, CutOrigin;
    if op.Live? {
      LiveSmooth(s, op.packet, op.audioStep, formats);
      LiveSteady(s, op.packet, op.audioStep, formats);
    } else {
      OtherSource(s, op);
      SameSmooth(s, Step(s, op));
      if op.HoldPacket? {
        HoldSteady(s, op.packet, op.compatible, formats);
      } else {
        RequestSteady(s, op, formats);
      }
    }
  }

  lemma {:induction false} SmoothStays(s: State, ops: seq<Op>, formats: seq<Format>)
    requires s.Shaped() && Underway(s) && Smooth(s) && Unbuffered(s) && |formats| == LANES && Steady(s, formats)
    requires SmoothRun(s, ops, formats)
    ensures var r := After(s, ops); Underway(r) && Smooth(r) && Unbuffered(r) && Steady(r, formats) && Uncut(s, ops)
    decreases |ops|
  {
    hide Step, Smooth, Unbuffered, Steady, Cutting, InStep, Underway;
    if ops != [] {
      SmoothStep(s, ops[0], formats);
      SmoothStays(Step(s, ops[0]), ops[1..], formats);
    }
  }

  lemma RequestedSmooth(start: seq<Op>, request: Op, formats: seq<Format>)
    requires request.Delay? && request.started && 1 <= request.seconds <= 300 && |formats| == LANES
    requires Reached(start).mode == Bypass || Reached(start).mode == Error
    ensures var s := Reached(start + [request]); Underway(s) && Smooth(s) && Unbuffered(s) && Steady(s, formats)
  {
    assert (start + [request])[..|start|] == start;
    var s := Reached(start + [request]);
    NoneUniform(formats);
    forall l | 0 <= l < LANES ensures LaneSmooth(s, l) {
      assert Times(s, l) == [];
    }
  }

  /** From the request for a delay on, input without holes is never cut, and once the delay runs each lane keeps its
      length and hands out exactly what came that many packets earlier. */
  lemma EverySmoothDelay(start: seq<Op>, request: Op, fill: seq<Op>, ops: seq<Op>, formats: seq<Format>, l: nat)
    requires request.Delay? && request.started && 1 <= request.seconds <= 300 && |formats| == LANES && l < LANES
    requires Reached(start).mode == Bypass || Reached(start).mode == Error
    requires SmoothRun(Reached(start + [request]), fill + ops, formats)
    requires Reached(start + [request] + fill).mode == Delayed && Flows(Reached(start + [request] + fill), ops, formats)
    ensures var s := Reached(start + [request] + fill);
            var q, inputs, outputs := s.primary[l], Inputs(s, ops, l), Outputs(s, ops, l);
            && |Reached(start + [request] + fill + ops).primary[l]| == |q| && |outputs| == |inputs|
            && forall i :: 0 <= i < |outputs| ==> SamePayload(outputs[i], (q + inputs)[i])
  {
    hide Reached, Smooth, Unbuffered, Uniform, SmoothRun, Flows, Uncut, Inputs, Outputs, SamePayload, After;
    var s0 := Reached(start + [request]);
    RequestedSmooth(start, request, formats);
    SmoothParts(s0, fill, ops, formats);
    SmoothStays(s0, fill, formats);
    ReachedAfter(start + [request], fill);
    var s := Reached(start + [request] + fill);
    SmoothStays(s, ops, formats);
    ReachedAfter(start + [request] + fill, ops);
    FixedDelay(s, ops, formats, l);
  }

  lemma {:induction false} SmoothParts(s: State, fill: seq<Op>, ops: seq<Op>, formats: seq<Format>)
    requires s.Shaped() && |formats| == LANES && SmoothRun(s, fill + ops, formats)
    ensures SmoothRun(s, fill, formats) && SmoothRun(After(s, fill), ops, formats)
    decreases |fill|
  {
    hide Step, InStep, Underway;
    if fill == [] {
      assert fill + ops == ops;
    } else {
      assert (fill + ops)[0] == fill[0] && (fill + ops)[1..] == fill[1..] + ops;
      SmoothParts(Step(s, fill[0]), fill[1..], ops, formats);
    }
  }
}
