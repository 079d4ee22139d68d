/** When a fill starts and ends, and what counts as a lane's step. */
module SessionCadence {
  // Said on the packets themselves: the half second of hold on every lane, the time since the fill began, the frame
  // duration of the video and the distances between packets.

  import opened Options
  import opened SessionSpec
  import opened SessionRealign
  import opened SessionDelayLine
  import opened SessionSteady
  import opened SessionDrift
  import opened SessionHoldLine
  import opened SessionBytes

  // ---------------------------------------------------------------------
  // The lane's step

  /** Whole microseconds of one frame, at least one. */
  predicate FrameTime(p: Packet, step: int) {
    step >= 1 && p.den > 0 && p.num >= 0 &&
    (step * p.den <= p.num * 1_000_000 || step == 1) && p.num * 1_000_000 < (step + 1) * p.den
  }

  lemma NominalIsFrame(p: Packet, audioStep: nat)
    requires p.video && p.den > 0 && p.num >= 0 && p.num * 1_000_000 <= HIGHEST
    ensures FrameTime(p, Nominal(p, audioStep))
  {
    var ticks := p.num * 1_000_000;
    Quotient(ticks, p.den);
    QuotientBelow(ticks, p.den);
  }

  lemma Quotient(x: nat, d: nat)
    requires d > 0
    ensures (x / d) * d <= x < (x / d + 1) * d
  {
  }

  lemma {:induction false} TimesAtLeast(q: nat, d: nat)
    requires d > 0
    ensures q <= q * d
  {
    if q > 0 {
      TimesAtLeast(q - 1, d);
      assert q * d == (q - 1) * d + d;
    }
  }

  lemma QuotientBelow(x: nat, d: nat)
    requires d > 0
    ensures x / d <= x
  {
    var q := x / d;
    assert q * d <= x by { Quotient(x, d); }
    TimesAtLeast(q, d);
  }

  /** A known step stays; else a video lane takes its frame time, and an audio lane the step it is told or the distance
      to the packet before. */
  predicate LaneStep(s: State, p: Packet, audioStep: nat, step: int)
    requires s.Shaped()
  {
    var before, last := s.steps[LaneFor(p)], s.lastPrimary[LaneFor(p)];
    if before > 0 then step == before
    else if p.video then p.den > 0 && p.num >= 0 && p.num * 1_000_000 <= HIGHEST ==> FrameTime(p, step)
    else if audioStep > 0 then step == audioStep
    else step == if last.Some? && p.usec > last.value then p.usec - last.value else 0
  }

  /** What a live packet tells about its lane: its step, its time, its format, and a hole before it, which asks for a
      realignment. */
  lemma CadenceExactly(s: State, p: Packet, audioStep: nat)
    requires s.Shaped()
    ensures var r := NoteCadence(s, p, audioStep); var l := LaneFor(p);
            && r.steps == s.steps[l := r.steps[l]] && LaneStep(s, p, audioStep, r.steps[l])
            && r.lastPrimary == s.lastPrimary[l := Some(p.usec)] && r.primaryFormats == s.primaryFormats[l := Some(FormatOf(p))]
            && (r.realign <==> s.realign || (s.lastPrimary[l].Some? && Misses(r.steps[l], p.usec - s.lastPrimary[l].value)))
            && r.frame == (if p.video && r.steps[l] > 0 then r.steps[l] else s.frame)
            && r == s.(steps := r.steps, realign := r.realign, lastPrimary := r.lastPrimary, frame := r.frame,
                       primaryFormats := r.primaryFormats)
  {
    hide TicksToUsec;
    StepIs(s, p, audioStep);
    FoundHole(s, p, StepAfter(s, p, audioStep));
  }

  lemma StepIs(s: State, p: Packet, audioStep: nat)
    requires s.Shaped()
    ensures LaneStep(s, p, audioStep, StepAfter(s, p, audioStep))
  {
    hide FrameTime;
    if p.video && p.den > 0 && p.num >= 0 && p.num * 1_000_000 <= HIGHEST {
      NominalIsFrame(p, audioStep);
    }
  }

  lemma FoundHole(s: State, p: Packet, step: nat)
    requires s.Shaped()
    ensures var last := s.lastPrimary[LaneFor(p)];
            last.Some? ==> (p.usec > last.value && Hole(step, p.usec - last.value) <==> Misses(step, p.usec - last.value))
  {
  }

  // ---------------------------------------------------------------------
  // How a fill starts

  /** The live format of a lane once this packet is known. */
  function LiveFormat(s: State, p: Packet, l: nat): Option<Format>
    requires s.Shaped() && l < LANES
  {
    if l == LaneFor(p) then Some(FormatOf(p)) else s.primaryFormats[l]
  }

  /** The hold starts on a keyframe, and on every lane of the output it reaches half a second from its start on and has
      the live format. */
  predicate HoldCovers(s: State, p: Packet)
    requires s.Shaped()
  {
    && s.holdReady && s.hold[0] != [] && s.hold[0][0].keyframe
    && forall l :: 0 <= l < LANES && (l == 0 || l in s.active) ==>
         && s.hold[l] != [] && s.hold[l][|s.hold[l]| - 1].usec - s.holdStart >= 500_000
         && LiveFormat(s, p, l).Some? && LiveFormat(s, p, l) == s.holdFormats[l]
  }

  lemma CoversIsReady(s: State, p: Packet, s1: State)
    requires s.Shaped() && s1.Shaped() && s1.hold == s.hold && s1.holdReady == s.holdReady && s1.holdStart == s.holdStart
    requires s1.active == s.active && s1.holdFormats == s.holdFormats
    requires s1.primaryFormats == s.primaryFormats[LaneFor(p) := Some(FormatOf(p))]
    ensures PrerollReady(s1) <==> HoldCovers(s, p)
  {
    forall l: nat | l < LANES ensures LiveFormat(s, p, l) == s1.primaryFormats[l] {
    }
  }

  /** While the hold is prepared a live packet passes on as it is; a keyframe starts the fill exactly when the hold
      covers every lane. */
  lemma FillStartsExactly(s: State, p: Packet, audioStep: nat)
    requires s.Shaped() && InHold(s) && s.mode == Preparing
    ensures var r := Process(s, p, audioStep);
            && (r.state.mode != Preparing <==> p.video && p.keyframe && HoldCovers(s, p))
            && (r.state.mode == Preparing ==> SamePayload(r.carrier, p))
  {
    hide NoteCadence, NoteEmitted, Shift, FillStep, PrerollReady, HoldCovers;
    var s1, c := NoteCadence(s, p, audioStep), Shift(p, s.offset);
    CadenceExactly(s, p, audioStep);
    CadenceHold(s, p, audioStep);
    CoversIsReady(s, p, s1);
    StoredFits(s, p);
    ShiftKeeps(p, s.offset);
    ShiftPayload(p, s.offset);
    var routed := Route(s1, c, p.usec);
    NotedRest(routed.state, routed.carrier);
    FillGrows(s1.(fillStart := p.usec, mode := Filling), c, p.usec, true);
  }

  lemma ShiftPayload(p: Packet, offset: int)
    ensures SamePayload(Shift(p, offset), p)
  {
    hide UsecToTicks;
  }


  /** While the hold is prepared and has started, its video lane still opens on the keyframe that it started with. */
  predicate HoldHead(s: State)
    requires s.Shaped()
  {
    s.mode == Preparing && s.holdReady ==>
      s.hold[0] != [] && s.hold[0][0].usec == s.holdStart && s.hold[0][0].keyframe && s.hold[0][0].video
  }

  lemma RestartStart(s: State, p: Packet)
    requires s.Shaped()
    ensures RestartHold(s, p).holdStart == p.usec
  {
    hide From, TotalSize;
  }

  lemma {:induction false} TrimStart(s: State, l: nat)
    requires s.Shaped() && l < LANES
    ensures TrimHold(s, l).holdStart == s.holdStart && TrimHold(s, l).holdReady == s.holdReady
    decreases |s.hold[l]|
  {
    if s.mode == Preparing && l != 0 && |s.hold[l]| > MAX_HOLD_LANE_PACKETS {
      TrimStart(s.(hold := s.hold[l := s.hold[l][1..]], holdBuffered := Less(s.holdBuffered, s.hold[l][0].size)), l);
    }
  }

  lemma NoteStart(s: State, p: Packet)
    requires s.Shaped()
    ensures var r := NoteHold(s, p);
            && r.holdStart == (if OpensHold(s, p) then p.usec else s.holdStart) && r.holdReady == s.holdReady
  {
    hide RestartHold;
    var s1 := s.(holdFormats := s.holdFormats[LaneFor(p) := Some(FormatOf(p))]);
    RestartStart(s1, p);
    RestartKeeps(s1, p);
  }

  /** What a hold packet changes about the start of the hold. */
  lemma PrerollStarts(s: State, p: Packet, compatible: bool)
    requires s.Shaped() && s.mode == Preparing && ReceiveHold(s, p, compatible).mode == Preparing
    ensures var r := ReceiveHold(s, p, compatible); var opens := p.video && p.keyframe && !s.holdReady;
            r.holdStart == (if opens then p.usec else s.holdStart) && r.holdReady == (s.holdReady || opens)
  {
    hide NoteHold, StoreHold, TrimHold, FormatClash, Fits;
    NoteStart(s, p);
    var s2 := StoreHold(NoteHold(s, p), p);
    StoreStart(NoteHold(s, p), p);
    TrimStart(s2, LaneFor(p));
    TrimStart(s2.(holdReady := true), LaneFor(p));
    TrimIs(s2.(mode := Error), LaneFor(p));
  }

  lemma StoreStart(s: State, p: Packet)
    requires s.Shaped()
    ensures StoreHold(s, p).holdStart == s.holdStart && StoreHold(s, p).holdReady == s.holdReady
  {
  }

  lemma PacketHoldHead(s: State, p: Packet, compatible: bool)
    requires s.Shaped() && s.mode == Preparing && HoldHead(s)
    ensures HoldHead(ReceiveHold(s, p, compatible))
  {
    hide ReceiveHold, Remaining;
    var r := ReceiveHold(s, p, compatible);
    PrerollJoins(s, p, compatible);
    if r.mode == Preparing {
      PrerollStarts(s, p, compatible);
    }
  }

  lemma LiveHoldHead(s: State, p: Packet, audioStep: nat)
    requires s.Shaped() && HoldHead(s) && Sober(s)
    ensures HoldHead(Process(s, p, audioStep).state)
  {
    hide Route, NoteCadence, NoteEmitted, Shift;
    var s1, c := NoteCadence(s, p, audioStep), Shift(p, s.offset);
    CadenceStart(s, p, audioStep);
    CadenceRest(s, p, audioStep);
    CadenceHold(s, p, audioStep);
    var routed := Route(s1, c, p.usec);
    NotedStart(routed.state, routed.carrier);
    if !Idle(s) {
      if s.mode == Preparing {
        if routed.state.mode == Preparing {
          StaysPreparing(s1, c, p.usec);
        }
      } else if s.mode == Filling {
        FillNotPreparing(s1, c, p.usec);
      } else {
        RouteModes(s1, c, p.usec);
      }
    }
  }

  lemma FillNotPreparing(s: State, c: Packet, raw: int)
    requires s.Shaped() && s.mode == Filling
    ensures Route(s, c, raw).state.mode != Preparing
  {
    hide FillStep;
    FillGrows(s, c, raw, false);
  }

  lemma CadenceStart(s: State, p: Packet, audioStep: nat)
    requires s.Shaped()
    ensures NoteCadence(s, p, audioStep).holdStart == s.holdStart && NoteCadence(s, p, audioStep).holdReady == s.holdReady
  {
    hide StepAfter, Hole;
  }

  lemma NotedStart(s: State, c: Packet)
    ensures var r := NoteEmitted(s, c);
            r.holdStart == s.holdStart && r.holdReady == s.holdReady && r.mode == s.mode && r.hold == s.hold
  {
    hide Presented;
  }

  lemma RequestHoldHead(s: State, op: Op)
    requires s.Shaped() && HoldHead(s) && !op.Live? && !op.HoldPacket?
    ensures HoldHead(Step(s, op))
  {
    match op
    case Delay(_, _, _) =>
    case Cancel => CancelHoldHead(s);
    case Activate =>
    case Maintain =>
  }

  lemma CancelHoldHead(s: State)
    requires s.Shaped()
    ensures RequestBypass(s).mode != Preparing
  {
    if s.mode == Preparing || s.mode == Error {
    } else if s.mode == Bypass || s.mode == Returning {
    }
  }

  lemma {:induction false} EveryRunHoldHead(ops: seq<Op>)
    ensures HoldHead(Reached(ops)) && Sober(Reached(ops))
  {
    hide Process, ReceiveHold, HoldHead;
    if ops == [] {
      assert HoldHead(Initial()) by { StartHoldHead(); }
    } else {
      var s, op := Reached(ops[..|ops| - 1]), ops[|ops| - 1];
      EveryRunHoldHead(ops[..|ops| - 1]);
      StepSober(s, op);
      match op {
        case Live(p, audioStep) => LiveHoldHead(s, p, audioStep);
        case HoldPacket(p, compatible) =>
          if s.mode == Preparing {
            PacketHoldHead(s, p, compatible);
          } else {
            ElsewhereHoldHead(s, p, compatible);
          }
        case _ => RequestHoldHead(s, op);
      }
    }
  }

  lemma StartHoldHead()
    ensures HoldHead(Initial())
  {
  }

  lemma ElsewhereHoldHead(s: State, p: Packet, compatible: bool)
    requires s.Shaped() && s.mode != Preparing
    ensures HoldHead(ReceiveHold(s, p, compatible))
  {
    hide ReceiveHold;
    HoldRest(s, p, compatible);
  }

  /** Over every run: when a fill starts, the hold opens on a keyframe and has, on every lane of the output and in the
      live format, at least half a second from there on. */
  lemma EveryFillCovered(ops: seq<Op>, p: Packet, audioStep: nat, l: nat)
    requires Reached(ops).mode == Preparing && Process(Reached(ops), p, audioStep).state.mode != Preparing
    requires l < LANES && (l == 0 || l in Reached(ops).active)
    ensures var s := Reached(ops);
            && p.video && p.keyframe && s.hold[0] != [] && s.hold[0][0].keyframe
            && s.hold[l] != [] && s.hold[l][|s.hold[l]| - 1].usec - s.hold[0][0].usec >= 500_000
            && LiveFormat(s, p, l).Some? && LiveFormat(s, p, l) == s.holdFormats[l]
  {
    hide Reached, Process;
    EveryRunHoldHead(ops);
    FillStartsExactly(Reached(ops), p, audioStep);
  }

  // ---------------------------------------------------------------------
  // What ends the preroll in an error

  function HoldFormat(s: State, p: Packet, l: nat): Option<Format>
    requires s.Shaped() && l < LANES
  {
    if l == LaneFor(p) then Some(FormatOf(p)) else s.holdFormats[l]
  }

  predicate Unlike(s: State, p: Packet, l: nat)
    requires s.Shaped() && l < LANES
  {
    s.primaryFormats[l].Some? && HoldFormat(s, p, l).Some? && s.primaryFormats[l] != HoldFormat(s, p, l)
  }

  predicate Told(s: State, p: Packet, l: nat)
    requires s.Shaped() && l < LANES
  {
    s.primaryFormats[l].Some? && HoldFormat(s, p, l).Some?
  }

  /** A lane of the output has two formats, those of the lanes before it being known. */
  predicate Clashes(s: State, p: Packet)
    requires s.Shaped()
  {
    exists l :: 0 <= l < LANES && (l == 0 || l in s.active) && Unlike(s, p, l) &&
      forall j :: 0 <= j < l && (j == 0 || j in s.active) ==> Told(s, p, j)
  }

  lemma ClashIs(s: State, p: Packet, s1: State)
    requires s.Shaped() && s1.Shaped() && s1.primaryFormats == s.primaryFormats && s1.active == s.active
    requires s1.holdFormats == s.holdFormats[LaneFor(p) := Some(FormatOf(p))]
    ensures FormatClash(s1) <==> Clashes(s, p)
  {
    forall l: nat | l < LANES ensures HoldFormat(s, p, l) == s1.holdFormats[l] {
    }
    if l: nat :| l < LANES && Required(s1, l) && s1.primaryFormats[l].Some? && s1.holdFormats[l].Some? &&
                 s1.primaryFormats[l] != s1.holdFormats[l] && KnownBelow(s1, l) {
      assert Unlike(s, p, l);
      assert forall j :: 0 <= j < l && (j == 0 || j in s.active) ==> Told(s, p, j);
    }
    if l: nat :| l < LANES && (l == 0 || l in s.active) && Unlike(s, p, l) &&
                 forall j :: 0 <= j < l && (j == 0 || j in s.active) ==> Told(s, p, j) {
      assert KnownBelow(s1, l);
    }
  }

  /** The preroll fails exactly when the hold is full, a lane has two formats, or the first keyframe does not fit. */
  lemma PrerollFailsExactly(s: State, p: Packet, compatible: bool)
    requires s.Shaped() && s.mode == Preparing && Counted(s)
    ensures ReceiveHold(s, p, compatible).mode == Error
            <==> !Room(Prerolling(s, p), p) || Clashes(s, p) || (p.video && p.keyframe && !s.holdReady && !compatible)
  {
    hide FormatClash, NoteHold, StoreHold, TrimHold, Prerolling, Clashes, TotalSize;
    var s1 := NoteHold(s, p);
    NotePreroll(s, p);
    NoteCounted(s, p);
    NoteFormats(s, p);
    var s2 := StoreHold(s1, p);
    StoreFormats(s1, p);
    ClashIs(s, p, s2);
    TrimIs(s2, LaneFor(p));
    TrimIs(s2.(holdReady := true), LaneFor(p));
    TrimIs(s2.(mode := Error), LaneFor(p));
  }

  lemma NoteCounted(s: State, p: Packet)
    requires s.Shaped() && Counted(s)
    ensures Counted(NoteHold(s, p))
  {
    hide RestartHold, TotalSize;
    RestartCounted(s.(holdFormats := s.holdFormats[LaneFor(p) := Some(FormatOf(p))]), p);
  }

  lemma NoteFormats(s: State, p: Packet)
    requires s.Shaped()
    ensures var r := NoteHold(s, p);
            && r.holdFormats == s.holdFormats[LaneFor(p) := Some(FormatOf(p))]
            && r.primaryFormats == s.primaryFormats && r.active == s.active
  {
    hide From, TotalSize;
  }

  lemma StoreFormats(s: State, p: Packet)
    requires s.Shaped()
    ensures var r := StoreHold(s, p);
            r.holdFormats == s.holdFormats && r.primaryFormats == s.primaryFormats && r.active == s.active && r.mode == s.mode
  {
  }

  // ---------------------------------------------------------------------
  // How a fill ends

  lemma EnterTakes(s: State, c: Packet)
    requires s.Shaped() && !s.errorReturn && c.video && s.primary[0] != [] && FormatOf(s.primary[0][0]) == FormatOf(c)
    ensures EnterDelayed(s, c).state.mode == Delayed
  {
    hide BeginEpoch, TakeFallback;
    EpochRest(s, c, s.primary[0][0]);
    var b := BeginEpoch(s, c, s.primary[0][0]);
    var s1 := b.state.(mode := Delayed, lastEmitted := Nothing());
    NotedSource(s1, 0, s1.primary[0][0].usec);
  }

  /** With room for the packet, a fill ends in the delay exactly with a video packet that comes the target after the one
      that began it. */
  lemma FillEndsExactly(s: State, p: Packet, audioStep: nat, formats: seq<Format>)
    requires s.Shaped() && s.mode == Filling && FillHead(s) && |formats| == LANES && Steady(s, formats) && Fitting(p, formats)
    requires Fits(MAX_PRIMARY_BYTES, s.buffered, p.size)
    ensures Process(s, p, audioStep).state.mode == Delayed <==> Filled(s, p)
  {
    hide NoteCadence, NoteEmitted, Shift, StartHold, TakeHold, Underrun, EnterDelayed, Fits, Uniform, Buffer;
    var s1, c, raw := NoteCadence(s, p, audioStep), Shift(p, s.offset), p.usec;
    CadenceRest(s, p, audioStep);
    StoredFits(s, p);
    ShiftKeeps(p, s.offset);
    HeadFormat(s, formats);
    BufferHead(s1, c, raw);
    var b := Buffer(s1, c, raw);
    BufferRest(s1, c, raw);
    assert FillReady(b, c, raw) <==> Filled(s, p);
    if p.video {
      assert FormatOf(b.primary[0][0]) == FormatOf(c);
      EnterTakes(b, c);
    }
    HoldTaken(b, c, false);
    var h := StartHold(b, c, false);
    BridgedAlike(TakeHold(h.state, h.carrier), true);
    var routed := Route(s1, c, raw);
    NotedRest(routed.state, routed.carrier);
  }

  lemma BufferRest(s: State, c: Packet, raw: int)
    requires s.Shaped()
    ensures var r := Buffer(s, c, raw);
            && r.mode == s.mode && r.errorReturn == s.errorReturn && r.fillStart == s.fillStart && r.target == s.target
  {
  }
}
