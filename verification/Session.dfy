/** The output session as an object. */
module SessionEngine {
  // Its fields, kept in one record, are rewritten by each locked call, and each call is proved against the
  // functions on values.

  import opened Options
  import opened SessionSpec
  import opened SessionSearch
  import opened SessionBytes
  import opened SessionDelayLine

  predicate Sound(s: State) {
    s.Shaped() && Counted(s) && FillHead(s)
  }

  lemma StartSound()
    ensures Sound(Initial())
  {
    StartCounted();
    NoFillHead();
  }

  /** Every public call keeps the counters exact and the fill's head. */
  lemma StepSound(s: State, op: Op)
    requires Sound(s)
    ensures Sound(Step(s, op))
  {
    hide Process, ReceiveHold, Counted, FillHead, RequestDelay, RequestBypass, Reconnected, Retire;
    match op {
      case Live(p, audioStep) =>
        LiveCounted(s, p, audioStep);
        LiveFillHead(s, p, audioStep);
      case HoldPacket(p, compatible) =>
        HoldPacketCounted(s, p, compatible);
        HoldFillHead(s, p, compatible);
      case _ =>
        RequestCounted(s, op);
        RequestFillHead(s, op);
    }
  }

  class OutputSession {
    var state: State

    predicate Shaped()
      reads this
    {
      state.Shaped()
    }

    /** Byte counters are the exact sums within their limits, and a fill starts with its keyframe. */
    predicate Valid()
      reads this
    {
      Sound(state)
    }

    constructor ()
      ensures Valid() && state == Initial()
    {
      state := Initial();
      StartSound();
    }

    // -------------------------------------------------------------------
    // The shared timeline

    method BeginTimelineEpochLocked(carrier: Packet, payload: Packet) returns (c: Packet)
      modifies this
      ensures Flow(state, c) == BeginEpoch(old(state), carrier, payload)
    {
      if !carrier.video || state.maxPts.None? {
        return carrier;
      }
      var candidate, next := Presented(carrier, payload), NextSafe(state);
      if candidate >= next {
        return carrier;
      }
      c := Shift(carrier, next - candidate);
      state := state.(offset := SatAdd(state.offset, next - candidate));
    }

    method NoteEmittedVideoLocked(p: Packet)
      modifies this
      ensures state == NoteEmitted(old(state), p)
    {
      if !p.video {
        return;
      }
      var pts := Presented(p, p);
      if state.maxPts.None? || pts > state.maxPts.value {
        state := state.(maxPts := Some(pts));
      }
    }

    method NotePrimaryCadenceLocked(p: Packet, audioStep: nat)
      requires Shaped()
      modifies this
      ensures state == NoteCadence(old(state), p, audioStep)
    {
      var l := LaneFor(p);
      var step, hole := MeasureStep(state, p, audioStep);
      state := state.(steps := state.steps[l := step], realign := state.realign || hole,
                      lastPrimary := state.lastPrimary[l := Some(p.usec)],
                      primaryFormats := state.primaryFormats[l := Some(FormatOf(p))]);
      if p.video && step > 0 {
        state := state.(frame := step);
      }
    }

    // -------------------------------------------------------------------
    // Payloads

    method BufferPrimary(p: Packet, raw: int) returns (ok: bool)
      requires Shaped()
      modifies this
      ensures ok == Fits(MAX_PRIMARY_BYTES, old(state).buffered, p.size)
      ensures state == if ok then Buffer(old(state), p, raw) else old(state)
    {
      ok := Fits(MAX_PRIMARY_BYTES, state.buffered, p.size);
      if ok {
        var l := LaneFor(p);
        state := state.(primary := state.primary[l := state.primary[l] + [p.(usec := raw)]], buffered := state.buffered + p.size);
      }
    }

    /** Swaps in the next delayed payload, or the fallback. */
    method ReplaceFromPrimary(carrier: Packet) returns (c: Packet, ok: bool, fallback: bool)
      requires Shaped()
      modifies this
      ensures Taken(state, c, ok, fallback) == TakePrimary(old(state), carrier)
    {
      var l := LaneFor(carrier);
      var choice := Choose(state.primary[l], state.primaryFallback[l], carrier);
      match choice
      case FromQueue =>
        var chosen := state.primary[l][0];
        NoteSourceLocked(l, chosen.usec);
        if !chosen.video || chosen.keyframe {
          state := state.(primaryFallback := state.primaryFallback[l := Some(chosen)]);
        }
        state := state.(primary := state.primary[l := state.primary[l][1..]], buffered := Less(state.buffered, chosen.size));
        c, ok, fallback := Replace(carrier, chosen), true, false;
      case FromFallback =>
        var chosen := state.primaryFallback[l].value;
        NoteSourceLocked(l, chosen.usec);
        c, ok, fallback := Replace(carrier, chosen), true, true;
      case Unavailable =>
        c, ok, fallback := carrier, false, false;
    }

    method NoteSourceLocked(l: nat, usec: int)
      requires Shaped() && l < LANES
      modifies this
      ensures state == NoteSource(old(state), l, usec)
    {
      if state.lastEmitted[l].Some? && Hole(state.steps[l], usec - state.lastEmitted[l].value) {
        state := state.(realign := true);
      }
      state := state.(lastEmitted := state.lastEmitted[l := Some(usec)]);
    }

    method ReplaceFromHold(carrier: Packet) returns (c: Packet, ok: bool, fallback: bool)
      requires Shaped()
      modifies this
      ensures Taken(state, c, ok, fallback) == TakeHold(old(state), carrier)
    {
      var l := LaneFor(carrier);
      match Choose(state.hold[l], state.holdFallback[l], carrier)
      case FromQueue =>
        c, ok, fallback := Replace(carrier, state.hold[l][0]), true, false;
        state := state.(hold := state.hold[l := state.hold[l][1..]], holdBuffered := Less(state.holdBuffered, state.hold[l][0].size));
      case FromFallback =>
        c, ok, fallback := Replace(carrier, state.holdFallback[l].value), true, true;
      case Unavailable =>
        c, ok, fallback := carrier, false, false;
    }

    method ReturnLiveWithErrorLocked(fromFilling: bool)
      modifies this
      ensures state == ReturnWithError(old(state), fromFilling)
    {
      state := state.(errorReturn := true);
      state := state.(fromFilling := fromFilling);
      state := state.(mode := Returning);
    }

    // -------------------------------------------------------------------
    // Realignment

    method IsCovered(origin: int) returns (covered: bool)
      requires Shaped() && LanesReady(state)
      ensures covered == Covered(state, origin)
    {
      var lane := 1;
      while lane < LANES
        invariant 1 <= lane <= LANES
        invariant forall l :: l in state.active && l < lane ==> state.primary[l][|state.primary[l]| - 1].usec >= origin
      {
        if lane in state.active && state.primary[lane][|state.primary[lane]| - 1].usec < origin {
          return false;
        }
        lane := lane + 1;
      }
      covered := true;
    }

    /** Cuts every lane at the origin, in place. */
    method CutPrimaryLocked(origin: int)
      requires Shaped()
      modifies this
      ensures state == CutAt(old(state), origin)
    {
      var lanes, left := CutLanes(state.primary, 0, origin, state.buffered);
      assert lanes == CutAt(state, origin).primary;
      state := state.(primary := lanes, buffered := left);
      state := state.(primaryFallback := Nothing());
      state := state.(lastEmitted := Nothing(), realign := false);
    }

    /** A hole between the last source packet handed out and the head of the lane asks for realignment. */
    method CheckHeadLocked()
      requires Shaped() && state.primary[0] != []
      modifies this
      ensures state == HeadChecked(old(state))
    {
      hide Hole;
      if state.lastEmitted[0].Some? && Hole(state.steps[0], state.primary[0][0].usec - state.lastEmitted[0].value) {
        state := state.(realign := true);
      }
    }

    method RealignPrimaryLocked(carrier: Packet, raw: int) returns (c: Packet)
      requires Shaped()
      modifies this
      ensures Flow(state, c) == Realign(old(state), carrier, raw)
    {
      hide CutAt, Scan, Skewed, LowerBound, BeginEpoch, Covered, Hole, LanesReady;
      c := carrier;
      if !carrier.video || state.primary[0] == [] {
        return;
      }
      CheckHeadLocked();
      if !state.realign {
        return;
      }
      var ready, lower, skewed := MeasureLanes(state, raw - state.primary[0][0].usec);
      if !ready {
        return;
      }
      if !skewed {
        state := state.(realign := false);
        return;
      }
      var chosen := ScanGops(state, raw - state.target * 1_000_000, lower);
      if chosen.None? {
        return;
      }
      var origin := state.primary[0][chosen.value].usec;
      var covered := IsCovered(origin);
      if !covered {
        return;
      }
      CutPrimaryLocked(origin);
      if state.primary[0] != [] {
        c := BeginTimelineEpochLocked(carrier, state.primary[0][0]);
      }
    }

    // -------------------------------------------------------------------
    // One live packet

    method StartHoldLocked(carrier: Packet, starting: bool) returns (c: Packet)
      requires Shaped()
      modifies this
      ensures Flow(state, c) == StartHold(old(state), carrier, starting)
    {
      c := carrier;
      if starting && state.hold[0] != [] {
        c := BeginTimelineEpochLocked(carrier, state.hold[0][0]);
      }
    }

    method UnderrunLocked(carrier: Packet, fromFilling: bool) returns (c: Packet)
      modifies this
      ensures Flow(state, c) == Underrun(Taken(old(state), carrier, true, true), fromFilling)
    {
      c := BeginTimelineEpochLocked(carrier, carrier);
      ReturnLiveWithErrorLocked(fromFilling);
    }

    method FillFullLocked(carrier: Packet, starting: bool) returns (c: Packet)
      requires Shaped()
      modifies this
      ensures Flow(state, c) == FillFull(old(state), carrier, starting)
    {
      hide StartHold, TakeHold;
      state := state.(fromFilling := true, mode := Returning);
      c := StartHoldLocked(carrier, starting);
      var ok, fallback;
      c, ok, fallback := ReplaceFromHold(c);
      if !ok {
        ReturnLiveWithErrorLocked(true);
      }
    }

    method EnterDelayedLocked(carrier: Packet) returns (c: Packet)
      requires Shaped() && state.primary[0] != []
      modifies this
      ensures Flow(state, c) == EnterDelayed(old(state), carrier)
    {
      hide BeginEpoch, TakePrimary;
      c := BeginTimelineEpochLocked(carrier, state.primary[0][0]);
      state := state.(mode := Delayed, lastEmitted := Nothing());
      var ok, fallback;
      c, ok, fallback := ReplaceFromPrimary(c);
      if !ok {
        var kept := TakeFallback(state.holdFallback, c);
        c := kept.carrier;
        if kept.ok {
          c := BeginTimelineEpochLocked(c, c);
        }
        ReturnLiveWithErrorLocked(kept.ok);
      }
    }

    method FillLocked(carrier: Packet, raw: int, starting: bool) returns (c: Packet)
      requires Shaped()
      modifies this
      ensures Flow(state, c) == FillStep(old(state), carrier, raw, starting)
    {
      hide FillFull, StartHold, TakeHold, EnterDelayed, Underrun, Buffer, Fits;
      var stored := BufferPrimary(carrier, raw);
      if !stored {
        c := FillFullLocked(carrier, starting);
        return;
      }
      if FillReady(state, carrier, raw) {
        c := EnterDelayedLocked(carrier);
        return;
      }
      c := StartHoldLocked(carrier, starting);
      var ok, fallback;
      c, ok, fallback := ReplaceFromHold(c);
      if !ok {
        ReturnLiveWithErrorLocked(true);
      } else if fallback {
        UnderrunIs(Taken(state, c, ok, fallback), true);
        c := UnderrunLocked(c, true);
      }
    }

    method DrainDelayedLocked(carrier: Packet) returns (c: Packet)
      requires Shaped()
      modifies this
      ensures Flow(state, c) == DrainDelayed(old(state), carrier)
    {
      hide TakePrimary, Underrun;
      var ok, fallback;
      c, ok, fallback := ReplaceFromPrimary(carrier);
      if !ok {
        ReturnLiveWithErrorLocked(false);
      } else if fallback {
        UnderrunIs(Taken(state, c, ok, fallback), false);
        c := UnderrunLocked(c, false);
      }
    }

    method DelayLocked(carrier: Packet, raw: int) returns (c: Packet)
      requires Shaped()
      modifies this
      ensures Flow(state, c) == DelayStep(old(state), carrier, raw)
    {
      hide Realign, DrainDelayed, BeginEpoch, Buffer, Fits;
      var stored := BufferPrimary(carrier, raw);
      if stored {
        c := RealignPrimaryLocked(carrier, raw);
        c := DrainDelayedLocked(c);
        return;
      }
      state := state.(fromFilling := false, drain := true, mode := Returning);
      if carrier.video && carrier.keyframe {
        c := BeginTimelineEpochLocked(carrier, carrier);
        state := state.(mode := Bypass);
      } else {
        c := DrainDelayedLocked(carrier);
      }
    }

    method ReturnLocked(carrier: Packet, raw: int) returns (c: Packet)
      requires Shaped()
      modifies this
      ensures Flow(state, c) == ReturnStep(old(state), carrier, raw)
    {
      hide TakeHold, DrainDelayed, Buffer, Fits;
      var ok, fallback;
      if state.errorReturn {
        c := TakeFallback(if state.fromFilling then state.holdFallback else state.primaryFallback, carrier).carrier;
      } else if state.fromFilling {
        c, ok, fallback := ReplaceFromHold(carrier);
        if !ok {
          ReturnLiveWithErrorLocked(true);
        }
      } else {
        if !state.drain {
          ok := BufferPrimary(carrier, raw);
          if !ok {
            state := state.(drain := true);
          }
        }
        c := DrainDelayedLocked(carrier);
      }
    }

    method GoLiveLocked(carrier: Packet) returns (c: Packet)
      modifies this
      ensures Flow(state, c) == GoLive(old(state), carrier)
    {
      c := BeginTimelineEpochLocked(carrier, carrier);
      state := state.(mode := if state.errorReturn then Error else Bypass);
      state := state.(errorReturn := false);
    }

    /** One packet of the live output, rewritten in place of the carrier. */
    method ProcessPrimaryPacket(p: Packet, audioStep: nat) returns (c: Packet)
      requires Valid()
      modifies this
      ensures Valid() && Flow(state, c) == Process(old(state), p, audioStep)
    {
      hide Counted, FillHead, NoteCadence, Route, NoteEmitted, Shift;
      StepSound(state, Live(p, audioStep));
      if Idle(state) {
        return p;
      }
      NotePrimaryCadenceLocked(p, audioStep);
      c := Shift(p, state.offset);
      CadenceOffset(old(state), p, audioStep);
      c := RouteLocked(c, p.usec);
      NoteEmittedVideoLocked(c);
    }

    method RouteLocked(carrier: Packet, raw: int) returns (c: Packet)
      requires Shaped()
      modifies this
      ensures Flow(state, c) == Route(old(state), carrier, raw)
    {
      hide FillStep, DelayStep, ReturnStep, GoLive, PrerollReady;
      c := carrier;
      match state.mode
      case Bypass =>
      case Error =>
      case Preparing =>
        if carrier.video && carrier.keyframe {
          var ready := IsPrerollReady(state);
          if ready {
            state := state.(fillStart := raw, mode := Filling);
            c := FillLocked(carrier, raw, true);
          }
        }
      case Filling =>
        c := FillLocked(carrier, raw, false);
      case Delayed =>
        c := DelayLocked(carrier, raw);
      case Returning =>
        if carrier.video && carrier.keyframe {
          c := GoLiveLocked(carrier);
        } else {
          c := ReturnLocked(carrier, raw);
        }
    }

    // -------------------------------------------------------------------
    // One hold packet

    method RestartHoldLocked(p: Packet)
      requires Shaped()
      modifies this
      ensures state == RestartHold(old(state), p)
    {
      var emptied := state.hold[0 := []];
      TotalUpdate(state.hold, 0, []);
      TotalAtLeast(state.hold, 0);
      var lanes, left := CutLanes(emptied, 1, p.usec, Less(state.holdBuffered, SizeOf(state.hold[0])));
      assert lanes == RestartHold(state, p).hold;
      state := state.(hold := lanes, holdBuffered := left, holdStart := p.usec);
    }

    method NoteHoldLocked(p: Packet)
      requires Shaped()
      modifies this
      ensures state == NoteHold(old(state), p)
    {
      hide RestartHold;
      var l := LaneFor(p);
      state := state.(holdFormats := state.holdFormats[l := Some(FormatOf(p))]);
      if OpensHold(state, p) {
        RestartHoldLocked(p);
      }
      if !p.video || p.keyframe {
        state := state.(holdFallback := state.holdFallback[l := Some(p)]);
      }
    }

    method TrimHoldLocked(l: nat)
      requires Shaped() && l < LANES
      modifies this
      ensures state == TrimHold(old(state), l)
    {
      while state.mode == Preparing && l != 0 && |state.hold[l]| > MAX_HOLD_LANE_PACKETS
        invariant Shaped() && TrimHold(state, l) == TrimHold(old(state), l)
        decreases |state.hold[l]|
      {
        state := state.(hold := state.hold[l := state.hold[l][1..]], holdBuffered := Less(state.holdBuffered, state.hold[l][0].size));
      }
    }

    method ReceiveHoldPacket(p: Packet, bitstreamCompatible: bool)
      requires Valid()
      modifies this
      ensures Valid() && state == ReceiveHold(old(state), p, bitstreamCompatible)
    {
      hide Counted, FillHead, NoteHold, TrimHold, FormatClash, Fits;
      StepSound(state, HoldPacket(p, bitstreamCompatible));
      if !TakesHold(state) {
        return;
      }
      var preparing, opens := state.mode == Preparing, OpensHold(state, p);
      NoteHoldLocked(p);
      if !Fits(MAX_HOLD_BYTES, state.holdBuffered, p.size) {
        if preparing {
          state := state.(mode := Error);
        } else {
          state := state.(fromFilling := true, mode := Returning);
        }
        return;
      }
      var l := LaneFor(p);
      state := state.(hold := state.hold[l := state.hold[l] + [p]], holdBuffered := state.holdBuffered + p.size);
      if preparing {
        var compatible, complete := CheckFormats(state);
        if !compatible && complete {
          state := state.(mode := Error);
          return;
        }
      }
      if opens {
        state := if bitstreamCompatible then state.(holdReady := true) else state.(mode := Error);
      }
      TrimHoldLocked(l);
    }

    // -------------------------------------------------------------------
    // Requests and lifecycle

    method ClearBuffersLocked()
      requires Shaped()
      modifies this
      ensures state == ClearBuffers(old(state))
    {
      state := state.(primary := NoQueues(), primaryFallback := Nothing(), buffered := 0);
      state := state.(hold := NoQueues(), holdFallback := Nothing(), holdBuffered := 0, holdStart := 0);
    }

    /** Starts a delay; false when the duration or the present mode refuses it, or the hold stream does not start. */
    method RequestDelayLocked(seconds: nat, active: set<nat>, started: bool) returns (ok: bool)
      requires Valid()
      modifies this
      ensures Valid() && state == RequestDelay(old(state), seconds, active, started)
      ensures ok <==> started && 1 <= seconds <= 300 && (old(state).mode == Bypass || old(state).mode == Error)
    {
      hide Counted, FillHead;
      StepSound(state, Delay(seconds, active, started));
      if seconds == 0 || seconds > 300 || (state.mode != Bypass && state.mode != Error) {
        return false;
      }
      ClearBuffersLocked();
      state := state.(target := seconds, fillStart := 0, holdReady := false, fromFilling := false, drain := false,
                      errorReturn := false, active := (set l | l in active && 1 <= l < LANES));
      state := state.(primaryFormats := Nothing(), holdFormats := Nothing(), lastPrimary := Nothing(), lastEmitted := Nothing(),
                      steps := NoSteps(), realign := false);
      state := state.(mode := if started then Preparing else Error);
      ok := started;
    }

    method RequestBypassLocked()
      requires Valid()
      modifies this
      ensures Valid() && state == RequestBypass(old(state))
    {
      hide Counted, FillHead;
      StepSound(state, Cancel);
      match state.mode
      case Bypass =>
      case Returning =>
      case Preparing =>
        state := state.(mode := Bypass, errorReturn := false);
        ClearBuffersLocked();
      case Error =>
        state := state.(mode := Bypass, errorReturn := false);
        ClearBuffersLocked();
      case _ =>
        state := state.(fromFilling := state.mode == Filling);
        state := state.(drain := false, mode := Returning);
    }

    method ActivateSignal()
      requires Valid()
      modifies this
      ensures Valid() && state == Reconnected(old(state))
    {
      hide Counted, FillHead;
      StepSound(state, Activate);
      state := state.(mode := Bypass, errorReturn := false);
      state := state.(offset := 0, maxPts := None, fillStart := 0);
      state := state.(lastPrimary := Nothing(), lastEmitted := Nothing(), steps := NoSteps(), realign := false,
                      primaryFormats := Nothing(), holdFormats := Nothing());
    }

    method Maintenance()
      requires Valid()
      modifies this
      ensures Valid() && state == Retire(old(state))
    {
      hide Counted, FillHead;
      StepSound(state, Maintain);
      var retirePrimary := state.mode == Bypass || state.mode == Error;
      var retireHold := retirePrimary || state.mode == Delayed;
      if retirePrimary {
        state := state.(primary := NoQueues(), primaryFallback := Nothing(), buffered := 0);
      }
      if retireHold {
        state := state.(hold := NoQueues(), holdFallback := Nothing(), holdBuffered := 0, holdStart := 0);
      }
    }
  }

  lemma UnderrunIs(t: Taken, fromFilling: bool)
    requires t.ok && t.fallback
    ensures Underrun(t, fromFilling) == Underrun(Taken(t.state, t.carrier, true, true), fromFilling)
  {
  }

  lemma CadenceOffset(s: State, p: Packet, audioStep: nat)
    requires s.Shaped()
    ensures NoteCadence(s, p, audioStep).offset == s.offset
  {
    hide StepAfter, Hole;
  }
}
