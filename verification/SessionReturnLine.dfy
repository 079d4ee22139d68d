/** A delay that is turned off runs out in order. */
module SessionReturnLine {
  // While a delay returns to live, its lanes go on as queues: a packet still joins its lane unless memory has run out
  // once, and the front of the lane stands in for it, until a live keyframe or an empty lane.

  import opened Options
  import opened SessionSpec
  import opened SessionRealign
  import opened SessionDelayLine
  import opened SessionSteady
  import opened SessionDrift
  import opened SessionHoldLine

  /** Returning from a running delay, and not failed. */
  predicate Draining(s: State) {
    s.mode == Returning && !s.fromFilling && !s.errorReturn
  }

  /** The packet joins its lane: there is room, and there always was. */
  predicate Enters(s: State, p: Packet) {
    !s.drain && Fits(MAX_PRIMARY_BYTES, s.buffered, p.size)
  }

  /** The lane with the packet, if it enters. */
  function WithNew(s: State, p: Packet): Queue
    requires s.Shaped()
  {
    s.primary[LaneFor(p)] + if Enters(s, p) then [Stored(s, p)] else []
  }

  /** The lane has a packet to hand out. */
  predicate Lasts(s: State, p: Packet)
    requires s.Shaped()
  {
    WithNew(s, p) != [] && FormatOf(WithNew(s, p)[0]) == FormatOf(p)
  }

  /** The packet does not end the return. */
  predicate Passing(p: Packet) { !(p.video && p.keyframe) }

  /** What is handed out next to what stays, and how the return goes on. */
  predicate RunsOut(s: State, p: Packet, r: Flow)
    requires s.Shaped() && r.state.Shaped()
  {
    var l, q := LaneFor(p), WithNew(s, p);
    && Draining(r.state) && r.state.drain == (s.drain || !Enters(s, p))
    && q != [] && r.state.primary == s.primary[l := q[1..]] && SamePayload(r.carrier, q[0])
  }

  lemma HeadOut(s: State, c: Packet)
    requires s.Shaped() && Draining(s)
    requires var q := s.primary[LaneFor(c)]; q != [] && FormatOf(q[0]) == FormatOf(c)
    ensures var l := LaneFor(c); var r := DrainDelayed(s, c);
            && Draining(r.state) && r.state.drain == s.drain && r.state.primary == s.primary[l := s.primary[l][1..]]
            && SamePayload(r.carrier, s.primary[l][0])
  {
    hide Underrun, Hole;
  }

  lemma NoneOut(s: State, c: Packet)
    requires s.Shaped() && Draining(s)
    requires var q := s.primary[LaneFor(c)]; q == [] || FormatOf(q[0]) != FormatOf(c)
    ensures var r := DrainDelayed(s, c).state; r.errorReturn && r.mode == Returning && r.primary == s.primary
  {
    hide BeginEpoch, Hole;
    var l := LaneFor(c);
    if s.primaryFallback[l].Some? && Compatible(c, s.primaryFallback[l].value) {
      NotedSource(s, l, s.primaryFallback[l].value.usec);
      BridgedAlike(TakePrimary(s, c), false);
      UnderrunFails(TakePrimary(s, c));
    }
  }

  lemma UnderrunFails(t: Taken)
    ensures Underrun(t, false).state.errorReturn
  {
    hide BeginEpoch;
  }

  lemma DrainsOn(s: State, c: Packet, raw: int, b: State)
    requires s.Shaped() && b.Shaped() && Draining(s)
    requires b == if !s.drain && Fits(MAX_PRIMARY_BYTES, s.buffered, c.size) then Buffer(s, c, raw)
                  else s.(drain := true)
    ensures Draining(b) && ReturnStep(s, c, raw) == DrainDelayed(b, c)
    ensures b.drain == (s.drain || !Fits(MAX_PRIMARY_BYTES, s.buffered, c.size))
    ensures b.primary == if !s.drain && Fits(MAX_PRIMARY_BYTES, s.buffered, c.size)
                         then Extended(s.primary, c.(usec := raw)) else s.primary
  {
    hide DrainDelayed, Fits;
    if s.drain {
      assert s.(drain := true) == s;
    }
  }

  lemma CadenceDrains(s: State, p: Packet, audioStep: nat)
    requires s.Shaped()
    ensures var r := NoteCadence(s, p, audioStep);
            r.drain == s.drain && r.fromFilling == s.fromFilling && Draining(r) == Draining(s)
  {
    hide StepAfter, Hole;
  }

  lemma NotedDrains(s: State, c: Packet)
    ensures var r := NoteEmitted(s, c);
            r.drain == s.drain && r.primary == s.primary && Draining(r) == Draining(s) && r.errorReturn == s.errorReturn
  {
    hide Presented;
  }

  /** A live packet that does not end the return: the front of its lane stands in for it, or, where the lane has nothing
      that fits, the return fails. */
  lemma ReturningStep(s: State, p: Packet, audioStep: nat)
    requires s.Shaped() && Draining(s) && Passing(p)
    ensures var r := Process(s, p, audioStep); if Lasts(s, p) then RunsOut(s, p, r) else r.state.errorReturn
  {
    hide NoteCadence, NoteEmitted, Shift, ReturnStep, DrainDelayed, Fits;
    var s1, c, raw := NoteCadence(s, p, audioStep), Shift(p, s.offset), p.usec;
    CadenceRest(s, p, audioStep);
    CadenceDrains(s, p, audioStep);
    StoredFits(s, p);
    ShiftKeeps(p, s.offset);
    var b := if !s1.drain && Fits(MAX_PRIMARY_BYTES, s1.buffered, c.size) then Buffer(s1, c, raw) else s1.(drain := true);
    DrainsOn(s1, c, raw, b);
    assert b.primary[LaneFor(p)] == WithNew(s, p);
    var d := DrainDelayed(b, c);
    if Lasts(s, p) {
      HeadOut(b, c);
      JoinedLane(s, p, b.primary, WithNew(s, p)[1..]);
    } else {
      NoneOut(b, c);
    }
    NotedDrains(d.state, d.carrier);
  }

  lemma JoinedLane(s: State, p: Packet, primary: seq<Queue>, rest: Queue)
    requires s.Shaped() && |primary| == LANES
    requires primary == if Enters(s, p) then Extended(s.primary, Stored(s, p)) else s.primary
    ensures primary[LaneFor(p) := rest] == s.primary[LaneFor(p) := rest]
  {
    hide Fits;
    StoredFits(s, p);
  }

  // ---------------------------------------------------------------------
  // Runs

  /** Calls that neither end the return nor find a lane dry. */
  predicate RunsDown(s: State, ops: seq<Op>)
    requires s.Shaped()
    decreases |ops|
  {
    ops != [] ==>
      && (ops[0].HoldPacket? || ops[0].Maintain? || ops[0].Delay? || ops[0].Cancel?
          || (ops[0].Live? && Passing(ops[0].packet) && Lasts(s, ops[0].packet)))
      && RunsDown(Step(s, ops[0]), ops[1..])
  }

  /** What still joins the lane. */
  function LateIn(s: State, ops: seq<Op>, l: nat): Queue
    requires s.Shaped()
    decreases |ops|
  {
    if ops == [] then []
    else
      (if On(ops[0], l) && Enters(s, ops[0].packet) then [Stored(s, ops[0].packet)] else []) +
      LateIn(Step(s, ops[0]), ops[1..], l)
  }

  lemma OtherDrains(s: State, op: Op)
    requires s.Shaped() && Draining(s) && (op.HoldPacket? || op.Maintain? || op.Delay? || op.Cancel?)
    ensures Draining(Step(s, op)) && Step(s, op).primary == s.primary
  {
  }

  /** Over every such run, on every lane: what stands in is what the lane held and what still joined it, in order, one for
      each live packet. */
  lemma {:induction false} ReturnLine(s: State, ops: seq<Op>, l: nat)
    requires s.Shaped() && Draining(s) && l < LANES && RunsDown(s, ops)
    ensures InOrder(s.primary[l] + LateIn(s, ops, l), Outputs(s, ops, l), After(s, ops).primary[l])
    ensures Draining(After(s, ops))
    decreases |ops|
  {
    hide Process, InOrder, Fits, Stored, Lasts, Draining, Passing;
    if ops == [] {
      OrderNothing(s.primary[l]);
    } else {
      var op, next, rest := ops[0], Step(s, ops[0]), ops[1..];
      if op.Live? {
        ReturningStep(s, op.packet, op.audioStep);
        RunOut(s, op.packet, Process(s, op.packet, op.audioStep), l);
        ReturnLine(next, rest, l);
        LiveOrder(s, op, l, next.primary[l], LateIn(next, rest, l), Outputs(next, rest, l), After(next, rest).primary[l]);
      } else {
        OtherDrains(s, op);
        ReturnLine(next, rest, l);
        assert [] + LateIn(next, rest, l) == LateIn(next, rest, l) && [] + Outputs(next, rest, l) == Outputs(next, rest, l);
      }
    }
  }

  /** One live packet in front of what follows it. */
  lemma LiveOrder(s: State, op: Op, l: nat, next: Queue, joined: Queue, out: Queue, rest: Queue)
    requires s.Shaped() && l < LANES && op.Live? && InOrder(next + joined, out, rest)
    requires if On(op, l) then
               var q := WithNew(s, op.packet);
               q != [] && next == q[1..] && SamePayload(Process(s, op.packet, op.audioStep).carrier, q[0])
             else next == s.primary[l]
    ensures InOrder(
              s.primary[l] + ((if On(op, l) && Enters(s, op.packet) then [Stored(s, op.packet)] else []) + joined),
              (if On(op, l) then [Process(s, op.packet, op.audioStep).carrier] else []) + out, rest)
  {
    hide Process, InOrder, SamePayload, Fits, Stored, LaneFor;
    if On(op, l) {
      var q := WithNew(s, op.packet);
      var first: Queue := if Enters(s, op.packet) then [Stored(s, op.packet)] else [];
      OrderTake(q, Process(s, op.packet, op.audioStep).carrier, joined, out, rest);
      assert s.primary[l] + (first + joined) == q + joined;
    } else {
      assert [] + joined == joined && [] + out == out;
    }
  }

  lemma RunOut(s: State, p: Packet, r: Flow, l: nat)
    requires s.Shaped() && r.state.Shaped() && l < LANES && RunsOut(s, p, r)
    ensures Draining(r.state)
    ensures if LaneFor(p) == l then
              WithNew(s, p) != [] && r.state.primary[l] == WithNew(s, p)[1..] && SamePayload(r.carrier, WithNew(s, p)[0])
            else r.state.primary[l] == s.primary[l]
  {
  }

  // ---------------------------------------------------------------------
  // What a delay notes of its source, and what maintenance keeps

  /** A delayed packet that is handed out is the last one of its lane, and a hole before it asks for a realignment. */
  lemma SourceExactly(s: State, c: Packet)
    requires s.Shaped()
    requires var q := s.primary[LaneFor(c)]; q != [] && FormatOf(q[0]) == FormatOf(c)
    ensures var l := LaneFor(c); var at := s.primary[l][0].usec; var last := s.lastEmitted[l]; var r := DrainDelayed(s, c).state;
            && r.lastEmitted == s.lastEmitted[l := Some(at)]
            && (r.realign <==> s.realign || (last.Some? && Misses(s.steps[l], at - last.value)))
  {
    hide Underrun;
    var l := LaneFor(c);
    SourceHole(s, l, s.primary[l][0].usec);
  }

  lemma SourceHole(s: State, l: nat, usec: int)
    requires s.Shaped() && l < LANES
    ensures var last := s.lastEmitted[l]; var r := NoteSource(s, l, usec);
            && r.lastEmitted == s.lastEmitted[l := Some(usec)] && r.primary == s.primary
            && r.primaryFallback == s.primaryFallback
            && (r.realign <==> s.realign || (last.Some? && Misses(s.steps[l], usec - last.value)))
  {
  }

  /** Maintenance frees what is no longer needed: everything once live or failed, the hold once the delay runs. */
  lemma RetireExactly(s: State, l: nat)
    requires s.Shaped() && l < LANES
    ensures var r := Step(s, Maintain); var live := s.mode == Bypass || s.mode == Error;
            && r.primary[l] == (if live then [] else s.primary[l])
            && r.primaryFallback[l] == (if live then None else s.primaryFallback[l])
            && r.hold[l] == (if live || s.mode == Delayed then [] else s.hold[l])
            && r.holdFallback[l] == (if live || s.mode == Delayed then None else s.holdFallback[l])
            && (live ==> r.buffered == 0) && (live || s.mode == Delayed ==> r.holdBuffered == 0)
            && r.mode == s.mode && r.target == s.target && r.offset == s.offset && r.maxPts == s.maxPts
  {
  }
}
