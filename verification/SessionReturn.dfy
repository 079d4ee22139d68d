/** What an error return and a reconnect lead to. */
module SessionReturn {
  import opened Options
  import opened SessionSpec

  /** The state after live packets. */
  function After(s: State, ps: seq<Packet>, steps: seq<nat>): (r: State)
    requires s.Shaped() && |ps| == |steps|
    ensures r.Shaped()
    decreases |ps|
  {
    if ps == [] then s else Process(After(s, ps[..|ps| - 1], steps[..|ps| - 1]), ps[|ps| - 1], steps[|ps| - 1]).state
  }

  /** The fallback packets of the side that the return came from. */
  function Side(s: State): seq<Option<Packet>> {
    if s.fromFilling then s.holdFallback else s.primaryFallback
  }

  /** The carrier has the lane's fallback payload when that fits it, and its own otherwise. */
  predicate Safe(fallback: seq<Option<Packet>>, p: Packet, out: Packet)
    requires |fallback| == LANES
  {
    var f := fallback[LaneFor(p)];
    var payload := if f.Some? && Compatible(p, f.value) then f.value else p;
    out.id == payload.id && out.encoder == payload.encoder && out.keyframe == payload.keyframe && FormatOf(out) == FormatOf(p)
  }

  /** Waiting for a live keyframe after an error. */
  predicate Waiting(s: State) { s.Shaped() && s.mode == Returning && s.errorReturn }

  lemma CadenceWaits(s: State, p: Packet, step: nat)
    requires s.Shaped()
    ensures var r := NoteCadence(s, p, step);
            && r.mode == s.mode && r.errorReturn == s.errorReturn && Side(r) == Side(s) && r.fromFilling == s.fromFilling
            && r.offset == s.offset
  {
    hide StepAfter, Hole;
  }

  lemma ShiftSame(p: Packet, offset: int)
    ensures var c := Shift(p, offset);
            && c.id == p.id && c.encoder == p.encoder && c.keyframe == p.keyframe && FormatOf(c) == FormatOf(p) && c.video == p.video
            && LaneFor(c) == LaneFor(p)
  {
  }

  lemma NotedSame(s: State, p: Packet)
    ensures var r := NoteEmitted(s, p);
            r.mode == s.mode && r.errorReturn == s.errorReturn && r.fromFilling == s.fromFilling && Side(r) == Side(s) && (s.Shaped() ==> r.Shaped())
  {
    hide Presented;
  }

  lemma FallbackSafe(fallback: seq<Option<Packet>>, p: Packet, c: Packet)
    requires |fallback| == LANES && FormatOf(c) == FormatOf(p) && LaneFor(c) == LaneFor(p)
    requires c.id == p.id && c.encoder == p.encoder && c.keyframe == p.keyframe
    ensures Safe(fallback, p, TakeFallback(fallback, c).carrier)
  {
  }

  lemma WaitStep(s: State, p: Packet, step: nat)
    requires Waiting(s) && !(p.video && p.keyframe)
    ensures var r := Process(s, p, step);
            Waiting(r.state) && r.state.fromFilling == s.fromFilling && Side(r.state) == Side(s) && Safe(Side(s), p, r.carrier)
  {
    hide NoteCadence, NoteEmitted, Shift, TakeFallback, Safe;
    CadenceWaits(s, p, step);
    ShiftSame(p, s.offset);
    var s1, c := NoteCadence(s, p, step), Shift(p, s.offset);
    FallbackSafe(Side(s), p, c);
    NotedSame(s1, TakeFallback(Side(s), c).carrier);
  }

  lemma {:induction false} EveryWait(s: State, ps: seq<Packet>, steps: seq<nat>)
    requires Waiting(s) && |ps| == |steps| && forall i :: 0 <= i < |ps| ==> !(ps[i].video && ps[i].keyframe)
    ensures var r := After(s, ps, steps); Waiting(r) && r.fromFilling == s.fromFilling && Side(r) == Side(s)
    decreases |ps|
  {
    hide Process;
    if ps != [] {
      var n := |ps| - 1;
      EveryWait(s, ps[..n], steps[..n]);
      WaitStep(After(s, ps[..n], steps[..n]), ps[n], steps[n]);
    }
  }

  lemma GoesLive(s: State, p: Packet, step: nat)
    requires Waiting(s) && p.video && p.keyframe
    ensures var r := Process(s, p, step);
            r.state.mode == Error && r.carrier.id == p.id && r.carrier.encoder == p.encoder && r.carrier.keyframe
  {
    hide NoteCadence, NoteEmitted, Shift, BeginEpoch;
    CadenceWaits(s, p, step);
    ShiftSame(p, s.offset);
    var s1, c := NoteCadence(s, p, step), Shift(p, s.offset);
    EpochSamePayload(s1, c);
    NotedSame(GoLive(s1, c).state, GoLive(s1, c).carrier);
  }

  lemma EpochSamePayload(s: State, c: Packet)
    ensures var r := BeginEpoch(s, c, c).carrier; r.id == c.id && r.encoder == c.encoder && r.keyframe == c.keyframe
  {
    hide Presented, NextSafe;
  }

  /** After an error return every packet carries the fallback payload of its lane or its own, however long it takes;
      the first live keyframe leaves as itself and ends in Error. */
  lemma ErrorReturnLands(s: State, fromFilling: bool, ps: seq<Packet>, steps: seq<nat>, p: Packet, step: nat)
    requires s.Shaped() && |ps| == |steps| && forall i :: 0 <= i < |ps| ==> !(ps[i].video && ps[i].keyframe)
    ensures var r := After(ReturnWithError(s, fromFilling), ps, steps);
            var out := Process(r, p, step);
            if p.video && p.keyframe then
              out.state.mode == Error && out.carrier.id == p.id && out.carrier.encoder == p.encoder && out.carrier.keyframe
            else
              out.state.mode == Returning && Safe(if fromFilling then s.holdFallback else s.primaryFallback, p, out.carrier)
  {
    hide Process, Safe, After;
    var start := ReturnWithError(s, fromFilling);
    EveryWait(start, ps, steps);
    if p.video && p.keyframe {
      GoesLive(After(start, ps, steps), p, step);
    } else {
      WaitStep(After(start, ps, steps), p, step);
    }
  }

  /** After a reconnect live packets pass untouched, their own times included, until a delay is requested again. */
  lemma {:induction false} ReconnectedFresh(s: State, ps: seq<Packet>, steps: seq<nat>, p: Packet, step: nat)
    requires s.Shaped() && |ps| == |steps|
    ensures After(Reconnected(s), ps, steps) == Reconnected(s)
    ensures Process(After(Reconnected(s), ps, steps), p, step).carrier == p
    decreases |ps|
  {
    if ps != [] {
      var n := |ps| - 1;
      ReconnectedFresh(s, ps[..n], steps[..n], ps[n], steps[n]);
    }
  }
}
