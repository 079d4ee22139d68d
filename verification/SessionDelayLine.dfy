/** Lanes are delay lines. */
module SessionDelayLine {
  // Each hands out its input a fixed number of packets late.

  import opened Options
  import opened SessionSpec
  import opened SessionRealign

  predicate Tail(r: Queue, q: Queue) {
    |r| <= |q| && r == q[|q| - |r|..]
  }

  /** Every lane has one format. */
  predicate Uniform(lanes: seq<Queue>, formats: seq<Format>)
    requires |lanes| == LANES && |formats| == LANES
  {
    forall l :: 0 <= l < LANES ==> Packed(lanes[l], formats[l])
  }

  predicate Packed(q: Queue, f: Format) {
    forall i :: 0 <= i < |q| ==> FormatOf(q[i]) == f
  }

  predicate Fitting(p: Packet, formats: seq<Format>)
    requires |formats| == LANES
  {
    FormatOf(p) == formats[LaneFor(p)]
  }

  /** The carrier as it is buffered: shifted with the timeline, under its raw time. */
  function Stored(s: State, p: Packet): Packet { Shift(p, s.offset).(usec := p.usec) }

  /** The lanes with one more packet. */
  function Extended(lanes: seq<Queue>, x: Packet): seq<Queue>
    requires |lanes| == LANES
  {
    lanes[LaneFor(x) := lanes[LaneFor(x)] + [x]]
  }

  predicate Tails(r: seq<Queue>, q: seq<Queue>)
    requires |r| == LANES && |q| == LANES
  {
    forall l :: 0 <= l < LANES ==> Tail(r[l], q[l])
  }

  lemma CutTails(s: State, origin: int)
    requires s.Shaped()
    ensures Tails(CutAt(s, origin).primary, s.primary)
  {
    forall l: nat | l < LANES ensures Tail(From(s.primary[l], origin), s.primary[l]) {
      FromIs(s.primary[l], origin);
    }
  }

  lemma TailsSelf(q: seq<Queue>)
    requires |q| == LANES
    ensures Tails(q, q)
  {
  }

  /** Realignment only drops from the fronts of the lanes, and never empties the video lane. */
  lemma RealignTails(s: State, c: Packet, raw: int)
    requires s.Shaped()
    ensures var r := Realign(s, c, raw);
            && Tails(r.state.primary, s.primary) && r.state.mode == s.mode && r.state.errorReturn == s.errorReturn
            && FormatOf(r.carrier) == FormatOf(c)
            && (!c.video ==> r == Flow(s, c)) && (s.primary[0] != [] ==> r.state.primary[0] != [])
  {
    hide Scan, Skewed, Covered, LowerBound, BeginEpoch, CutAt, From, Tail;
    TailsSelf(s.primary);
    if c.video && s.primary[0] != [] {
      var s1 := HeadChecked(s);
      if s1.realign && LanesReady(s1) && Skewed(s1, raw - s1.primary[0][0].usec) {
        var pick := Pick(s1, raw - s1.target * 1_000_000);
        if pick.Some? && Covered(s1, s1.primary[0][pick.value].usec) {
          var origin := s1.primary[0][pick.value].usec;
          CutTails(s1, origin);
          CutRest(s1, origin, pick.value);
          var s2 := CutAt(s1, origin);
          EpochRest(s2, c, s2.primary[0][0]);
        }
      }
    }
  }

  lemma CutRest(s: State, origin: int, i: nat)
    requires s.Shaped() && i < |s.primary[0]| && s.primary[0][i].usec == origin
    ensures var r := CutAt(s, origin); r.mode == s.mode && r.errorReturn == s.errorReturn && r.primary[0] != []
  {
    FromIs(s.primary[0], origin);
    assert CutAt(s, origin).primary[0] == From(s.primary[0], origin);
  }

  lemma EpochRest(s: State, c: Packet, payload: Packet)
    ensures var r := BeginEpoch(s, c, payload);
            && r.state.primary == s.primary && r.state.mode == s.mode && r.state.errorReturn == s.errorReturn
            && FormatOf(r.carrier) == FormatOf(c)
  {
    hide Presented, NextSafe, UsecToTicks;
  }

  lemma TakesHead(s: State, c: Packet)
    requires s.Shaped()
    requires var q := s.primary[LaneFor(c)]; q != [] && Compatible(c, q[0])
    ensures var l := LaneFor(c); var r := DrainDelayed(s, c);
            && r.state.primary == s.primary[l := s.primary[l][1..]] && r.state.mode == s.mode
            && r.state.errorReturn == s.errorReturn && r.carrier.id == s.primary[l][0].id
            && r.carrier.encoder == s.primary[l][0].encoder
  {
    hide Underrun;
    NotedSource(s, LaneFor(c), s.primary[LaneFor(c)][0].usec);
  }

  lemma NotedSource(s: State, l: nat, usec: int)
    requires s.Shaped() && l < LANES
    ensures var r := NoteSource(s, l, usec); r.primary == s.primary && r.mode == s.mode && r.errorReturn == s.errorReturn
  {
  }

  lemma CadenceRest(s: State, p: Packet, audioStep: nat)
    requires s.Shaped()
    ensures var r := NoteCadence(s, p, audioStep);
            && r.primary == s.primary && r.mode == s.mode && r.errorReturn == s.errorReturn && r.buffered == s.buffered
            && r.offset == s.offset && r.target == s.target && r.fillStart == s.fillStart
  {
    hide StepAfter, Hole;
  }

  lemma NotedRest(s: State, c: Packet)
    ensures var r := NoteEmitted(s, c);
            && r.primary == s.primary && r.mode == s.mode && r.errorReturn == s.errorReturn
            && r.target == s.target && r.fillStart == s.fillStart
  {
    hide Presented;
  }

  lemma ExtendedUniform(lanes: seq<Queue>, formats: seq<Format>, x: Packet)
    requires |lanes| == LANES && |formats| == LANES && Uniform(lanes, formats) && Fitting(x, formats)
    ensures Uniform(Extended(lanes, x), formats)
  {
    forall l | 0 <= l < LANES ensures Packed(Extended(lanes, x)[l], formats[l]) {
      assert Packed(lanes[l], formats[l]);
    }
  }

  lemma TailsUniform(r: seq<Queue>, q: seq<Queue>, formats: seq<Format>)
    requires |r| == LANES && |q| == LANES && |formats| == LANES && Tails(r, q) && Uniform(q, formats)
    ensures Uniform(r, formats)
  {
    forall l | 0 <= l < LANES ensures Packed(r[l], formats[l]) {
      assert Packed(q[l], formats[l]) && Tail(r[l], q[l]);
    }
  }

  lemma StoredFits(s: State, p: Packet)
    ensures LaneFor(Stored(s, p)) == LaneFor(p) && FormatOf(Stored(s, p)) == FormatOf(p) && Stored(s, p).id == p.id
    ensures FormatOf(Shift(p, s.offset)) == FormatOf(p) && Shift(p, s.offset).size == p.size && LaneFor(Shift(p, s.offset)) == LaneFor(p)
  {
    hide UsecToTicks;
  }

  /** What one delayed step leaves on the carrier's lane: the packet before the rest of the lane goes out. */
  predicate Shifted(q: Queue, x: Packet, r: Queue, out: Packet) {
    Tail(r, q + [x]) && |r| <= |q| && (q + [x])[|q| - |r|].id == out.id && (q + [x])[|q| - |r|].encoder == out.encoder
  }

  /** A Delayed step below the memory limit: the underrun branches are not taken, no lane grows, the
      carrier's lane hands out exactly the packet in front of what it keeps. */
  lemma DelayedStep(s: State, p: Packet, audioStep: nat, formats: seq<Format>)
    requires s.Shaped() && s.mode == Delayed && !s.errorReturn && |formats| == LANES
    requires Uniform(s.primary, formats) && Fitting(p, formats) && Fits(MAX_PRIMARY_BYTES, s.buffered, p.size)
    ensures var r := Process(s, p, audioStep); var l := LaneFor(p);
            && r.state.Shaped() && r.state.mode == Delayed && !r.state.errorReturn && Uniform(r.state.primary, formats)
            && Shifted(s.primary[l], Stored(s, p), r.state.primary[l], r.carrier)
            && (forall k :: 0 <= k < LANES && k != l ==> Tail(r.state.primary[k], s.primary[k]))
  {
    hide NoteCadence, Realign, DrainDelayed, NoteEmitted, Shift, Fits, Uniform, Tail;
    var l := LaneFor(p);
    var s1 := NoteCadence(s, p, audioStep);
    CadenceRest(s, p, audioStep);
    StoredFits(s, p);
    var c := Shift(p, s.offset);
    var b := Buffer(s1, c, p.usec);
    assert b.primary == Extended(s.primary, Stored(s, p));
    ExtendedUniform(s.primary, formats, Stored(s, p));
    RealignTails(b, c, p.usec);
    var a := Realign(b, c, p.usec);
    TailsUniform(a.state.primary, b.primary, formats);
    HeadFits(b, a, c, formats);
    TakesHead(a.state, a.carrier);
    var d := DrainDelayed(a.state, a.carrier);
    NotedRest(d.state, d.carrier);
    PopTails(a.state.primary, b.primary, l);
    TailsUniform(d.state.primary, b.primary, formats);
    ShiftedFrom(s.primary[l], Stored(s, p), a.state.primary[l], d.carrier);
  }

  lemma HeadFits(b: State, a: Flow, c: Packet, formats: seq<Format>)
    requires b.Shaped() && a.state.Shaped() && |formats| == LANES && Uniform(a.state.primary, formats) && Fitting(c, formats)
    requires b.primary[LaneFor(c)] != [] && FormatOf(a.carrier) == FormatOf(c)
    requires (!c.video ==> a == Flow(b, c)) && (b.primary[0] != [] ==> a.state.primary[0] != [])
    ensures LaneFor(a.carrier) == LaneFor(c)
    ensures var q := a.state.primary[LaneFor(c)]; q != [] && Compatible(a.carrier, q[0])
  {
    var l := LaneFor(c);
    assert Packed(a.state.primary[l], formats[l]);
  }

  lemma PopTails(r: seq<Queue>, q: seq<Queue>, l: nat)
    requires |r| == LANES && |q| == LANES && l < LANES && Tails(r, q) && r[l] != []
    ensures Tails(r[l := r[l][1..]], q)
  {
    assert Tail(r[l], q[l]);
  }

  lemma ShiftedFrom(q: Queue, x: Packet, kept: Queue, out: Packet)
    requires Tail(kept, q + [x]) && kept != [] && out.id == kept[0].id && out.encoder == kept[0].encoder
    ensures Shifted(q, x, kept[1..], out)
  {
  }

  // ---------------------------------------------------------------------
  // One call while Delayed, exactly

  /** The time at which a live packet realigns the lanes, when it does. */
  function Cutting(s: State, op: Op): Option<int>
    requires s.Shaped()
  {
    if op.Live? && s.mode == Delayed then
      var c := Shift(op.packet, s.offset);
      CutOrigin(Buffer(NoteCadence(s, op.packet, op.audioStep), c, op.packet.usec), c, op.packet.usec)
    else None
  }

  /** A lane once it is cut. */
  function Remaining(q: Queue, origin: Option<int>): Queue { if origin.None? then q else From(q, origin.value) }

  /** A cut drops the packets before its origin and nothing else. */
  lemma CutDropsPrefix(q: Queue, origin: Option<int>)
    ensures var r := Remaining(q, origin);
            && Tail(r, q) && (origin.None? ==> r == q)
            && (origin.Some? ==> (forall i :: 0 <= i < |q| - |r| ==> q[i].usec < origin.value) && (r != [] ==> r[0].usec >= origin.value))
  {
    if origin.Some? {
      FromIs(q, origin.value);
    }
  }

  /** The lanes with the packet buffered and the cut made. */
  function Lined(s: State, op: Op): (r: seq<Queue>)
    requires s.Shaped() && op.Live?
    ensures |r| == LANES
  {
    var b, origin := Extended(s.primary, Stored(s, op.packet)), Cutting(s, op);
    seq(LANES, l requires 0 <= l < LANES => Remaining(b[l], origin))
  }

  lemma RealignLanes(b: State, c: Packet, raw: int)
    requires b.Shaped()
    ensures var a := Realign(b, c, raw).state; var origin := CutOrigin(b, c, raw);
            a.primary == seq(LANES, l requires 0 <= l < LANES => Remaining(b.primary[l], origin))
  {
    hide BeginEpoch, From, Remaining;
    RealignIs(b, c, raw);
    var origin := CutOrigin(b, c, raw);
    var a := Realign(b, c, raw).state;
    if origin.None? {
      forall l | 0 <= l < LANES ensures a.primary[l] == Remaining(b.primary[l], origin) {
        CutDropsPrefix(b.primary[l], origin);
      }
    } else {
      var cut := CutAt(HeadChecked(b), origin.value);
      if cut.primary[0] != [] {
        EpochRest(cut, c, cut.primary[0][0]);
      }
      forall l | 0 <= l < LANES ensures a.primary[l] == Remaining(b.primary[l], origin) {
        FromRemains(b.primary[l], origin.value);
      }
    }
  }

  lemma FromRemains(q: Queue, origin: int)
    ensures Remaining(q, Some(origin)) == From(q, origin)
  {
  }

  /** A live packet below the memory limit takes no underrun branch: its lane hands out its head, no other lane
      moves but by the cut, and the delay goes on. */
  lemma ExactStep(s: State, p: Packet, audioStep: nat, formats: seq<Format>)
    requires s.Shaped() && s.mode == Delayed && !s.errorReturn && |formats| == LANES
    requires Uniform(s.primary, formats) && Fitting(p, formats) && Fits(MAX_PRIMARY_BYTES, s.buffered, p.size)
    ensures var r := Process(s, p, audioStep); var l := LaneFor(p); var lanes := Lined(s, Live(p, audioStep));
            && r.state.mode == Delayed && !r.state.errorReturn && Uniform(r.state.primary, formats)
            && lanes[l] != [] && r.state.primary == lanes[l := lanes[l][1..]]
            && r.carrier.id == lanes[l][0].id && r.carrier.encoder == lanes[l][0].encoder
  {
    hide NoteCadence, Realign, DrainDelayed, NoteEmitted, Shift, Fits, Uniform, Tail, CutOrigin, Remaining;
    var l := LaneFor(p);
    var s1 := NoteCadence(s, p, audioStep);
    DelayedStep(s, p, audioStep, formats);
    CadenceRest(s, p, audioStep);
    StoredFits(s, p);
    var c := Shift(p, s.offset);
    var b := Buffer(s1, c, p.usec);
    assert b.primary == Extended(s.primary, Stored(s, p));
    ExtendedUniform(s.primary, formats, Stored(s, p));
    RealignTails(b, c, p.usec);
    RealignLanes(b, c, p.usec);
    var a := Realign(b, c, p.usec);
    TailsUniform(a.state.primary, b.primary, formats);
    HeadFits(b, a, c, formats);
    TakesHead(a.state, a.carrier);
    var d := DrainDelayed(a.state, a.carrier);
    NotedRest(d.state, d.carrier);
    assert a.state.primary == Lined(s, Live(p, audioStep));
  }

  /** Hold packets, maintenance and requests for a delay leave a running delay line alone. */
  lemma OtherStep(s: State, op: Op)
    requires s.Shaped() && s.mode == Delayed && (op.HoldPacket? || op.Maintain? || op.Delay?)
    ensures var r := Step(s, op); r.mode == Delayed && r.errorReturn == s.errorReturn && r.primary == s.primary && r.buffered == s.buffered
  {
  }

  // ---------------------------------------------------------------------
  // Runs while Delayed

  /** A call that does not end the delay; a live packet keeps its lane's format and stays below the memory limit. */
  predicate Runs(s: State, op: Op, formats: seq<Format>)
    requires |formats| == LANES
  {
    && (op.Live? || op.HoldPacket? || op.Maintain? || op.Delay?)
    && (op.Live? ==> Fitting(op.packet, formats) && Fits(MAX_PRIMARY_BYTES, s.buffered, op.packet.size))
  }

  /** Any such calls. */
  predicate Flows(s: State, ops: seq<Op>, formats: seq<Format>)
    requires s.Shaped() && |formats| == LANES
    decreases |ops|
  {
    ops != [] ==> Runs(s, ops[0], formats) && Flows(Step(s, ops[0]), ops[1..], formats)
  }

  function After(s: State, ops: seq<Op>): (r: State)
    requires s.Shaped()
    ensures r.Shaped()
    decreases |ops|
  {
    if ops == [] then s else After(Step(s, ops[0]), ops[1..])
  }

  predicate On(op: Op, l: nat) { op.Live? && LaneFor(op.packet) == l }

  /** What a lane is given, as it is buffered. */
  function Inputs(s: State, ops: seq<Op>, l: nat): Queue
    requires s.Shaped()
    decreases |ops|
  {
    if ops == [] then []
    else (if On(ops[0], l) then [Stored(s, ops[0].packet)] else []) + Inputs(Step(s, ops[0]), ops[1..], l)
  }

  /** What a lane hands out. */
  function Outputs(s: State, ops: seq<Op>, l: nat): Queue
    requires s.Shaped()
    decreases |ops|
  {
    if ops == [] then []
    else
      (if On(ops[0], l) then [Process(s, ops[0].packet, ops[0].audioStep).carrier] else []) +
      Outputs(Step(s, ops[0]), ops[1..], l)
  }

  /** How many packets a call's realignment cuts from a lane. */
  function Dropped(s: State, op: Op, l: nat): nat
    requires s.Shaped() && l < LANES
  {
    if op.Live? then
      var q := Extended(s.primary, Stored(s, op.packet))[l];
      var r := Remaining(q, Cutting(s, op));
      if |r| <= |q| then |q| - |r| else 0
    else 0
  }

  /** For each packet a lane hands out, how many were cut from the lane before it, counted on from a number. */
  function Drops(s: State, ops: seq<Op>, l: nat, before: nat): seq<nat>
    requires s.Shaped() && l < LANES
    decreases |ops|
  {
    if ops == [] then []
    else
      var now := before + Dropped(s, ops[0], l);
      (if On(ops[0], l) then [now] else []) + Drops(Step(s, ops[0]), ops[1..], l, now)
  }

  function TotalDrops(s: State, ops: seq<Op>, l: nat, before: nat): nat
    requires s.Shaped() && l < LANES
    decreases |ops|
  {
    if ops == [] then before else TotalDrops(Step(s, ops[0]), ops[1..], l, before + Dropped(s, ops[0], l))
  }

  /** Only a realignment drops anything. */
  lemma DropsNeedCut(s: State, op: Op, l: nat)
    requires s.Shaped() && l < LANES && Cutting(s, op).None?
    ensures Dropped(s, op, l) == 0
  {
  }

  predicate SamePayload(a: Packet, b: Packet) { a.id == b.id && a.encoder == b.encoder }

  /** The i-th packet handed out is the i-th of the lane and its input, not counting what was cut before it; what was
      not handed out or cut is still buffered. */
  predicate Line(q: Queue, inputs: Queue, outputs: Queue, drops: seq<nat>, before: nat, total: nat, r: Queue) {
    var stream := q + inputs;
    && |outputs| == |inputs| == |drops| && before <= total <= before + |q|
    && r == stream[|inputs| + total - before..]
    && (forall i :: 0 <= i < |drops| ==> before <= drops[i] <= total)
    && (forall i, j :: 0 <= i < j < |drops| ==> drops[i] <= drops[j])
    && forall i :: 0 <= i < |outputs| ==> SamePayload(outputs[i], stream[i + drops[i] - before])
  }

  lemma LineNothing(q: Queue, before: nat)
    ensures Line(q, [], [], [], before, before, q)
  {
  }

  /** A call that hands out a packet of the lane. */
  lemma LineOwn(q: Queue, x: Packet, d: nat, out: Packet, inputs: Queue, outputs: Queue, drops: seq<nat>, before: nat, total: nat, r: Queue)
    requires d <= |q| && SamePayload(out, (q + [x])[d]) && Line((q + [x])[d + 1..], inputs, outputs, drops, before + d, total, r)
    ensures Line(q, [x] + inputs, [out] + outputs, [before + d] + drops, before, total, r)
  {
    hide SamePayload;
    var stream := q + ([x] + inputs);
    OwnStream(q, x, d, inputs);
    OwnDrops(d, drops, before, total);
    var o, n := [out] + outputs, [before + d] + drops;
    forall i | 0 <= i < |o| ensures SamePayload(o[i], stream[i + n[i] - before]) {
      if i > 0 {
        assert stream[d + 1..][i - 1 + drops[i - 1] - before - d] == stream[i + drops[i - 1] - before];
      }
    }
  }

  lemma OwnStream(q: Queue, x: Packet, d: nat, inputs: Queue)
    requires d <= |q|
    ensures var stream := q + ([x] + inputs); stream[d + 1..] == (q + [x])[d + 1..] + inputs && stream[d] == (q + [x])[d]
  {
    assert q + ([x] + inputs) == (q + [x]) + inputs;
  }

  lemma OwnDrops(d: nat, drops: seq<nat>, before: nat, total: nat)
    requires forall i :: 0 <= i < |drops| ==> before + d <= drops[i] <= total
    requires forall i, j :: 0 <= i < j < |drops| ==> drops[i] <= drops[j]
    ensures var n := [before + d] + drops; forall i, j :: 0 <= i < j < |n| ==> n[i] <= n[j]
  {
  }

  /** A call that only cuts the lane, if anything. */
  lemma LineOther(q: Queue, d: nat, inputs: Queue, outputs: Queue, drops: seq<nat>, before: nat, total: nat, r: Queue)
    requires d <= |q| && Line(q[d..], inputs, outputs, drops, before + d, total, r)
    ensures Line(q, inputs, outputs, drops, before, total, r)
  {
    var stream := q + inputs;
    assert stream[d..] == q[d..] + inputs;
    forall i | 0 <= i < |outputs| ensures SamePayload(outputs[i], stream[i + drops[i] - before]) {
      assert stream[d..][i + drops[i] - before - d] == stream[i + drops[i] - before];
    }
  }

  lemma LiveLine(s: State, p: Packet, audioStep: nat, formats: seq<Format>, l: nat)
    requires s.Shaped() && s.mode == Delayed && !s.errorReturn && |formats| == LANES && l < LANES
    requires Uniform(s.primary, formats) && Fitting(p, formats) && Fits(MAX_PRIMARY_BYTES, s.buffered, p.size)
    ensures var op := Live(p, audioStep); var d := Dropped(s, op, l); var r := Process(s, p, audioStep);
            && d <= |s.primary[l]|
            && if On(op, l) then
                 var all := s.primary[l] + [Stored(s, p)];
                 r.state.primary[l] == all[d + 1..] && SamePayload(r.carrier, all[d])
               else r.state.primary[l] == s.primary[l][d..]
  {
    hide Process, Cutting, Uniform, Remaining, Fits, Tail;
    var op := Live(p, audioStep);
    ExactStep(s, p, audioStep, formats);
    StoredFits(s, p);
    var q := Extended(s.primary, Stored(s, p))[l];
    CutTail(q, Cutting(s, op));
  }

  lemma CutTail(q: Queue, origin: Option<int>)
    ensures var r := Remaining(q, origin); |r| <= |q| && r == q[|q| - |r|..]
  {
    CutDropsPrefix(q, origin);
  }

  /** What a call does to a lane: the cut, and the packet handed out when the call is a packet of the lane. */
  predicate Moves(s: State, op: Op, l: nat, r: Queue)
    requires s.Shaped() && l < LANES
  {
    var q, d := s.primary[l], Dropped(s, op, l);
    && d <= |q|
    && if On(op, l) then
         var all := q + [Stored(s, op.packet)];
         r == all[d + 1..] && SamePayload(Process(s, op.packet, op.audioStep).carrier, all[d])
       else r == q[d..]
  }

  lemma RunStep(s: State, op: Op, formats: seq<Format>, l: nat)
    requires s.Shaped() && s.mode == Delayed && !s.errorReturn && |formats| == LANES && l < LANES
    requires Uniform(s.primary, formats) && Runs(s, op, formats)
    ensures var next := Step(s, op);
            next.mode == Delayed && !next.errorReturn && Uniform(next.primary, formats) && Moves(s, op, l, next.primary[l])
  {
    hide Process, Uniform, Fitting, Dropped, SamePayload, Fits, Stored;
    if op.Live? {
      ExactStep(s, op.packet, op.audioStep, formats);
      LiveLine(s, op.packet, op.audioStep, formats, l);
    } else {
      OtherStep(s, op);
      NothingDropped(s, op, l);
    }
  }

  lemma LineStep(s: State, op: Op, l: nat, inputs: Queue, outputs: Queue, drops: seq<nat>, before: nat, total: nat, next: Queue, r: Queue)
    requires s.Shaped() && l < LANES && Moves(s, op, l, next)
    requires Line(next, inputs, outputs, drops, before + Dropped(s, op, l), total, r)
    ensures var d := Dropped(s, op, l);
            if On(op, l) then
              Line(s.primary[l], [Stored(s, op.packet)] + inputs, [Process(s, op.packet, op.audioStep).carrier] + outputs,
                   [before + d] + drops, before, total, r)
            else Line(s.primary[l], inputs, outputs, drops, before, total, r)
  {
    hide Process, Line, Dropped, SamePayload, Stored;
    var d := Dropped(s, op, l);
    if On(op, l) {
      LineOwn(s.primary[l], Stored(s, op.packet), d, Process(s, op.packet, op.audioStep).carrier, inputs, outputs, drops, before, total, r);
    } else {
      LineOther(s.primary[l], d, inputs, outputs, drops, before, total, r);
    }
  }

  /** Over every run of calls while Delayed, on every lane, nothing runs dry: the output is the lane and its input in
      order, late by the lane's length, except for what realignments cut. */
  lemma {:induction false} DelayLine(s: State, ops: seq<Op>, formats: seq<Format>, l: nat, before: nat)
    requires s.Shaped() && s.mode == Delayed && !s.errorReturn && |formats| == LANES && l < LANES
    requires Uniform(s.primary, formats) && Flows(s, ops, formats)
    ensures var r := After(s, ops);
            && r.mode == Delayed && !r.errorReturn
            && Line(s.primary[l], Inputs(s, ops, l), Outputs(s, ops, l), Drops(s, ops, l, before), before,
                    TotalDrops(s, ops, l, before), r.primary[l])
    decreases |ops|
  {
    hide Process, Step, Uniform, Line, Runs, Moves, Dropped, Stored, LaneFor;
    if ops == [] {
      LineNothing(s.primary[l], before);
    } else {
      var op, next, rest := ops[0], Step(s, ops[0]), ops[1..];
      var now := before + Dropped(s, op, l);
      RunStep(s, op, formats, l);
      DelayLine(next, rest, formats, l, now);
      LineStep(s, op, l, Inputs(next, rest, l), Outputs(next, rest, l), Drops(next, rest, l, now), before,
               TotalDrops(next, rest, l, now), next.primary[l], After(next, rest).primary[l]);
      assert [] + Inputs(next, rest, l) == Inputs(next, rest, l) && [] + Outputs(next, rest, l) == Outputs(next, rest, l);
      assert [] + Drops(next, rest, l, now) == Drops(next, rest, l, now);
    }
  }

  lemma NothingDropped(s: State, op: Op, l: nat)
    requires s.Shaped() && l < LANES && !op.Live?
    ensures Dropped(s, op, l) == 0
  {
  }

  /** No call of the run realigns. */
  predicate Uncut(s: State, ops: seq<Op>)
    requires s.Shaped()
    decreases |ops|
  {
    ops != [] ==> Cutting(s, ops[0]).None? && Uncut(Step(s, ops[0]), ops[1..])
  }

  lemma {:induction false} UncutDrops(s: State, ops: seq<Op>, l: nat, before: nat)
    requires s.Shaped() && l < LANES && Uncut(s, ops)
    ensures TotalDrops(s, ops, l, before) == before
    decreases |ops|
  {
    hide Step, Cutting;
    if ops != [] {
      DropsNeedCut(s, ops[0], l);
      UncutDrops(Step(s, ops[0]), ops[1..], l, before);
    }
  }

  /** Between realignments the delay is a fixed number of packets: the lane keeps its length and hands out exactly the
      packets that came that many places earlier. */
  lemma FixedDelay(s: State, ops: seq<Op>, formats: seq<Format>, l: nat)
    requires s.Shaped() && s.mode == Delayed && !s.errorReturn && |formats| == LANES && l < LANES
    requires Uniform(s.primary, formats) && Flows(s, ops, formats) && Uncut(s, ops)
    ensures var q, inputs, outputs := s.primary[l], Inputs(s, ops, l), Outputs(s, ops, l);
            && |After(s, ops).primary[l]| == |q| && |outputs| == |inputs|
            && forall i :: 0 <= i < |outputs| ==> SamePayload(outputs[i], (q + inputs)[i])
  {
    hide After, Inputs, Outputs, Drops, TotalDrops, Uniform, Flows, Uncut, SamePayload;
    DelayLine(s, ops, formats, l, 0);
    UncutDrops(s, ops, l, 0);
  }

  // ---------------------------------------------------------------------
  // How the delay line starts

  /** While filling, the video lane starts with the keyframe that began the fill. */
  predicate FillHead(s: State)
    requires s.Shaped()
  {
    && (s.mode == Preparing ==> s.primary[0] == [])
    && (s.mode == Filling ==>
          s.primary[0] != [] && s.primary[0][0].usec == s.fillStart && s.primary[0][0].keyframe && s.primary[0][0].video)
  }

  lemma HoldTaken(s: State, c: Packet, starting: bool)
    requires s.Shaped()
    ensures var b := StartHold(s, c, starting); var t := TakeHold(b.state, b.carrier);
            t.state.primary == s.primary && t.state.fillStart == s.fillStart && t.state.mode == s.mode
  {
    hide BeginEpoch;
    if starting && s.hold[0] != [] {
      EpochRest(s, c, s.hold[0][0]);
      EpochFill(s, c, s.hold[0][0]);
    }
  }

  lemma EpochFill(s: State, c: Packet, payload: Packet)
    ensures BeginEpoch(s, c, payload).state.fillStart == s.fillStart
  {
    hide Presented, NextSafe;
  }

  /** While the mode stays Filling the delay line only grows. */
  lemma FillGrows(s: State, c: Packet, raw: int, starting: bool)
    requires s.Shaped() && s.mode == Filling
    ensures var r := FillStep(s, c, raw, starting).state;
            && r.mode != Preparing
            && (r.mode == Filling ==> r.primary == Buffer(s, c, raw).primary && r.fillStart == s.fillStart)
  {
    hide StartHold, TakeHold, BeginEpoch, TakePrimary, TakeFallback;
    if !Fits(MAX_PRIMARY_BYTES, s.buffered, c.size) {
      HoldTaken(s.(fromFilling := true, mode := Returning), c, starting);
    } else {
      var s1 := Buffer(s, c, raw);
      if FillReady(s1, c, raw) {
        EnterMode(s1, c);
      } else {
        HoldTaken(s1, c, starting);
      }
    }
  }

  lemma EnterMode(s: State, c: Packet)
    requires s.Shaped() && s.primary[0] != []
    ensures EnterDelayed(s, c).state.mode == Delayed || EnterDelayed(s, c).state.mode == Returning
  {
    hide BeginEpoch, TakeFallback;
    var b := BeginEpoch(s, c, s.primary[0][0]);
    var s1 := b.state.(mode := Delayed, lastEmitted := Nothing());
    var l := LaneFor(b.carrier);
    if s1.primary[l] != [] {
      NotedSource(s1, l, s1.primary[l][0].usec);
    }
    if s1.primaryFallback[l].Some? {
      NotedSource(s1, l, s1.primaryFallback[l].value.usec);
    }
  }

  /** No mode but Preparing leads to Filling, and none leads to Preparing. */
  lemma RouteModes(s: State, c: Packet, raw: int)
    requires s.Shaped() && s.mode != Preparing && s.mode != Filling
    ensures Route(s, c, raw).state.mode != Filling && Route(s, c, raw).state.mode != Preparing
  {
    hide BeginEpoch, TakePrimary, TakeHold, TakeFallback, Realign, Fits;
    if s.mode == Delayed {
      RealignTails(Buffer(s, c, raw), c, raw);
      var a := Realign(Buffer(s, c, raw), c, raw);
      DrainMode(a.state, a.carrier);
      DrainMode(s.(fromFilling := false, drain := true, mode := Returning), c);
      EpochRest(s.(fromFilling := false, drain := true, mode := Returning), c, c);
    } else if s.mode == Returning {
      EpochRest(s, c, c);
      DrainMode(s, c);
      DrainMode(Buffer(s, c, raw), c);
      DrainMode(s.(drain := true), c);
      HoldTaken(s, c, false);
    }
  }

  lemma DrainMode(s: State, c: Packet)
    requires s.Shaped()
    ensures DrainDelayed(s, c).state.mode == s.mode || DrainDelayed(s, c).state.mode == Returning
  {
    hide BeginEpoch;
    var l := LaneFor(c);
    if s.primary[l] != [] {
      NotedSource(s, l, s.primary[l][0].usec);
    }
    if s.primaryFallback[l].Some? {
      NotedSource(s, l, s.primaryFallback[l].value.usec);
    }
  }

  lemma BufferHead(s: State, c: Packet, raw: int)
    requires s.Shaped()
    ensures var q := Buffer(s, c, raw).primary[0];
            if s.primary[0] != [] then q != [] && q[0] == s.primary[0][0]
            else if c.video then q == [c.(usec := raw)] else q == []
  {
  }

  lemma LiveFillHead(s: State, p: Packet, audioStep: nat)
    requires s.Shaped() && FillHead(s)
    ensures FillHead(Process(s, p, audioStep).state)
  {
    hide NoteCadence, NoteEmitted, PrerollReady, FillStep, DelayStep, ReturnStep, GoLive, Shift, Buffer;
    BufferHead(NoteCadence(s, p, audioStep), Shift(p, s.offset), p.usec);
    var s1 := NoteCadence(s, p, audioStep);
    CadenceRest(s, p, audioStep);
    StoredFits(s, p);
    var c := Shift(p, s.offset);
    ShiftKeeps(p, s.offset);
    var routed := Route(s1, c, p.usec);
    NotedRest(routed.state, routed.carrier);
    if s.mode == Preparing {
      if c.video && c.keyframe && PrerollReady(s1) {
        BufferHead(s1.(fillStart := p.usec, mode := Filling), c, p.usec);
        FillGrows(s1.(fillStart := p.usec, mode := Filling), c, p.usec, true);
      }
    } else if s.mode == Filling {
      FillGrows(s1, c, p.usec, false);
    } else {
      RouteModes(s1, c, p.usec);
    }
  }

  lemma ShiftKeeps(p: Packet, offset: int)
    ensures Shift(p, offset).video == p.video && Shift(p, offset).keyframe == p.keyframe
  {
    hide UsecToTicks;
  }

  lemma {:induction false} TrimRest(s: State, l: nat)
    requires s.Shaped() && l < LANES
    ensures var r := TrimHold(s, l); r.primary == s.primary && r.fillStart == s.fillStart && r.mode == s.mode
    decreases |s.hold[l]|
  {
    if s.mode == Preparing && l != 0 && |s.hold[l]| > MAX_HOLD_LANE_PACKETS {
      TrimRest(s.(hold := s.hold[l := s.hold[l][1..]], holdBuffered := Less(s.holdBuffered, s.hold[l][0].size)), l);
    }
  }

  lemma HoldFillHead(s: State, p: Packet, compatible: bool)
    requires s.Shaped() && FillHead(s)
    ensures FillHead(ReceiveHold(s, p, compatible))
  {
    hide ReceiveHold;
    HoldRest(s, p, compatible);
  }

  lemma HoldRest(s: State, p: Packet, compatible: bool)
    requires s.Shaped()
    ensures var r := ReceiveHold(s, p, compatible);
            && r.primary == s.primary && r.fillStart == s.fillStart
            && (r.mode == s.mode || r.mode == Error || r.mode == Returning)
  {
    hide FormatClash, NoteHold, TrimHold, Fits;
    if TakesHold(s) {
      NoteHoldRest(s, p);
      var s2 := StoreHold(NoteHold(s, p), p);
      TrimRest(s2, LaneFor(p));
      TrimRest(s2.(holdReady := true), LaneFor(p));
      TrimRest(s2.(mode := Error), LaneFor(p));
    }
  }

  lemma NoteHoldRest(s: State, p: Packet)
    requires s.Shaped()
    ensures var r := NoteHold(s, p); r.primary == s.primary && r.fillStart == s.fillStart && r.mode == s.mode
  {
    hide From, TotalSize;
  }

  lemma RequestFillHead(s: State, op: Op)
    requires s.Shaped() && FillHead(s) && !op.Live? && !op.HoldPacket?
    ensures FillHead(Step(s, op))
  {
    match op
    case Delay(seconds, active, started) =>
    case Cancel => CancelFillHead(s);
    case Activate =>
    case Maintain =>
  }

  lemma CancelFillHead(s: State)
    requires s.Shaped() && FillHead(s)
    ensures FillHead(RequestBypass(s))
  {
    if s.mode == Preparing || s.mode == Error {
    } else if s.mode == Filling || s.mode == Delayed {
    }
  }

  lemma {:induction false} EveryRunFillHead(ops: seq<Op>)
    ensures FillHead(Reached(ops))
  {
    hide Process, ReceiveHold, FillHead;
    if ops == [] {
      NoFillHead();
    } else {
      var s, op := Reached(ops[..|ops| - 1]), ops[|ops| - 1];
      EveryRunFillHead(ops[..|ops| - 1]);
      match op {
        case Live(p, audioStep) => LiveFillHead(s, p, audioStep);
        case HoldPacket(p, compatible) => HoldFillHead(s, p, compatible);
        case _ => RequestFillHead(s, op);
      }
    }
  }

  lemma NoFillHead()
    ensures FillHead(Initial())
  {
  }

  /** The first delayed packet is the keyframe that began the fill, at least the target old. */
  lemma FirstDelayed(s: State, p: Packet, audioStep: nat)
    requires s.Shaped() && FillHead(s) && s.mode == Filling && Process(s, p, audioStep).state.mode == Delayed
    requires FormatOf(s.primary[0][0]) == FormatOf(p)
    ensures var out := Process(s, p, audioStep).carrier;
            && out.keyframe && out.id == s.primary[0][0].id && out.encoder == s.primary[0][0].encoder
            && s.primary[0][0].usec == s.fillStart && p.usec - s.fillStart >= s.target * 1_000_000
  {
    hide NoteCadence, NoteEmitted, StartHold, TakeHold, BeginEpoch, Shift;
    CadenceRest(s, p, audioStep);
    StoredFits(s, p);
    ShiftKeeps(p, s.offset);
    var s1 := NoteCadence(s, p, audioStep);
    var c := Shift(p, s.offset);
    var routed := Route(s1, c, p.usec);
    NotedRest(routed.state, routed.carrier);
    NotedCarrier(s1, c, p.usec);
  }

  lemma NotedCarrier(s: State, c: Packet, raw: int)
    requires s.Shaped() && s.mode == Filling && FillStep(s, c, raw, false).state.mode == Delayed
    requires s.primary[0] != [] && FormatOf(s.primary[0][0]) == FormatOf(c)
    ensures var out := FillStep(s, c, raw, false).carrier;
            && out.keyframe == s.primary[0][0].keyframe && out.id == s.primary[0][0].id && out.encoder == s.primary[0][0].encoder
            && raw - s.fillStart >= s.target * 1_000_000
  {
    hide StartHold, TakeHold, BeginEpoch, TakeFallback;
    if !Fits(MAX_PRIMARY_BYTES, s.buffered, c.size) {
      HoldTaken(s.(fromFilling := true, mode := Returning), c, false);
    } else {
      var s1 := Buffer(s, c, raw);
      if FillReady(s1, c, raw) {
        EpochRest(s1, c, s1.primary[0][0]);
      } else {
        HoldTaken(s1, c, false);
      }
    }
  }
}
