/** With rising live times realignment cuts on keyframes. */
module SessionPaced {
  import opened Options
  import opened SessionSpec
  import opened SessionRealign
  import opened SessionDelayLine
  import opened SessionContinuity
  import opened SessionSteady

  // ---------------------------------------------------------------------
  // Where a cut starts

  lemma {:induction false} ScanKeyframe(s: State, desired: int, lower: int, index: nat, cursors: seq<nat>, chosen: Option<nat>)
    requires s.Shaped() && |cursors| == LANES
    requires chosen.Some? ==> chosen.value < |s.primary[0]| && s.primary[0][chosen.value].keyframe
    ensures var r := Scan(s, desired, lower, index, cursors, chosen); r.Some? ==> s.primary[0][r.value].keyframe
    decreases |s.primary[0]| - index
  {
    hide ProbeLanes;
    if index < |s.primary[0]| {
      var p := s.primary[0][index];
      if !p.keyframe || p.usec < lower {
        ScanKeyframe(s, desired, lower, index + 1, cursors, chosen);
      } else {
        var probe := ProbeLanes(s, cursors, p.usec, 1);
        ScanKeyframe(s, desired, lower, index + 1, probe.cursors, chosen);
        ScanKeyframe(s, desired, lower, index + 1, probe.cursors, Some(index));
      }
    }
  }

  lemma {:induction false} FromKeeps(q: Queue, origin: int, j: nat)
    requires j < |q| && q[j].usec >= origin && forall k :: 0 <= k < j ==> q[k].usec < origin
    ensures From(q, origin) == q[j..]
  {
    if q[0].usec < origin {
      FromKeeps(q[1..], origin, j - 1);
    }
  }

  lemma {:induction false} EarliestAt(q: Queue, origin: int, j: nat) returns (m: nat)
    requires j < |q| && q[j].usec >= origin
    ensures m <= j && q[m].usec >= origin && forall k :: 0 <= k < m ==> q[k].usec < origin
  {
    m := if q[0].usec >= origin then 0 else 1;
    if m == 1 {
      var rest := EarliestAt(q[1..], origin, j - 1);
      m := rest + 1;
    }
  }

  /** A cut at a chosen keyframe starts the video lane there exactly when everything before it was earlier. */
  lemma CutExactly(s: State, i: nat)
    requires s.Shaped() && i < |s.primary[0]|
    ensures var q, origin := s.primary[0], s.primary[0][i].usec;
            CutAt(s, origin).primary[0] == q[i..] <==> forall j :: 0 <= j < i ==> q[j].usec < origin
  {
    hide TotalSize;
    var q, origin := s.primary[0], s.primary[0][i].usec;
    var m := EarliestAt(q, origin, i);
    FromKeeps(q, origin, m);
    assert |q[m..]| == |q| - m;
  }

  lemma RisingStartsOnKey(b: State, c: Packet, raw: int)
    requires b.Shaped() && Rising(b.primary[0])
    ensures !OffKey(b, c, raw)
  {
    hide Scan, Skewed, LowerBound, Covered, Hole, From, Rising;
    if CutOrigin(b, c, raw).Some? {
      var s1 := HeadChecked(b);
      ScanKeyframe(s1, raw - s1.target * 1_000_000, LowerBound(s1, LANES), 0, seq(LANES, _ => 0), None);
      var i := Pick(s1, raw - s1.target * 1_000_000).value;
      FromIs(b.primary[0], b.primary[0][i].usec);
      FirstIsItself(b.primary[0], i);
    }
  }

  // ---------------------------------------------------------------------
  // What rising times keep

  /** Buffered under rising raw times, none after the newest one. */
  predicate Heard(q: Queue, newest: Option<int>) {
    Rising(q) && (q != [] ==> newest.Some? && q[|q| - 1].usec <= newest.value)
  }

  lemma HeardTail(r: Queue, q: Queue, newest: Option<int>)
    requires Heard(q, newest) && Tail(r, q)
    ensures Heard(r, newest)
  {
  }

  lemma HeardAppend(q: Queue, newest: Option<int>, x: Packet)
    requires Heard(q, newest) && (newest.Some? ==> newest.value < x.usec)
    ensures Heard(q + [x], Some(x.usec))
  {
    forall i | 0 <= i < |q| ensures q[i].usec < x.usec {
      if i < |q| - 1 {
        RisingAt(q, i, |q| - 1);
      }
    }
  }

  /** Where packets may be buffered, the video lane is in order. */
  predicate Ordered(s: State, newest: Option<int>)
    requires s.Shaped()
  {
    s.mode == Bypass || s.mode == Error || Heard(s.primary[0], newest)
  }

  /** The time of the newest live video packet since the output connected. */
  function Newest(ops: seq<Op>): Option<int> {
    if ops == [] then None else NewestAfter(Newest(ops[..|ops| - 1]), ops[|ops| - 1])
  }

  function NewestAfter(newest: Option<int>, op: Op): Option<int> {
    if op.Activate? then None else if op.Live? && op.packet.video then Some(op.packet.usec) else newest
  }

  predicate Later(newest: Option<int>, op: Op) {
    op.Live? && op.packet.video && newest.Some? ==> newest.value < op.packet.usec
  }

  /** Live video times rise from one connection to the next. */
  predicate Paced(ops: seq<Op>) {
    forall i :: 0 <= i < |ops| ==> Later(Newest(ops[..i]), ops[i])
  }

  lemma LiveOrdered(s: State, p: Packet, audioStep: nat, newest: Option<int>)
    requires s.Shaped() && Sober(s) && Ordered(s, newest) && Later(newest, Live(p, audioStep))
    ensures Ordered(Process(s, p, audioStep).state, NewestAfter(newest, Live(p, audioStep)))
  {
    hide Process, Heard, Stored, Tail;
    if s.mode == Bypass || s.mode == Error {
      PassedOn(s, p, audioStep);
    } else {
      LiveGrew(s, p, audioStep);
      StoredFits(s, p);
      var q, r, x := s.primary[0], Process(s, p, audioStep).state.primary[0], Stored(s, p);
      if p.video {
        StoredTime(s, p);
        HeardAppend(q, newest, x);
        HeardLater(q, newest, p.usec);
      }
      if Tail(r, q) {
        HeardTail(r, q, if p.video then Some(p.usec) else newest);
      } else {
        HeardTail(r, Extended(s.primary, x)[0], if p.video then Some(p.usec) else newest);
      }
    }
  }

  lemma HeardLater(q: Queue, newest: Option<int>, usec: int)
    requires Heard(q, newest) && (newest.Some? ==> newest.value < usec)
    ensures Heard(q, Some(usec))
  {
  }

  lemma StoredTime(s: State, p: Packet)
    ensures Stored(s, p).usec == p.usec && LaneFor(Stored(s, p)) == LaneFor(p)
  {
    hide UsecToTicks;
  }

  lemma PassedOn(s: State, p: Packet, audioStep: nat)
    requires s.Shaped() && (s.mode == Bypass || s.mode == Error)
    ensures Process(s, p, audioStep).state.mode == s.mode
  {
    hide Shift, StepAfter, Hole, Presented;
  }

  lemma OtherOrdered(s: State, op: Op, newest: Option<int>)
    requires s.Shaped() && Ordered(s, newest) && !op.Live?
    ensures Ordered(Step(s, op), NewestAfter(newest, op))
  {
    hide ReceiveHold, Rising;
    match op
    case HoldPacket(p, compatible) =>
      HoldRest(s, p, compatible);
      if !TakesHold(s) {
        HoldIgnored(s, p, compatible);
      }
    case Delay(seconds, active, started) => NoneHeard(newest);
    case Cancel =>
    case Activate =>
    case Maintain =>
  }

  lemma NoneHeard(newest: Option<int>)
    ensures Heard([], newest)
  {
  }

  lemma {:induction false} EveryRunOrdered(ops: seq<Op>)
    requires Paced(ops)
    ensures Sober(Play(ops).state) && Ordered(Play(ops).state, Newest(ops))
  {
    hide Process, ReceiveHold, Ordered, Sober, Later, Out;
    if ops == [] {
      StartsOrdered();
    } else {
      var before, op := ops[..|ops| - 1], ops[|ops| - 1];
      forall i | 0 <= i < |before| ensures Later(Newest(before[..i]), before[i]) {
        assert before[..i] == ops[..i];
      }
      EveryRunOrdered(before);
      var r := Play(before);
      NamedTimes(r, op, Newest(before));
      StepSober(r.state, Named(r, op));
      if op.Live? {
        LiveOrdered(r.state, Named(r, op).packet, op.audioStep, Newest(before));
      } else {
        OtherOrdered(r.state, Named(r, op), Newest(before));
      }
    }
  }

  lemma NamedTimes(r: Run, op: Op, newest: Option<int>)
    ensures NewestAfter(newest, Named(r, op)) == NewestAfter(newest, op) && (Later(newest, op) ==> Later(newest, Named(r, op)))
  {
  }

  lemma StartsOrdered()
    ensures Sober(Play([]).state) && Ordered(Play([]).state, None)
  {
  }

  /** A live packet after all buffered video leaves no cut off a keyframe. */
  lemma LaterStartsOnKey(s: State, p: Packet, audioStep: nat, newest: Option<int>)
    requires s.Shaped() && Ordered(s, newest) && Later(newest, Live(p, audioStep))
    ensures !CutsOffKey(s, p, audioStep)
  {
    hide NoteCadence, Shift, OffKey, Heard, Fits, Rising;
    if s.mode == Delayed {
      var s1, c := NoteCadence(s, p, audioStep), Shift(p, s.offset);
      CadenceRest(s, p, audioStep);
      StoredFits(s, p);
      var b := Buffer(s1, c, p.usec);
      if p.video {
        HeardAppend(s.primary[0], newest, c.(usec := p.usec));
        HeardRises(s.primary[0] + [c.(usec := p.usec)], Some(p.usec));
      } else {
        HeardRises(s.primary[0], newest);
      }
      RisingStartsOnKey(b, c, p.usec);
    }
  }

  lemma HeardRises(q: Queue, newest: Option<int>)
    requires Heard(q, newest)
    ensures Rising(q)
  {
  }

  /** Constant video formats, and no hold packet that joins after a gap. */
  predicate Joined(ops: seq<Op>, f: Format, g: Format) {
    forall i :: 0 <= i < |ops| ==>
      && (ops[i].Live? && ops[i].packet.video ==> FormatOf(ops[i].packet) == f)
      && (ops[i].HoldPacket? && ops[i].packet.video ==> FormatOf(ops[i].packet) == g)
      && (ops[i].HoldPacket? ==> !Breaks(Play(ops[..i]), ops[i]))
  }

  /** Over every run with rising live video times in which no hold packet joins after a gap, each video payload is the
      next one of the encoder before it, or a keyframe. */
  lemma EveryPacedContinues(ops: seq<Op>, f: Format, g: Format, i: nat)
    requires Paced(ops) && Joined(ops, f, g) && i < |ops| && ops[i].Live? && ops[i].packet.video
    ensures var before := Play(ops[..i]); before.last.None? || Follows(before.last, Out(before, ops[i]))
  {
    hide Play, Out, Follows, Ordered, Sober, CutsOffKey, JoinsGap, Later;
    forall j | 0 <= j < |ops| ensures Admissible(Play(ops[..j]), ops[j], f, g) {
      var before := ops[..j];
      forall k | 0 <= k < |before| ensures Later(Newest(before[..k]), before[k]) {
        assert before[..k] == ops[..k];
      }
      EveryRunOrdered(before);
      if ops[j].Live? {
        NamedTimes(Play(before), ops[j], Newest(before));
        LaterStartsOnKey(Play(before).state, Named(Play(before), ops[j]).packet, ops[j].audioStep, Newest(before));
      }
    }
    EveryVideoContinues(ops, f, g, i);
  }
}
