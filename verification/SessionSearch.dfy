/** The loops of the session. */
module SessionSearch {
  // Over its lanes, each proved against the specification.

  import opened Options
  import opened SessionSpec

  /** Compares the lane formats one by one; complete is false once a required lane is still unknown. */
  method CheckFormats(s: State) returns (compatible: bool, complete: bool)
    requires s.Shaped()
    ensures compatible && complete <==> FormatsMatch(s) && FormatsKnown(s)
    ensures !compatible && complete <==> FormatClash(s)
  {
    complete := true;
    var lane := 0;
    while lane < LANES
      invariant 0 <= lane <= LANES
      invariant complete <==> forall l :: 0 <= l < lane && Required(s, l) ==> s.primaryFormats[l].Some? && s.holdFormats[l].Some?
      invariant forall l :: 0 <= l < lane && Required(s, l) && s.primaryFormats[l].Some? && s.holdFormats[l].Some? ==>
                  s.primaryFormats[l] == s.holdFormats[l]
    {
      if Required(s, lane) {
        if s.primaryFormats[lane].None? || s.holdFormats[lane].None? {
          complete := false;
        } else if s.primaryFormats[lane] != s.holdFormats[lane] {
          assert KnownBelow(s, lane) <==> complete;
          return false, complete;
        }
      }
      lane := lane + 1;
    }
    compatible := true;
  }

  method IsPrerollReady(s: State) returns (ready: bool)
    requires s.Shaped()
    ensures ready == PrerollReady(s)
  {
    if !s.holdReady || s.hold[0] == [] || !s.hold[0][0].keyframe {
      return false;
    }
    var at := s.holdStart + HOLD_PREROLL_USEC;
    var lane := 0;
    while lane < LANES
      invariant 0 <= lane <= LANES && forall l :: 0 <= l < lane && Required(s, l) ==> Prerolled(s.hold[l], at)
    {
      if Required(s, lane) && !Prerolled(s.hold[lane], at) {
        return false;
      }
      lane := lane + 1;
    }
    var compatible, complete := CheckFormats(s);
    ready := compatible && complete;
  }

  /** Latest head of the active lanes and whether any lane has drifted from the video age. */
  method MeasureLanes(s: State, age: int) returns (ready: bool, lower: int, skewed: bool)
    requires s.Shaped() && s.primary[0] != []
    ensures ready == LanesReady(s)
    ensures ready ==> lower == LowerBound(s, LANES) && skewed == Skewed(s, age)
  {
    lower, skewed := s.primary[0][0].usec, false;
    var lane := 1;
    while lane < LANES
      invariant 1 <= lane <= LANES
      invariant forall l :: l in s.active && l < lane ==> s.primary[l] != [] && s.lastPrimary[l].Some?
      invariant LanesReady(s) ==> lower == LowerBound(s, lane)
      invariant skewed <==> exists l :: l in s.active && l < lane && Abs(age - Lead(s, l)) > Max(4_000, 2 * Max(s.steps[0], s.steps[l]))
    {
      if lane in s.active {
        if s.primary[lane] == [] || s.lastPrimary[lane].None? {
          return false, lower, skewed;
        }
        lower := Max(lower, s.primary[lane][0].usec);
        skewed := skewed || Abs(age - Lead(s, lane)) > Max(4_000, 2 * Max(s.steps[0], s.steps[lane]));
      }
      lane := lane + 1;
    }
    ready := true;
  }

  method AdvanceCursor(q: Queue, cursor: nat, at: int) returns (c: nat)
    ensures c == Advance(q, cursor, at)
  {
    c := cursor;
    while c < |q| && q[c].usec < at
      invariant Advance(q, c, at) == Advance(q, cursor, at)
      decreases |q| - c
    {
      c := c + 1;
    }
  }

  /** Moves the audio cursors to a time, in place. */
  method ProbeAll(s: State, cursors: array<nat>, at: int) returns (aligned: bool, beyond: bool)
    requires s.Shaped() && cursors.Length == LANES
    modifies cursors
    ensures Probe(cursors[..], aligned, beyond) == ProbeLanes(s, old(cursors[..]), at, 1)
  {
    ghost var whole := ProbeLanes(s, cursors[..], at, 1);
    var lane := 1;
    while lane < LANES
      invariant 1 <= lane <= LANES && ProbeLanes(s, cursors[..], at, lane) == whole
    {
      if lane in s.active {
        var q := s.primary[lane];
        ghost var before: seq<nat> := cursors[..];
        var c: nat := AdvanceCursor(q, cursors[lane], at);
        cursors[lane] := c;
        assert cursors[..] == before[lane := c];
        if c >= |q| {
          return false, true;
        }
        if q[c].usec - at > s.steps[lane] + 2_000 {
          return false, false;
        }
      }
      lane := lane + 1;
    }
    aligned, beyond := true, false;
  }

  /** One pass over the buffered video, the audio cursors only moving forward. */
  method ScanGops(s: State, desired: int, lower: int) returns (chosen: Option<nat>)
    requires s.Shaped()
    ensures chosen == Scan(s, desired, lower, 0, seq(LANES, _ => 0), None)
    ensures chosen.Some? ==> chosen.value < |s.primary[0]|
  {
    hide ProbeLanes;
    var cursors := new nat[LANES](_ => 0);
    assert cursors[..] == seq(LANES, _ => 0);
    ghost var whole := Scan(s, desired, lower, 0, cursors[..], None);
    chosen := None;
    var index := 0;
    while index < |s.primary[0]|
      invariant 0 <= index <= |s.primary[0]| && (chosen.Some? ==> chosen.value < |s.primary[0]|)
      invariant Scan(s, desired, lower, index, cursors[..], chosen) == whole
    {
      var p := s.primary[0][index];
      if p.keyframe && p.usec >= lower {
        var aligned, beyond := ProbeAll(s, cursors, p.usec);
        if beyond {
          return;
        }
        if aligned {
          if chosen.None? || p.usec <= desired {
            chosen := Some(index);
          }
          if p.usec >= desired {
            return;
          }
        }
      }
      index := index + 1;
    }
  }

  /** The step of a lane after a packet, and whether the packet leaves a hole behind it. */
  method MeasureStep(s: State, p: Packet, audioStep: nat) returns (step: nat, hole: bool)
    requires s.Shaped()
    ensures step == StepAfter(s, p, audioStep)
    ensures var last := s.lastPrimary[LaneFor(p)]; hole <==> last.Some? && p.usec > last.value && Hole(step, p.usec - last.value)
  {
    hide Hole;
    var l := LaneFor(p);
    step, hole := s.steps[l], false;
    if step == 0 {
      step := Nominal(p, audioStep);
    }
    if s.lastPrimary[l].Some? && p.usec > s.lastPrimary[l].value {
      var observed := p.usec - s.lastPrimary[l].value;
      if step == 0 {
        step := observed;
      }
      hole := Hole(step, observed);
    }
  }

  // ---------------------------------------------------------------------
  // Cutting lanes

  lemma {:induction false} TotalUpdate(lanes: seq<Queue>, l: nat, q: Queue)
    requires l < |lanes|
    ensures TotalSize(lanes[l := q]) == TotalSize(lanes) - SizeOf(lanes[l]) + SizeOf(q)
  {
    if l == 0 {
      assert lanes[0 := q][1..] == lanes[1..];
    } else {
      assert lanes[l := q][1..] == lanes[1..][l - 1 := q];
      TotalUpdate(lanes[1..], l - 1, q);
    }
  }

  lemma {:induction false} TotalAtLeast(lanes: seq<Queue>, l: nat)
    requires l < |lanes|
    ensures TotalSize(lanes) >= SizeOf(lanes[l])
  {
    if l > 0 {
      TotalAtLeast(lanes[1..], l - 1);
    }
  }

  /** Pops everything before a time from one lane, counting the bytes off with a floor of zero. */
  method DropBefore(q: Queue, at: int, used: nat) returns (r: Queue, left: nat)
    ensures r == From(q, at) && SizeOf(r) <= SizeOf(q) && left == Less(used, SizeOf(q) - SizeOf(r))
  {
    r, left := q, used;
    while r != [] && r[0].usec < at
      invariant From(r, at) == From(q, at) && SizeOf(r) <= SizeOf(q) && left == Less(used, SizeOf(q) - SizeOf(r))
      decreases |r|
    {
      left := Less(left, r[0].size);
      r := r[1..];
    }
  }

  /** Pops everything before the origin from the lanes from a first one on. */
  method CutLanes(lanes: seq<Queue>, first: nat, at: int, used: nat) returns (r: seq<Queue>, left: nat)
    requires |lanes| == LANES && first <= LANES
    ensures |r| == LANES && TotalSize(r) <= TotalSize(lanes) && left == Less(used, TotalSize(lanes) - TotalSize(r))
    ensures forall l :: 0 <= l < LANES ==> r[l] == if l < first then lanes[l] else From(lanes[l], at)
  {
    r, left := lanes, used;
    var lane := first;
    while lane < LANES
      invariant first <= lane <= LANES && |r| == LANES
      invariant TotalSize(r) <= TotalSize(lanes) && left == Less(used, TotalSize(lanes) - TotalSize(r))
      invariant forall l :: 0 <= l < LANES ==> r[l] == if l < first || l >= lane then lanes[l] else From(lanes[l], at)
    {
      var kept;
      ghost var before := left;
      kept, left := DropBefore(r[lane], at, left);
      TotalUpdate(r, lane, kept);
      r := r[lane := kept];
      lane := lane + 1;
    }
  }
}
