/** Realignment finds the common GOP. */
module SessionRealign {
  // The single-pass search with moving cursors finds what the naive search finds.

  import opened Options
  import opened SessionSpec

  /** Position of the first packet at or after a time, the length when there is none. */
  function FirstAt(q: Queue, at: int): (i: nat)
    ensures i <= |q|
    ensures forall j :: 0 <= j < i ==> q[j].usec < at
    ensures i < |q| ==> q[i].usec >= at
  {
    if q == [] || q[0].usec >= at then 0 else 1 + FirstAt(q[1..], at)
  }

  predicate Rising(q: Queue) {
    forall i, j :: 0 <= i < j < |q| ==> q[i].usec < q[j].usec
  }

  /** The lane has a packet at most one step and 2 ms after the time, with nothing in between. */
  predicate AudioAt(s: State, l: nat, at: int)
    requires s.Shaped() && l < LANES
  {
    var i := FirstAt(s.primary[l], at);
    i < |s.primary[l]| && s.primary[l][i].usec - at <= s.steps[l] + 2_000
  }

  predicate Searchable(s: State) {
    s.Shaped() && LanesReady(s) && s.primary[0] != []
  }

  /** A keyframe, not before any lane's head, from which every active lane can continue. */
  predicate Aligned(s: State, i: nat)
    requires Searchable(s) && i < |s.primary[0]|
  {
    var p := s.primary[0][i];
    p.keyframe && p.usec >= LowerBound(s, LANES) && forall l :: l in s.active ==> AudioAt(s, l, p.usec)
  }

  /** The naive search: the last aligned keyframe at or before the desired time, else the first one. */
  ghost predicate Chosen(s: State, desired: int, i: nat)
    requires Searchable(s)
  {
    && i < |s.primary[0]| && Aligned(s, i)
    && if s.primary[0][i].usec <= desired
       then forall j: nat :: i < j < |s.primary[0]| && s.primary[0][j].usec <= desired ==> !Aligned(s, j)
       else forall j: nat :: j < i ==> !Aligned(s, j)
  }

  // ---------------------------------------------------------------------
  // Cursors

  lemma {:induction false} AdvanceIsFirst(q: Queue, cursor: nat, at: int)
    requires cursor <= FirstAt(q, at)
    ensures Advance(q, cursor, at) == FirstAt(q, at)
    decreases |q| - cursor
  {
    if cursor < |q| && q[cursor].usec < at {
      AdvanceIsFirst(q, cursor + 1, at);
    }
  }

  /** No cursor has passed the first packet at or after the time. */
  ghost predicate Behind(s: State, cursors: seq<nat>, at: int)
    requires s.Shaped() && |cursors| == LANES
  {
    forall l :: l in s.active ==> cursors[l] <= FirstAt(s.primary[l], at)
  }

  lemma BehindLater(s: State, cursors: seq<nat>, at: int, later: int)
    requires s.Shaped() && |cursors| == LANES && Behind(s, cursors, at) && at <= later
    ensures Behind(s, cursors, later)
  {
    forall l | l in s.active ensures FirstAt(s.primary[l], at) <= FirstAt(s.primary[l], later) {
    }
  }

  predicate AudioFrom(s: State, at: int, l: nat)
    requires s.Shaped()
  {
    forall k :: k in s.active && k >= l ==> AudioAt(s, k, at)
  }

  ghost predicate Exhausted(s: State, at: int)
    requires s.Shaped()
  {
    exists l :: l in s.active && FirstAt(s.primary[l], at) == |s.primary[l]|
  }

  lemma {:induction false} ProbeIs(s: State, cursors: seq<nat>, at: int, l: nat)
    requires s.Shaped() && |cursors| == LANES && l <= LANES && Behind(s, cursors, at)
    ensures var r := ProbeLanes(s, cursors, at, l);
            && (r.aligned <==> AudioFrom(s, at, l)) && (r.beyond ==> Exhausted(s, at))
            && Behind(s, r.cursors, at)
    decreases LANES - l
  {
    if l < LANES {
      if l !in s.active {
        ProbeIs(s, cursors, at, l + 1);
      } else {
        AdvanceIsFirst(s.primary[l], cursors[l], at);
        ProbeIs(s, cursors[l := FirstAt(s.primary[l], at)], at, l + 1);
      }
    }
  }

  // ---------------------------------------------------------------------
  // The scan

  /** What a scan that has passed the first packets knows about its choice so far. */
  ghost predicate ScannedTo(s: State, desired: int, index: nat, chosen: Option<nat>)
    requires Searchable(s)
  {
    match chosen
    case None => forall j: nat :: j < index && j < |s.primary[0]| ==> !Aligned(s, j)
    case Some(c) =>
      && c < |s.primary[0]| && c < index && Aligned(s, c) && s.primary[0][c].usec < desired
      && forall j: nat :: c < j < index && j < |s.primary[0]| ==> !Aligned(s, j)
  }

  ghost predicate Found(s: State, desired: int, r: Option<nat>)
    requires Searchable(s)
  {
    match r
    case None => forall j: nat :: j < |s.primary[0]| ==> !Aligned(s, j)
    case Some(i) => Chosen(s, desired, i)
  }

  lemma ScannedAll(s: State, desired: int, index: nat, chosen: Option<nat>)
    requires Searchable(s) && ScannedTo(s, desired, index, chosen)
    requires forall j: nat :: index <= j < |s.primary[0]| ==> !Aligned(s, j)
    ensures Found(s, desired, chosen)
  {
    hide Aligned;
  }

  /** Once some lane is exhausted at a time, no later keyframe is aligned. */
  lemma NoneBeyond(s: State, index: nat)
    requires Searchable(s) && Rising(s.primary[0]) && index < |s.primary[0]| && Exhausted(s, s.primary[0][index].usec)
    ensures forall j: nat :: index <= j < |s.primary[0]| ==> !Aligned(s, j)
  {
    var l :| l in s.active && FirstAt(s.primary[l], s.primary[0][index].usec) == |s.primary[l]|;
    forall j: nat | index <= j < |s.primary[0]| ensures !AudioAt(s, l, s.primary[0][j].usec) {
    }
  }

  lemma StepScanned(s: State, desired: int, index: nat, chosen: Option<nat>)
    requires Searchable(s) && ScannedTo(s, desired, index, chosen) && index < |s.primary[0]| && !Aligned(s, index)
    ensures ScannedTo(s, desired, index + 1, chosen)
  {
    hide Aligned;
  }

  /** An aligned keyframe becomes the choice unless an earlier one already lies past the desired time. */
  lemma TakeAligned(s: State, desired: int, index: nat, chosen: Option<nat>)
    requires Searchable(s) && Rising(s.primary[0]) && ScannedTo(s, desired, index, chosen)
    requires index < |s.primary[0]| && Aligned(s, index)
    ensures var usec := s.primary[0][index].usec;
            var next := if chosen.None? || usec <= desired then Some(index) else chosen;
            if usec >= desired then Found(s, desired, next) else ScannedTo(s, desired, index + 1, next)
  {
    hide Aligned;
  }

  lemma {:induction false} ScanFinds(s: State, desired: int, index: nat, cursors: seq<nat>, chosen: Option<nat>)
    requires Searchable(s) && Rising(s.primary[0]) && |cursors| == LANES
    requires ScannedTo(s, desired, index, chosen)
    requires forall j: nat :: index <= j < |s.primary[0]| ==> Behind(s, cursors, s.primary[0][j].usec)
    ensures Found(s, desired, Scan(s, desired, LowerBound(s, LANES), index, cursors, chosen))
    decreases |s.primary[0]| - index
  {
    hide LowerBound, Behind, AudioAt, Found, ScannedTo, Rising, ProbeLanes, Exhausted;
    if index >= |s.primary[0]| {
      ScannedAll(s, desired, index, chosen);
    } else {
      var p := s.primary[0][index];
      if !p.keyframe || p.usec < LowerBound(s, LANES) {
        StepScanned(s, desired, index, chosen);
        ScanFinds(s, desired, index + 1, cursors, chosen);
      } else {
        var probe := ProbeLanes(s, cursors, p.usec, 1);
        ProbeIs(s, cursors, p.usec, 1);
        AlignedIs(s, index);
        if probe.beyond {
          NoneBeyond(s, index);
          ScannedAll(s, desired, index, chosen);
        } else {
          forall j: nat | index + 1 <= j < |s.primary[0]| ensures Behind(s, probe.cursors, s.primary[0][j].usec) {
            RisingAt(s.primary[0], index, j);
            BehindLater(s, probe.cursors, p.usec, s.primary[0][j].usec);
          }
          if !probe.aligned {
            StepScanned(s, desired, index, chosen);
            ScanFinds(s, desired, index + 1, probe.cursors, chosen);
          } else {
            TakeAligned(s, desired, index, chosen);
            var next := if chosen.None? || p.usec <= desired then Some(index) else chosen;
            if p.usec < desired {
              ScanFinds(s, desired, index + 1, probe.cursors, next);
            }
          }
        }
      }
    }
  }

  lemma RisingAt(q: Queue, i: nat, j: nat)
    requires Rising(q) && i < j < |q|
    ensures q[i].usec < q[j].usec
  {
  }

  lemma AlignedIs(s: State, i: nat)
    requires Searchable(s) && i < |s.primary[0]| && s.primary[0][i].keyframe && s.primary[0][i].usec >= LowerBound(s, LANES)
    ensures Aligned(s, i) <==> AudioFrom(s, s.primary[0][i].usec, 1)
  {
    hide LowerBound, AudioAt;
  }

  /** The naive choice is unique. */
  lemma ChosenUnique(s: State, desired: int, i: nat, j: nat)
    requires Searchable(s) && Rising(s.primary[0]) && Chosen(s, desired, i) && Chosen(s, desired, j)
    ensures i == j
  {
    hide Aligned;
  }

  /** The cursors see what the naive search sees, whatever order the audio lanes are in. */
  lemma PickIsNaive(s: State, desired: int, i: nat)
    requires Searchable(s) && Rising(s.primary[0])
    ensures Pick(s, desired) == Some(i) <==> Chosen(s, desired, i)
    ensures Pick(s, desired).None? <==> forall j: nat :: j < |s.primary[0]| ==> !Aligned(s, j)
  {
    hide Aligned, Scan, LowerBound;
    var zeros: seq<nat> := seq(LANES, _ => 0);
    ScanFinds(s, desired, 0, zeros, None);
    var r := Pick(s, desired);
    assert Found(s, desired, r);
    if r.Some? && Chosen(s, desired, i) {
      ChosenUnique(s, desired, i, r.value);
    }
  }

  // ---------------------------------------------------------------------
  // After a realignment

  lemma {:induction false} FromIs(q: Queue, origin: int)
    ensures From(q, origin) == q[FirstAt(q, origin)..]
  {
    if q != [] && q[0].usec < origin {
      FromIs(q[1..], origin);
    }
  }

  lemma {:induction false} LastRises(q: Queue, i: nat)
    requires Rising(q) && i < |q|
    ensures q[|q| - 1].usec >= q[i].usec
  {
    if i < |q| - 1 {
      RisingAt(q, i, |q| - 1);
    }
  }

  /** With rising lanes a choice is always covered: the guard before the cut never refuses it. */
  lemma ChosenCovered(s: State, desired: int, i: nat)
    requires Searchable(s) && Chosen(s, desired, i) && forall l :: l in s.active ==> Rising(s.primary[l])
    ensures Covered(s, s.primary[0][i].usec)
  {
    hide LowerBound;
    var at := s.primary[0][i].usec;
    forall l | l in s.active ensures s.primary[l][|s.primary[l]| - 1].usec >= at {
      assert AudioAt(s, l, at);
      LastRises(s.primary[l], FirstAt(s.primary[l], at));
    }
  }

  lemma FirstIsItself(q: Queue, i: nat)
    requires Rising(q) && i < |q|
    ensures FirstAt(q, q[i].usec) == i
  {
    var first := FirstAt(q, q[i].usec);
    if first < i {
      assert false;
    }
  }

  /** Every lane is cut at its first packet at or after the origin; the video lane at the chosen keyframe. */
  lemma CutAligned(s: State, desired: int, i: nat)
    requires Searchable(s) && Rising(s.primary[0]) && Chosen(s, desired, i)
    ensures var origin := s.primary[0][i].usec; var r := CutAt(s, origin);
            && r.primary[0] == s.primary[0][i..] && r.primary[0][0].keyframe
            && (forall l :: 0 <= l < LANES ==> |r.primary[l]| <= |s.primary[l]|)
            && (forall l :: l in s.active ==>
                  r.primary[l] != [] && 0 <= r.primary[l][0].usec - origin <= s.steps[l] + 2_000)
  {
    hide LowerBound;
    var origin := s.primary[0][i].usec;
    forall l: nat | l < LANES ensures From(s.primary[l], origin) == s.primary[l][FirstAt(s.primary[l], origin)..] {
      FromIs(s.primary[l], origin);
    }
    FirstIsItself(s.primary[0], i);
    forall l | l in s.active ensures AudioAt(s, l, origin) {
    }
  }

  /** The lanes have drifted apart and a video carrier asks for realignment. */
  predicate Drifted(s: State, carrier: Packet, raw: int)
    requires s.Shaped()
  {
    && carrier.video && s.primary[0] != [] && HeadChecked(s).realign && LanesReady(s)
    && Skewed(HeadChecked(s), raw - s.primary[0][0].usec)
  }

  /** Drifted lanes are cut at the naive choice, or left waiting when there is none; other lanes are left alone. */
  lemma RealignCuts(s: State, carrier: Packet, raw: int, i: nat)
    requires s.Shaped() && forall l :: 0 <= l < LANES ==> Rising(s.primary[l])
    ensures var r := Realign(s, carrier, raw).state;
            if !Drifted(s, carrier, raw) then r.primary == s.primary
            else
              && (Chosen(s, raw - s.target * 1_000_000, i) ==>
                    !r.realign && r.primary == CutAt(s, s.primary[0][i].usec).primary)
              && ((forall j: nat :: j < |s.primary[0]| ==> !Aligned(s, j)) ==> r.realign && r.primary == s.primary)
  {
    hide LowerBound, Scan, Chosen, Rising, Skewed, BeginEpoch, Aligned, Covered, CutAt;
    if Drifted(s, carrier, raw) {
      var s1 := HeadChecked(s);
      var desired := raw - s1.target * 1_000_000;
      forall j: nat ensures Searchable(s1) && (Chosen(s1, desired, j) <==> Chosen(s, desired, j)) {
        SameSearch(s, s1, desired, j);
      }
      forall j: nat | j < |s.primary[0]| ensures Aligned(s1, j) == Aligned(s, j) {
        SameAligned(s, s1, j);
      }
      PickIsNaive(s1, desired, i);
      if Chosen(s, desired, i) {
        ChosenCovered(s1, desired, i);
        CutAligned(s1, desired, i);
        SameCut(s, s1, s.primary[0][i].usec);
        EpochKeepsQueues(CutAt(s1, s1.primary[0][i].usec), carrier);
      }
    }
  }

  lemma EpochKeepsQueues(s: State, carrier: Packet)
    requires s.Shaped()
    ensures forall payload ::
              var r := BeginEpoch(s, carrier, payload).state; r.primary == s.primary && r.realign == s.realign
  {
  }

  lemma SameCut(s: State, r: State, origin: int)
    requires s.Shaped() && r.Shaped() && r.primary == s.primary
    ensures CutAt(r, origin).primary == CutAt(s, origin).primary && !CutAt(r, origin).realign
  {
  }

  lemma SameSearch(s: State, r: State, desired: int, i: nat)
    requires Searchable(s) && r.Shaped() && r.primary == s.primary && r.active == s.active && r.steps == s.steps
    requires r.lastPrimary == s.lastPrimary
    ensures Searchable(r) && (Chosen(r, desired, i) <==> Chosen(s, desired, i))
  {
    forall l: nat | l <= LANES ensures LowerBound(r, l) == LowerBound(s, l) {
      SameBound(s, r, l);
    }
    forall j: nat | j < |s.primary[0]| ensures Aligned(r, j) == Aligned(s, j) {
      SameAligned(s, r, j);
    }
  }

  lemma {:induction false} SameBound(s: State, r: State, l: nat)
    requires Searchable(s) && Searchable(r) && r.primary == s.primary && r.active == s.active && l <= LANES
    ensures LowerBound(r, l) == LowerBound(s, l)
  {
    if l > 0 {
      SameBound(s, r, l - 1);
    }
  }

  lemma SameAligned(s: State, r: State, j: nat)
    requires Searchable(s) && Searchable(r) && r.primary == s.primary && r.active == s.active && r.steps == s.steps
    requires j < |s.primary[0]|
    ensures Aligned(r, j) == Aligned(s, j)
  {
    SameBound(s, r, LANES);
    forall l | l in s.active ensures AudioAt(r, l, s.primary[0][j].usec) == AudioAt(s, l, s.primary[0][j].usec) {
    }
  }

  // ---------------------------------------------------------------------
  // When a realignment cuts

  /** The time at which the lanes are cut, when they are. */
  function CutOrigin(s: State, carrier: Packet, raw: int): Option<int>
    requires s.Shaped()
  {
    if !carrier.video || s.primary[0] == [] then None
    else
      var s1 := HeadChecked(s);
      if !s1.realign || !LanesReady(s1) || !Skewed(s1, raw - s1.primary[0][0].usec) then None
      else
        var pick := Pick(s1, raw - s1.target * 1_000_000);
        if pick.None? || !Covered(s1, s1.primary[0][pick.value].usec) then None
        else Some(s1.primary[0][pick.value].usec)
  }

  /** Without a cut only the request to realign may change; with one every lane is cut at its origin and the new head
      opens an epoch. */
  lemma RealignIs(s: State, carrier: Packet, raw: int)
    requires s.Shaped()
    ensures var r := Realign(s, carrier, raw); var origin := CutOrigin(s, carrier, raw);
            if origin.None? then r.carrier == carrier && r.state == s.(realign := r.state.realign)
            else
              && s.primary[0] != [] && carrier.video
              && var cut := CutAt(HeadChecked(s), origin.value);
                 r == if cut.primary[0] == [] then Flow(cut, carrier) else BeginEpoch(cut, carrier, cut.primary[0][0])
  {
    hide Scan, Skewed, LowerBound, BeginEpoch, Covered, CutAt, Hole;
  }
}
