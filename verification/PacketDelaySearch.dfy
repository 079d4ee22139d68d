/** The searches of one drain step. */
module PacketDelaySearch {
  // The watermark over the watched lanes, the lane whose front leaves next, and the cut at which the return to
  // live takes over.

  import opened Options
  import opened Timestamps
  import opened PacketTypes
  import opened PacketDelaySpec
  import opened PacketDelayStep
  import opened PacketDelayInvariant
  import opened PacketDelayEpoch

  /** The least of the newest shifted DTS of the watched lanes among some lanes. */
  ghost predicate LowestOf(c: Config, s: State, now: i64, lanes: set<StreamKey>, low: Option<Horizon>) {
    && (forall k :: k in lanes && Watching(c, s, now, k) ==>
          k in s.latest && low.Some? && Le(low.value.value, low.value.tb.den, s.latest[k].value, s.latest[k].tb.den))
    && (low.Some? ==> exists k :: k in lanes && Watching(c, s, now, k) && k in s.latest && s.latest[k] == low.value)
  }

  lemma LowestMore(c: Config, s: State, now: i64, lanes: set<StreamKey>, low: Option<Horizon>, k: StreamKey)
    requires HorizonsOk(s) && LowestOf(c, s, now, lanes, low) && Watching(c, s, now, k) && k in s.latest
    ensures var h := s.latest[k];
            var lower := low.None? || Cmp(h.value, h.tb.den, low.value.value, low.value.tb.den) < 0;
            LowestOf(c, s, now, lanes + {k}, if lower then Some(h) else low)
  {
    hide Watching, Cmp;
    var h := s.latest[k];
    SameDen(h.value, h.value, h.tb.den);
    if low.Some? {
      CmpFlip(h.value, h.tb.den, low.value.value, low.value.tb.den);
      if Cmp(h.value, h.tb.den, low.value.value, low.value.tb.den) < 0 {
        forall j | j in lanes && Watching(c, s, now, j)
          ensures Le(h.value, h.tb.den, s.latest[j].value, s.latest[j].tb.den)
        {
          LeTransitive(h.value, h.tb.den, low.value.value, low.value.tb.den, s.latest[j].value, s.latest[j].tb.den);
        }
      }
    }
  }

  /** The watermark, or the news that a watched lane has delivered nothing yet. */
  method FindWatermark(c: Config, s: State, now: i64) returns (missing: bool, low: Option<Horizon>)
    requires HorizonsOk(s)
    ensures missing <==> exists k :: k in s.active && Watching(c, s, now, k) && k !in s.latest
    ensures !missing ==> LowestOf(c, s, now, s.active, low)
  {
    hide Cmp;
    low := None;
    var lanes := s.active;
    while lanes != {}
      invariant lanes <= s.active && LowestOf(c, s, now, s.active - lanes, low)
      decreases |lanes|
    {
      var lane :| lane in lanes;
      if Stalled(c, s, lane, now) {
        assert LowestOf(c, s, now, s.active - (lanes - {lane}), low);
      } else {
        if lane !in s.latest {
          assert Watching(c, s, now, lane);
          return true, None;
        }
        LowestMore(c, s, now, s.active - lanes, low, lane);
        assert s.active - lanes + {lane} == s.active - (lanes - {lane});
        var lower := true;
        if low.Some? {
          var order := CompareTimestamps(s.latest[lane].value, s.latest[lane].tb, low.value.value, low.value.tb);
          lower := order < 0;
        }
        if lower {
          low := Some(s.latest[lane]);
        }
      }
      lanes := lanes - {lane};
    }
    assert s.active - lanes == s.active;
    missing := false;
  }

  /** Some watched lane is behind the guarded candidate exactly when the watermark is. */
  lemma BehindLowest(c: Config, s: State, now: i64, low: Horizon, guarded: int, den: int)
    requires HorizonsOk(s) && den > 0 && LowestOf(c, s, now, s.active, Some(low))
    ensures Behind(c, s, now, guarded, den) <==> Cmp(guarded, den, low.value, low.tb.den) > 0
  {
    hide Watching, Cmp;
    if Cmp(guarded, den, low.value, low.tb.den) <= 0 {
      forall k | k in s.active && Watching(c, s, now, k) && k in s.latest
        ensures Cmp(guarded, den, s.latest[k].value, s.latest[k].tb.den) <= 0
      {
        LeTransitive(guarded, den, low.value, low.tb.den, s.latest[k].value, s.latest[k].tb.den);
      }
    }
  }

  /** Whether the watermark lets a candidate pass. */
  method CheckWatermark(c: Config, s: State, now: i64, low: Option<Horizon>, dts: Horizon) returns (guard: Guard)
    requires HorizonsOk(s) && dts.tb.Valid() && LowestOf(c, s, now, s.active, low)
    ensures guard == Watermark(c, s, now, dts)
  {
    hide Watching, Cmp, Behind;
    if low.None? {
      return Pass;
    }
    var ticks := DurationTicksCeil(c.reorderWindow, dts.tb);
    if ticks.None? {
      return Unrepresentable;
    }
    var guarded := AddTimestamp(dts.value, ticks.value);
    if guarded.None? {
      return Unrepresentable;
    }
    BehindLowest(c, s, now, low.value, guarded.value, dts.tb.den);
    var order := CompareTimestamps(guarded.value, dts.tb, low.value.value, low.value.tb);
    guard := if order > 0 then Hold else Pass;
  }

  // ---------------------------------------------------------------------
  // The candidate

  datatype Candidate = NothingDue | Undatable | Found(lane: StreamKey)

  /** The first among the due fronts of some lanes. */
  predicate FirstAmong(s: State, now: i64, lanes: set<StreamKey>, k: StreamKey) {
    DueFront(s, now, k) && Ordering(s, s.queues[k][0].packet).Some? &&
    forall j :: j in lanes && DueFront(s, now, j) ==> FrontPrecedes(s, now, k, j)
  }

  lemma FirstMore(s: State, now: i64, lanes: set<StreamKey>, k: StreamKey, j: StreamKey)
    requires FirstAmong(s, now, lanes, k) && DueFront(s, now, j) && Ordering(s, s.queues[j][0].packet).Some?
    ensures FrontPrecedes(s, now, k, j) ==> FirstAmong(s, now, lanes + {j}, k)
    ensures !FrontPrecedes(s, now, k, j) ==> FirstAmong(s, now, lanes + {j}, j)
  {
    hide Ordering, Due;
    if !FrontPrecedes(s, now, k, j) {
      PrecedesTotal(s, s.queues[k][0], s.queues[j][0]);
      PrecedesTotal(s, s.queues[j][0], s.queues[j][0]);
      forall i | i in lanes + {j} && DueFront(s, now, i) ensures FrontPrecedes(s, now, j, i) {
        if i in lanes {
          FrontsTransitive(s, now, j, k, i);
        }
      }
    }
  }

  method FindCandidate(s: State, now: i64) returns (found: Candidate)
    ensures found.NothingDue? ==> forall k :: k in s.queues ==> !DueFront(s, now, k)
    ensures found.Undatable? ==> !Ordered(s, now)
    ensures found.Found? ==> Ordered(s, now) && Next(s, now, found.lane)
  {
    hide Ordering, Due, Precedes;
    found := NothingDue;
    var lanes := s.queues.Keys;
    while lanes != {}
      invariant lanes <= s.queues.Keys && !found.Undatable?
      invariant forall k :: k in s.queues && k !in lanes && DueFront(s, now, k) ==> Ordering(s, s.queues[k][0].packet).Some?
      invariant found.NothingDue? ==> forall k :: k in s.queues && k !in lanes ==> !DueFront(s, now, k)
      invariant found.Found? ==> FirstAmong(s, now, s.queues.Keys - lanes, found.lane)
      decreases |lanes|
    {
      var lane :| lane in lanes;
      if DueFront(s, now, lane) {
        var dts := Ordering(s, s.queues[lane][0].packet);
        if dts.None? {
          return Undatable;
        }
        if found.NothingDue? {
          FirstAlone(s, now, s.queues.Keys - lanes, lane);
          found := Found(lane);
        } else {
          FirstMore(s, now, s.queues.Keys - lanes, found.lane, lane);
          var first := IsEarlier(s, now, found.lane, lane);
          if !first {
            found := Found(lane);
          }
        }
        assert s.queues.Keys - lanes + {lane} == s.queues.Keys - (lanes - {lane});
      }
      lanes := lanes - {lane};
    }
    assert s.queues.Keys - lanes == s.queues.Keys;
  }

  lemma FirstAlone(s: State, now: i64, lanes: set<StreamKey>, k: StreamKey)
    requires DueFront(s, now, k) && Ordering(s, s.queues[k][0].packet).Some?
    requires forall j :: j in lanes ==> !DueFront(s, now, j)
    ensures FirstAmong(s, now, lanes + {k}, k)
  {
    hide Ordering, Due;
    PrecedesTotal(s, s.queues[k][0], s.queues[k][0]);
  }

  /** Compares two fronts by shifted DTS, then by arrival. */
  method IsEarlier(s: State, now: i64, k: StreamKey, j: StreamKey) returns (first: bool)
    requires DueFront(s, now, k) && DueFront(s, now, j)
    requires Ordering(s, s.queues[k][0].packet).Some? && Ordering(s, s.queues[j][0].packet).Some?
    ensures first == FrontPrecedes(s, now, k, j)
  {
    hide Due;
    var x, y := Ordering(s, s.queues[k][0].packet).value, Ordering(s, s.queues[j][0].packet).value;
    var order := CompareTimestamps(x.value, x.tb, y.value, y.tb);
    first := order < 0 || (order == 0 && s.queues[k][0].sequence <= s.queues[j][0].sequence);
  }

  // ---------------------------------------------------------------------
  // The return to live

  method IsReturnReady(c: Config, s: State, now: i64) returns (ready: bool)
    ensures ready == ReturnReady(c, s, now)
  {
    if s.returnCommitted {
      return true;
    }
    var lanes := s.returnVideo;
    while lanes != {}
      invariant lanes <= s.returnVideo
      invariant forall k :: k in s.returnVideo && k !in lanes ==> k in s.returnKeys || Stalled(c, s, k, now)
      decreases |lanes|
    {
      var lane :| lane in lanes;
      if lane !in s.returnKeys && !Stalled(c, s, lane, now) {
        return false;
      }
      lanes := lanes - {lane};
    }
    ready := true;
  }

  /** Position of the first packet with a sequence number, the length when there is none. */
  method FindSequence(q: Queue, sequence: nat) returns (i: nat)
    ensures i <= |q| && (i < |q| ==> q[i].sequence == sequence)
    ensures forall j :: 0 <= j < i ==> q[j].sequence != sequence
  {
    i := 0;
    while i < |q| && q[i].sequence != sequence
      invariant i <= |q| && forall j :: 0 <= j < i ==> q[j].sequence != sequence
    {
      i := i + 1;
    }
  }

  /** Arrival of the oldest buffered return keyframe among some lanes. */
  ghost predicate CutAmong(s: State, lanes: set<StreamKey>, cut: Option<i64>) {
    && (cut.Some? ==> exists k, i: nat :: KeyAt(s, k, i) && s.queues[k][i].receivedAt == cut.value)
    && (forall k, i: nat :: k in lanes && KeyAt(s, k, i) ==> cut.Some? && cut.value <= s.queues[k][i].receivedAt)
  }

  lemma CutMore(s: State, lanes: set<StreamKey>, cut: Option<i64>, k: StreamKey, i: nat)
    requires CutAmong(s, lanes, cut) && KeyAt(s, k, i)
    ensures var at := s.queues[k][i].receivedAt;
            CutAmong(s, lanes + {k}, if cut.None? || at < cut.value then Some(at) else cut)
  {
    forall j: nat | KeyAt(s, k, j) ensures j == i {
    }
  }

  lemma CutLess(s: State, lanes: set<StreamKey>, cut: Option<i64>, k: StreamKey)
    requires CutAmong(s, lanes, cut) && forall i: nat :: !KeyAt(s, k, i)
    ensures CutAmong(s, lanes + {k}, cut)
  {
  }

  lemma CutIs(s: State, cut: Option<i64>)
    requires CutAmong(s, s.returnKeys.Keys, cut)
    ensures LiveCut(s) == if cut.Some? then cut else s.returnRequested
  {
    hide KeyAt;
    assert forall k, i: nat :: KeyAt(s, k, i) ==> k in s.returnKeys.Keys by { KeysListed(s); }
    if cut.Some? {
      assert CutTime(s, cut.value);
    }
  }

  lemma KeysListed(s: State)
    ensures forall k, i: nat :: KeyAt(s, k, i) ==> k in s.returnKeys.Keys
  {
  }

  method FindLiveCut(s: State) returns (cut: Option<i64>)
    ensures cut == LiveCut(s)
  {
    hide KeyAt, LiveCut, CutAmong;
    cut := None;
    NoCutYet(s);
    var lanes := s.returnKeys.Keys;
    while lanes != {}
      invariant lanes <= s.returnKeys.Keys && CutAmong(s, s.returnKeys.Keys - lanes, cut)
      decreases |lanes|
    {
      var lane :| lane in lanes;
      var q := if lane in s.queues then s.queues[lane] else [];
      var i := FindSequence(q, s.returnKeys[lane]);
      KeyFound(s, lane, q, i);
      if i < |q| {
        CutMore(s, s.returnKeys.Keys - lanes, cut, lane, i);
        cut := if cut.None? || q[i].receivedAt < cut.value then Some(q[i].receivedAt) else cut;
      } else {
        CutLess(s, s.returnKeys.Keys - lanes, cut, lane);
      }
      assert s.returnKeys.Keys - lanes + {lane} == s.returnKeys.Keys - (lanes - {lane});
      lanes := lanes - {lane};
    }
    assert s.returnKeys.Keys - lanes == s.returnKeys.Keys;
    CutIs(s, cut);
    if cut.None? {
      cut := s.returnRequested;
    }
  }

  lemma NoCutYet(s: State)
    ensures CutAmong(s, s.returnKeys.Keys - s.returnKeys.Keys, None)
  {
  }

  lemma KeyFound(s: State, k: StreamKey, q: Queue, i: nat)
    requires k in s.returnKeys && q == (if k in s.queues then s.queues[k] else []) && i <= |q|
    requires i < |q| ==> q[i].sequence == s.returnKeys[k]
    requires forall j :: 0 <= j < i ==> q[j].sequence != s.returnKeys[k]
    ensures if i < |q| then KeyAt(s, k, i) else forall j: nat :: !KeyAt(s, k, j)
  {
  }

  /** Whether the return stops a candidate from leaving delayed. */
  method CheckGate(c: Config, s: State, now: i64, k: StreamKey) returns (stops: bool)
    requires k in s.queues && s.queues[k] != []
    ensures stops == GateStops(c, s, now, k)
  {
    if s.mode != Returning || s.returnCommitted {
      return false;
    }
    var front := s.queues[k][0];
    if !c.requireKeyframe && s.returnRequested.Some? && front.receivedAt >= s.returnRequested.value {
      return true;
    }
    var ready := IsReturnReady(c, s, now);
    if k.kind == Video {
      return k in s.returnKeys && front.sequence >= s.returnKeys[k] && ready;
    }
    if !ready {
      return false;
    }
    var cut := FindLiveCut(s);
    stops := cut.Some? && front.receivedAt >= cut.value;
  }
}
