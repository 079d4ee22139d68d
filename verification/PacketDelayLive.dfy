/** What a committed return releases, in an order that drains. */
module PacketDelayLive {
  import opened Options
  import opened Timestamps
  import opened PacketTypes
  import opened PacketDelaySpec
  import opened PacketDelayStep
  import opened PacketDelayInvariant
  import opened PacketDelayMerge
  import opened PacketDelayKeep
  import opened PacketDelayRun
  import opened PacketDelayEpoch
  import opened PacketDelayDecode
  import opened PacketDelayReturn

  /** A lane in one time base whose DTS does not go back. */
  predicate Steady(q: Queue) {
    forall i, j :: 0 <= i < j < |q| ==> q[i].packet.tb.den == q[j].packet.tb.den && q[i].packet.dts <= q[j].packet.dts
  }

  function OfLane(q: Queue, k: StreamKey): Queue {
    if q == [] then [] else (if q[0].packet.stream == k then [q[0]] else []) + OfLane(q[1..], k)
  }

  lemma {:induction false} OfLaneItems(q: Queue, k: StreamKey, x: Queued)
    ensures x in OfLane(q, k) <==> x in q && x.packet.stream == k
  {
    if q != [] {
      OfLaneItems(q[1..], k, x);
      assert q == [q[0]] + q[1..];
    }
  }

  lemma {:induction false} OfLaneSorted(s: State, q: Queue, k: StreamKey)
    requires Sorted(s, q)
    ensures Sorted(s, OfLane(q, k))
  {
    if q != [] {
      OfLaneSorted(s, q[1..], k);
      var rest := OfLane(q[1..], k);
      forall j | 0 <= j < |rest| ensures Strictly(s, q[0], rest[j]) {
        OfLaneItems(q[1..], k, rest[j]);
        assert rest[j] in rest;
        var i :| 0 <= i < |q[1..]| && q[1..][i] == rest[j];
        assert q[i + 1] == rest[j];
      }
    }
  }

  lemma SteadyPrecedes(s: State, x: Queued, y: Queued)
    requires x.packet.stream == y.packet.stream && x.packet.tb.den == y.packet.tb.den && x.packet.dts <= y.packet.dts
    requires Ordering(s, x.packet).Some? && Ordering(s, y.packet).Some? && x.sequence < y.sequence
    ensures Strictly(s, x, y)
  {
    var a, b := Ordering(s, x.packet).value, Ordering(s, y.packet).value;
    SameDen(a.value, b.value, a.tb.den);
    SameDen(b.value, a.value, a.tb.den);
  }

  lemma SteadySorted(c: Config, s: State, k: StreamKey, q: Queue, bound: nat, clock: Option<i64>)
    requires LaneOk(c, k, q, bound, clock) && Steady(q) && Datable(s, q)
    ensures Sorted(s, q)
  {
    forall i, j | 0 <= i < j < |q| ensures Strictly(s, q[i], q[j]) {
      SteadyPrecedes(s, q[i], q[j]);
    }
  }

  /** A merged lane comes out of the merge as it went in. */
  lemma MergedLane(c: Config, s: State, m: Queues, q: Queue, k: StreamKey, bound: nat, clock: Option<i64>)
    requires Merges(s, m, q) && LanesOk(c, m, bound, clock) && Mergeable(s, m) && k in m && Steady(m[k])
    ensures OfLane(q, k) == m[k]
  {
    assert LaneOk(c, k, m[k], bound, clock);
    SteadySorted(c, s, k, m[k], bound, clock);
    OfLaneSorted(s, q, k);
    forall x | x in OfLane(q, k) ensures x in m[k] {
      OfLaneItems(q, k, x);
      assert InLane(m, x);
      var j :| j in m && x in m[j];
      assert LaneOk(c, j, m[j], bound, clock);
    }
    forall x | x in m[k] ensures x in OfLane(q, k) {
      OfLaneItems(q, k, x);
    }
    SortedUnique(s, OfLane(q, k), m[k]);
  }

  // ---------------------------------------------------------------------
  // What is kept of each lane

  /** A video lane with a cut keeps exactly its packets from the newest keyframe on. */
  lemma KeptFromKey(c: Config, s: State, k: StreamKey, i: nat, n: nat)
    requires Ok(c, s, n) && c.requireKeyframe && k.kind == Video && k in s.returnKeys && k in s.queues
    requires NewestKeyAt(s.queues[k], s.returnKeys[k], i)
    ensures KeptFrom(c, s, LiveCut(s), k, s.queues[k]) == i
  {
    hide LiveCut, KeptFrom, Ok;
    LaneIs(c, s, k, n);
    var q := s.queues[k];
    var from := KeptFrom(c, s, LiveCut(s), k, q);
    assert Kept(c, s, LiveCut(s), k, q[i]);
    KeptBounds(c, s, LiveCut(s), k, q);
    if from < i {
      assert false;
    }
  }

  lemma KeptBounds(c: Config, s: State, cut: Option<i64>, k: StreamKey, q: Queue)
    ensures var from := KeptFrom(c, s, cut, k, q);
            && from <= |q| && (from < |q| ==> Kept(c, s, cut, k, q[from]))
            && forall j :: 0 <= j < from ==> !Kept(c, s, cut, k, q[j])
  {
  }

  lemma LaneIs(c: Config, s: State, k: StreamKey, n: nat)
    requires Ok(c, s, n) && k in s.queues
    ensures LaneOk(c, k, s.queues[k], n, s.lastObserved)
  {
  }

  /** An audio lane keeps exactly the packets that arrived at or after the live cut. */
  lemma KeptFromCut(c: Config, s: State, k: StreamKey, cut: i64, n: nat)
    requires Ok(c, s, n) && k.kind == Audio && k in s.queues
    ensures var q := s.queues[k]; var from := KeptFrom(c, s, Some(cut), k, q);
            forall j :: 0 <= j < |q| ==> (j >= from <==> q[j].receivedAt >= cut)
  {
    hide KeptFrom, Ok;
    LaneIs(c, s, k, n);
    KeptBounds(c, s, Some(cut), k, s.queues[k]);
  }

  // ---------------------------------------------------------------------
  // The committed return

  ghost predicate Committing(c: Config, s: State, n: nat) {
    && c.Valid() && Ok(c, s, n) && CutsOk(c, s) && s.mode == Returning && !s.returnCommitted
    && BuildPending(c, s).Some? && forall k :: k in s.queues ==> Steady(s.queues[k])
  }

  ghost function Built(c: Config, s: State): State
    requires BuildPending(c, s).Some?
  {
    BuildPending(c, s).value
  }

  /** What a successful commit leaves. */
  ghost function WentLive(c: Config, s: State): State
    requires BuildPending(c, s).Some?
  {
    Built(c, s).(returnCommitted := true, returnFromDelayed := false)
  }

  lemma BuiltMerges(c: Config, s: State, n: nat)
    requires Committing(c, s, n)
    ensures var kept := KeptQueues(c, s, LiveCut(s)); var s1 := s.(offsets := Built(c, s).offsets);
            && UnifiedOffsets(s, QueueFronts(kept), 0) == Some(Built(c, s).offsets)
            && Merges(s1, kept, Built(c, s).pending) && Mergeable(s1, kept)
            && LanesOk(c, kept, n, s.lastObserved) && Datable(s1, Built(c, s).pending)
            && Built(c, s).emitted == s.emitted
  {
    hide KeptQueues, UnifiedOffsets, Merge, LiveCut, Ok, CutsOk, Merges, Mergeable, LanesOk;
    var kept := KeptQueues(c, s, LiveCut(s));
    var s1 := s.(offsets := UnifiedOffsets(s, QueueFronts(kept), 0).value);
    KeptMergeable(c, s, s1, LiveCut(s), n);
    MergeCorrect(s1, kept, One);
  }

  lemma KeptSteady(c: Config, s: State, cut: Option<i64>, k: StreamKey)
    requires k in KeptQueues(c, s, cut) && Steady(s.queues[k])
    ensures Steady(KeptQueues(c, s, cut)[k])
  {
  }

  /** A lane with a recorded cut goes live as its contiguous suffix from the newest keyframe. */
  lemma ReturnedVideo(c: Config, s: State, k: StreamKey, n: nat)
    requires Committing(c, s, n) && k in s.returnKeys
    ensures exists i: nat :: k in s.queues && NewestKeyAt(s.queues[k], s.returnKeys[k], i)
                             && OfLane(Built(c, s).pending, k) == s.queues[k][i..]
  {
    hide KeptFrom, BuildPending, LiveCut, Ok, NewestKeyAt;
    var q := Lane(s, k);
    var i: nat :| NewestKeyAt(q, s.returnKeys[k], i);
    NewestInside(q, s.returnKeys[k], i);
    KeptFromKey(c, s, k, i, n);
    ReturnedLane(c, s, k, n);
  }

  lemma NewestInside(q: Queue, sequence: nat, i: nat)
    requires NewestKeyAt(q, sequence, i)
    ensures i < |q| && NewestKey(q, sequence)
  {
  }

  lemma ReturnedLane(c: Config, s: State, k: StreamKey, n: nat)
    requires Committing(c, s, n) && k in KeptQueues(c, s, LiveCut(s))
    ensures OfLane(Built(c, s).pending, k) == KeptQueues(c, s, LiveCut(s))[k]
  {
    hide KeptQueues, BuildPending, Ok, LiveCut, Merges, Mergeable;
    KeptKeys(c, s, LiveCut(s), k);
    BuiltMerges(c, s, n);
    KeptSteady(c, s, LiveCut(s), k);
    MergedLane(c, s.(offsets := Built(c, s).offsets), KeptQueues(c, s, LiveCut(s)), Built(c, s).pending, k, n, s.lastObserved);
  }

  lemma KeptKeys(c: Config, s: State, cut: Option<i64>, k: StreamKey)
    requires k in KeptQueues(c, s, cut)
    ensures k in s.queues
  {
  }

  /** Audio goes live exactly from the arrival of the live cut on. */
  lemma ReturnedAudio(c: Config, s: State, k: StreamKey, n: nat)
    requires Committing(c, s, n) && k.kind == Audio && k in s.queues
    ensures LiveCut(s).Some?
    ensures forall x :: x in Built(c, s).pending && x.packet.stream == k ==> x in s.queues[k] && x.receivedAt >= LiveCut(s).value
    ensures forall x :: x in s.queues[k] && x.receivedAt >= LiveCut(s).value ==> x in Built(c, s).pending
  {
    hide KeptFrom, BuildPending, Ok, Merges, Mergeable, LiveCut;
    CutKnown(c, s);
    BuiltMerges(c, s, n);
    KeptFromCut(c, s, k, LiveCut(s).value, n);
    var s1 := s.(offsets := Built(c, s).offsets);
    AudioOnly(c, s, s1, k, Built(c, s).pending, LiveCut(s).value, n);
    AudioAll(c, s, s1, k, Built(c, s).pending, LiveCut(s).value);
  }

  lemma CutKnown(c: Config, s: State)
    requires CutsOk(c, s) && s.mode == Returning && !s.returnCommitted
    ensures LiveCut(s).Some?
  {
  }

  ghost predicate KeptSince(c: Config, s: State, k: StreamKey, cut: i64) {
    k in s.queues &&
    var from := KeptFrom(c, s, Some(cut), k, s.queues[k]);
    forall j :: 0 <= j < |s.queues[k]| ==> (j >= from <==> s.queues[k][j].receivedAt >= cut)
  }

  lemma AudioOnly(c: Config, s: State, s1: State, k: StreamKey, q: Queue, cut: i64, n: nat)
    requires KeptSince(c, s, k, cut) && Merges(s1, KeptQueues(c, s, Some(cut)), q)
    requires LanesOk(c, KeptQueues(c, s, Some(cut)), n, s.lastObserved)
    ensures forall x :: x in q && x.packet.stream == k ==> x in s.queues[k] && x.receivedAt >= cut
  {
    hide KeptFrom, Sorted;
    var kept := KeptQueues(c, s, Some(cut));
    var from := KeptFrom(c, s, Some(cut), k, s.queues[k]);
    forall x | x in q && x.packet.stream == k ensures x in s.queues[k] && x.receivedAt >= cut {
      assert InLane(kept, x);
      var j :| j in kept && x in kept[j];
      assert LaneOk(c, j, kept[j], n, s.lastObserved);
      var i :| 0 <= i < |kept[k]| && kept[k][i] == x;
      assert s.queues[k][from + i] == x;
    }
  }

  lemma AudioAll(c: Config, s: State, s1: State, k: StreamKey, q: Queue, cut: i64)
    requires KeptSince(c, s, k, cut) && Merges(s1, KeptQueues(c, s, Some(cut)), q)
    ensures forall x :: x in s.queues[k] && x.receivedAt >= cut ==> x in q
  {
    hide KeptFrom, Sorted;
    var kept := KeptQueues(c, s, Some(cut));
    var from := KeptFrom(c, s, Some(cut), k, s.queues[k]);
    forall x | x in s.queues[k] && x.receivedAt >= cut ensures x in q {
      var i :| 0 <= i < |s.queues[k]| && s.queues[k][i] == x;
      assert kept[k][i - from] == x;
      assert x in kept[k];
    }
  }

  /** The first packet of each returned lane is ahead of everything emitted before. */
  lemma ReturnedAhead(c: Config, s: State, k: StreamKey, n: nat)
    requires Committing(c, s, n) && k in KeptQueues(c, s, LiveCut(s))
    ensures var first := KeptQueues(c, s, LiveCut(s))[k][0].packet;
            k in Built(c, s).offsets && DelayTicks(0, first.tb) == Some(0) && Acceptable(s, first, 0, Built(c, s).offsets[k])
  {
    hide KeptQueues, BuildPending, Ok, LiveCut, Merges, Mergeable, Acceptable, UnifiedOffsets;
    var kept := KeptQueues(c, s, LiveCut(s));
    BuiltMerges(c, s, n);
    OkHorizons(c, s, n);
    assert LaneOk(c, k, kept[k], n, s.lastObserved);
    UnifiedAcceptable(s, QueueFronts(kept), 0, k);
  }

  /** The returned lanes are put off no longer than what was shown before requires, whatever the delay was. */
  lemma ReturnedTight(c: Config, s: State, n: nat)
    requires Committing(c, s, n) && KeptQueues(c, s, LiveCut(s)) != map[]
    ensures Tight(s, QueueFronts(KeptQueues(c, s, LiveCut(s))), 0, Built(c, s).offsets)
  {
    hide KeptQueues, BuildPending, Ok, LiveCut, Merges, Mergeable, Acceptable, UnifiedOffsets, Tight;
    var kept := KeptQueues(c, s, LiveCut(s));
    BuiltMerges(c, s, n);
    OkHorizons(c, s, n);
    var k :| k in kept;
    assert LaneOk(c, k, kept[k], n, s.lastObserved);
    assert k in QueueFronts(kept);
    UnifiedTight(s, QueueFronts(kept), 0);
  }

  lemma OkHorizons(c: Config, s: State, n: nat)
    requires Ok(c, s, n)
    ensures HorizonsOk(s)
  {
  }

  // ---------------------------------------------------------------------
  // Draining the pending list

  /** The first m pending packets can be shifted, in DTS order, at or above what was emitted. */
  ghost predicate Drainable(s: State, m: nat) {
    && m <= |s.pending|
    && (forall i :: 0 <= i < m ==> Shifts(s, s.pending[i].packet))
    && (forall i, j :: 0 <= i < j < m ==> DtsLe(s, s.pending[i].packet, s.pending[j].packet))
    && (forall i :: 0 <= i < m ==> FromEmitted(s, s.pending[i].packet))
  }

  predicate Shifts(s: State, p: Packet) {
    p.tb.Valid() && p.stream in s.offsets && Retimestamp(p, s.offsets[p.stream]).Some?
  }

  function Shifted(s: State, p: Packet): Packet
    requires Shifts(s, p)
  {
    Retimestamp(p, s.offsets[p.stream]).value
  }

  predicate DtsLe(s: State, p: Packet, q: Packet) {
    Shifts(s, p) && Shifts(s, q) && Le(Shifted(s, p).dts, p.tb.den, Shifted(s, q).dts, q.tb.den)
  }

  predicate FromEmitted(s: State, p: Packet) {
    Shifts(s, p) && (s.emitted.Some? ==>
      s.emitted.value.tb.den > 0 && Le(s.emitted.value.value, s.emitted.value.tb.den, Shifted(s, p).dts, p.tb.den))
  }

  lemma EmitPendingSucceeds(s: State, now: i64, m: nat)
    requires 0 < m && Drainable(s, m)
    ensures var x := s.pending[0];
            var r := Emit(s.(pending := s.pending[1..]), x, now, false, ReturnRegression, ReturnRegression);
            && r.out == [Output(Shifted(s, x.packet), x.receivedAt, now, x.sequence, false)]
            && Drainable(r.state, m - 1) && r.state.pending == s.pending[1..] && r.state.offsets == s.offsets
            && r.state.mode == s.mode && r.state.returnCommitted == s.returnCommitted
  {
    var x := s.pending[0];
    var s1 := s.(pending := s.pending[1..]);
    var p := Shifted(s, x.packet);
    assert FromEmitted(s, x.packet);
    assert Note(s1, p).Some? by {
      if s.emitted.Some? { CmpFlip(p.dts, p.tb.den, s.emitted.value.value, s.emitted.value.tb.den); }
    }
    NoteSame(s1, p);
    var r := Note(s1, p).value;
    assert r.emitted == Some(Horizon(p.dts, p.tb));
    forall i | 0 <= i < m - 1 ensures FromEmitted(r, r.pending[i].packet) && Shifts(r, r.pending[i].packet) {
      assert DtsLe(s, s.pending[0].packet, s.pending[i + 1].packet);
    }
    forall i, j | 0 <= i < j < m - 1 ensures DtsLe(r, r.pending[i].packet, r.pending[j].packet) {
      assert DtsLe(s, s.pending[i + 1].packet, s.pending[j + 1].packet);
    }
  }

  /** The pending list leaves in order up to its end, or up to the first packet that cannot be shifted, which is an error. */
  lemma {:induction false} PendingDrains(s: State, now: i64, m: nat)
    requires Drainable(s, m) && (m < |s.pending| ==> s.pending[m].packet.tb.Valid() && !Shifts(s, s.pending[m].packet))
    ensures var r := DrainPending(s, now);
            && r.state.pending == [] && r.state.mode == (if m == |s.pending| then s.mode else Failed) && |r.out| == m
            && forall i :: 0 <= i < m ==>
                 Shifts(s, s.pending[i].packet) &&
                 r.out[i] == Output(Shifted(s, s.pending[i].packet), s.pending[i].receivedAt, now, s.pending[i].sequence, false)
    decreases |s.pending|
  {
    hide Emit, Drainable, EnterError;
    DrainableShifts(s, m);
    if m > 0 {
      EmitPendingSucceeds(s, now, m);
      var one := Emit(s.(pending := s.pending[1..]), s.pending[0], now, false, ReturnRegression, ReturnRegression);
      PendingDrains(one.state, now, m - 1);
    } else if s.pending != [] {
      EmitPendingFails(s, now);
    }
  }

  lemma EmitPendingFails(s: State, now: i64)
    requires s.pending != [] && s.pending[0].packet.tb.Valid() && !Shifts(s, s.pending[0].packet)
    ensures var r := Emit(s.(pending := s.pending[1..]), s.pending[0], now, false, ReturnRegression, ReturnRegression);
            r.out == [] && r.state.mode == Failed && r.state.pending == []
  {
  }

  lemma DrainableShifts(s: State, m: nat)
    requires Drainable(s, m)
    ensures m <= |s.pending| && forall i :: 0 <= i < m ==> Shifts(s, s.pending[i].packet)
  {
  }

  /** What will be kept can be shifted by the offsets the return will create, presentation times included. */
  ghost predicate KeptFits(c: Config, s: State) {
    var kept := KeptQueues(c, s, LiveCut(s));
    var offsets := UnifiedOffsets(s, QueueFronts(kept), 0);
    offsets.Some? && forall k, x :: k in kept && x in kept[k] && k in offsets.value ==> x.packet.pts + offsets.value[k] <= MAX64
  }

  lemma PendingInLane(c: Config, s: State, x: Queued, n: nat)
    requires Committing(c, s, n) && x in Built(c, s).pending
    ensures var kept := KeptQueues(c, s, LiveCut(s)); var k := x.packet.stream;
            && k in kept && x in kept[k] && LaneOk(c, k, kept[k], n, s.lastObserved) && Steady(kept[k])
            && k in Built(c, s).offsets
  {
    hide KeptQueues, BuildPending, Ok, LiveCut, Mergeable, UnifiedOffsets, Sorted, Steady;
    var kept := KeptQueues(c, s, LiveCut(s));
    BuiltMerges(c, s, n);
    assert InLane(kept, x);
    var k :| k in kept && x in kept[k];
    assert LaneOk(c, k, kept[k], n, s.lastObserved);
    KeptKeys(c, s, LiveCut(s), k);
    KeptSteady(c, s, LiveCut(s), k);
    UnifiedJustReach(s, QueueFronts(kept), 0);
  }

  /** Each pending packet is at or above the last emitted DTS: its lane's first one is, and the lane is steady. */
  lemma PendingFromEmitted(c: Config, s: State, x: Queued, n: nat)
    requires Committing(c, s, n) && x in Built(c, s).pending && Shifts(Built(c, s), x.packet)
    ensures FromEmitted(Built(c, s), x.packet)
  {
    hide KeptQueues, BuildPending, Ok, LiveCut, Merges, Mergeable, UnifiedOffsets, Cmp;
    PendingInLane(c, s, x, n);
    var kept := KeptQueues(c, s, LiveCut(s));
    var k := x.packet.stream;
    ReturnedAhead(c, s, k, n);
    BuiltMerges(c, s, n);
    var first: Queued := kept[k][0];
    var i :| 0 <= i < |kept[k]| && kept[k][i] == x;
    var pi :| 0 <= pi < |Built(c, s).pending| && Built(c, s).pending[pi] == x;
    if s.emitted.Some? {
      OkHorizons(c, s, n);
      AboveFirst(s.emitted.value, first.packet, x.packet, Built(c, s).offsets[k]);
    }
  }

  lemma AboveFirst(e: Horizon, first: Packet, p: Packet, offset: int)
    requires e.tb.Valid() && first.tb.Valid() && p.tb.den == first.tb.den && first.dts <= p.dts
    requires Clears(first.dts + offset, first.tb.den, e.value, e.tb.den, false)
    ensures Le(e.value, e.tb.den, p.dts + offset, p.tb.den)
  {
    CmpFlip(first.dts + offset, first.tb.den, e.value, e.tb.den);
    SameDen(first.dts + offset, p.dts + offset, p.tb.den);
    LeTransitive(e.value, e.tb.den, first.dts + offset, first.tb.den, p.dts + offset, p.tb.den);
  }

  lemma SortedDts(s: State, q: Queue, i: nat, j: nat)
    requires Sorted(s, q) && i < j < |q| && Shifts(s, q[i].packet) && Shifts(s, q[j].packet)
    ensures DtsLe(s, q[i].packet, q[j].packet)
  {
    assert Strictly(s, q[i], q[j]);
  }

  /** A pending packet can be shifted exactly when its presentation time stays in 64 bits. */
  lemma PendingShifts(c: Config, s: State, x: Queued, n: nat)
    requires Committing(c, s, n) && x in Built(c, s).pending
    ensures var b := Built(c, s); var k := x.packet.stream;
            k in b.offsets && x.packet.tb.Valid() && (Shifts(b, x.packet) <==> x.packet.pts + b.offsets[k] <= MAX64)
  {
    hide KeptQueues, BuildPending, Ok, LiveCut, Merges, Mergeable, UnifiedOffsets, LanesOk, CutsOk, Acceptable, Sorted;
    PendingInLane(c, s, x, n);
    BuiltMerges(c, s, n);
    ReturnedAhead(c, s, x.packet.stream, n);
    OffsetIsNat(s, KeptQueues(c, s, LiveCut(s))[x.packet.stream][0].packet, Built(c, s).offsets[x.packet.stream]);
    var s1 := s.(offsets := Built(c, s).offsets);
    var i :| 0 <= i < |Built(c, s).pending| && Built(c, s).pending[i] == x;
    assert Ordering(s1, x.packet).Some?;
  }

  lemma OffsetIsNat(s: State, p: Packet, offset: int)
    requires Acceptable(s, p, 0, offset)
    ensures offset >= 0
  {
  }

  /** The pending packets that leave, in order, when the first m can be shifted. */
  lemma BuiltDrainable(c: Config, s: State, n: nat, m: nat)
    requires Committing(c, s, n) && m <= |Built(c, s).pending|
    requires forall i :: 0 <= i < m ==> Shifts(Built(c, s), Built(c, s).pending[i].packet)
    ensures Drainable(Built(c, s), m)
  {
    hide KeptQueues, BuildPending, Ok, LiveCut, Mergeable, UnifiedOffsets, LanesOk, CutsOk, Sorted, Shifts;
    var b := Built(c, s);
    BuiltMerges(c, s, n);
    forall i | 0 <= i < m ensures FromEmitted(b, b.pending[i].packet) {
      PendingFromEmitted(c, s, b.pending[i], n);
    }
    forall i, j | 0 <= i < j < m ensures DtsLe(b, b.pending[i].packet, b.pending[j].packet) {
      SortedSame(s.(offsets := b.offsets), b, b.pending);
      SortedDts(b, b.pending, i, j);
    }
  }

  /** The first pending packet that cannot be shifted, the length when all can. */
  ghost function FirstUnshifted(s: State, q: Queue): (m: nat)
    ensures m <= |q| && (m < |q| ==> !Shifts(s, q[m].packet)) && forall i :: 0 <= i < m ==> Shifts(s, q[i].packet)
  {
    if q == [] || !Shifts(s, q[0].packet) then 0 else 1 + FirstUnshifted(s, q[1..])
  }

  /** A committed return drains, in order and without a DTS regression, exactly up to the first packet whose
      presentation time leaves 64 bits; such a packet is an error. */
  lemma ReturnDrainsTo(c: Config, s: State, n: nat, now: i64)
    requires Committing(c, s, n)
    ensures var b := WentLive(c, s); var m := FirstUnshifted(b, b.pending); var r := DrainPending(b, now);
            && Drainable(b, m) && |r.out| == m && r.state.pending == []
            && r.state.mode == if m == |b.pending| then Returning else Failed
  {
    hide KeptQueues, BuildPending, Ok, CutsOk, DrainPending, Shifts, Drainable;
    var b := Built(c, s);
    LiveShifts(c, s);
    var m := FirstUnshifted(WentLive(c, s), b.pending);
    BuiltDrainable(c, s, n, m);
    LiveDrainable(c, s, m);
    if m < |b.pending| {
      PendingShifts(c, s, b.pending[m], n);
    }
    PendingDrains(WentLive(c, s), now, m);
    BuiltMode(c, s);
  }

  lemma LiveShifts(c: Config, s: State)
    requires BuildPending(c, s).Some?
    ensures forall p :: Shifts(WentLive(c, s), p) <==> Shifts(Built(c, s), p)
  {
    hide BuildPending;
  }

  lemma LiveDrainable(c: Config, s: State, m: nat)
    requires BuildPending(c, s).Some? && Drainable(Built(c, s), m)
    ensures Drainable(WentLive(c, s), m)
  {
    hide BuildPending;
    var b, g := Built(c, s), WentLive(c, s);
    forall i | 0 <= i < m ensures FromEmitted(g, g.pending[i].packet) && Shifts(g, g.pending[i].packet) {
      assert FromEmitted(b, b.pending[i].packet);
    }
    forall i, j | 0 <= i < j < m ensures DtsLe(g, g.pending[i].packet, g.pending[j].packet) {
      assert DtsLe(b, b.pending[i].packet, b.pending[j].packet);
    }
  }

  /** A committed return drains completely if and only if every kept packet's presentation time fits after the shift. */
  lemma ReturnDrains(c: Config, s: State, n: nat, now: i64)
    requires Committing(c, s, n)
    ensures var r := DrainPending(WentLive(c, s), now);
            r.state.mode == Returning && |r.out| == |WentLive(c, s).pending| <==> KeptFits(c, s)
    ensures !KeptFits(c, s) ==> DrainPending(WentLive(c, s), now).state.mode == Failed
  {
    hide BuildPending, Ok, CutsOk, DrainPending, Shifts, Drainable, KeptFits;
    ReturnDrainsTo(c, s, n, now);
    FitsAll(c, s, n);
    LiveShifts(c, s);
    var b := WentLive(c, s);
    assert FirstUnshifted(b, b.pending) == |b.pending| <==> forall i :: 0 <= i < |b.pending| ==> Shifts(b, b.pending[i].packet);
  }

  lemma FitsAll(c: Config, s: State, n: nat)
    requires Committing(c, s, n)
    ensures KeptFits(c, s) <==> forall i :: 0 <= i < |Built(c, s).pending| ==> Shifts(Built(c, s), Built(c, s).pending[i].packet)
  {
    hide KeptQueues, BuildPending, Ok, LiveCut, Mergeable, UnifiedOffsets, CutsOk, Merges, Shifts, LanesOk;
    var b := Built(c, s);
    var kept := KeptQueues(c, s, LiveCut(s));
    BuiltMerges(c, s, n);
    if KeptFits(c, s) {
      forall i | 0 <= i < |b.pending| ensures Shifts(b, b.pending[i].packet) {
        PendingInLane(c, s, b.pending[i], n);
        PendingShifts(c, s, b.pending[i], n);
      }
    } else {
      var k: StreamKey, x: Queued :| k in kept && x in kept[k] && k in b.offsets && x.packet.pts + b.offsets[k] > MAX64;
      LaneIsPending(c, s, k, x, n);
      PendingShifts(c, s, x, n);
      var i :| 0 <= i < |b.pending| && b.pending[i] == x;
      assert !Shifts(b, b.pending[i].packet);
    }
  }

  lemma LaneIsPending(c: Config, s: State, k: StreamKey, x: Queued, n: nat)
    requires Committing(c, s, n) && var kept := KeptQueues(c, s, LiveCut(s)); k in kept && x in kept[k]
    ensures x in Built(c, s).pending && x.packet.stream == k
  {
    hide KeptQueues, BuildPending, Ok, LiveCut, Mergeable, UnifiedOffsets, CutsOk, Sorted;
    BuiltMerges(c, s, n);
    assert LaneOk(c, k, KeptQueues(c, s, LiveCut(s))[k], n, s.lastObserved);
  }

  lemma SortedSame(s: State, r: State, q: Queue)
    requires Sorted(s, q) && r.offsets == s.offsets
    ensures Sorted(r, q)
  {
    forall i, j | 0 <= i < j < |q| ensures Strictly(r, q[i], q[j]) {
      assert Strictly(s, q[i], q[j]);
      StrictlySame(s, r, q[i], q[j]);
    }
  }

  lemma StrictlySame(s: State, r: State, x: Queued, y: Queued)
    requires r.offsets == s.offsets
    ensures Strictly(r, x, y) == Strictly(s, x, y)
  {
    assert Ordering(r, x.packet) == Ordering(s, x.packet) && Ordering(r, y.packet) == Ordering(s, y.packet);
  }
}
