/** What every public operation of the packet delay keeps: well-formed lanes of distinct packets, exact caps,
    consistent mode flags and valid horizons. */
module PacketDelayInvariant {
  import opened Options
  import opened Timestamps
  import opened PacketTypes
  import opened PacketDelaySpec
  import opened PacketDelayStep

  // ---------------------------------------------------------------------
  // Sums

  lemma {:induction false} WeightRemove(m: Queues, k: StreamKey, w: Queued -> nat)
    requires k in m
    ensures Weight(m, w) == SeqWeight(m[k], w) + Weight(m - {k}, w)
  {
    var first :| first in m && Weight(m, w) == SeqWeight(m[first], w) + Weight(m - {first}, w);
    if first != k {
      WeightRemove(m - {first}, k, w);
      WeightRemove(m - {k}, first, w);
      assert m - {first} - {k} == m - {k} - {first};
    }
  }

  lemma WeightUpdate(m: Queues, k: StreamKey, q: Queue, w: Queued -> nat)
    ensures Weight(m[k := q], w)
         == Weight(m, w) - (if k in m then SeqWeight(m[k], w) else 0) + SeqWeight(q, w)
  {
    WeightRemove(m[k := q], k, w);
    assert m[k := q] - {k} == m - {k};
    if k in m {
      WeightRemove(m, k, w);
    } else {
      assert m - {k} == m;
    }
  }

  lemma {:induction false} SeqWeightSplit(q: Queue, i: nat, w: Queued -> nat)
    requires i <= |q|
    ensures SeqWeight(q, w) == SeqWeight(q[..i], w) + SeqWeight(q[i..], w)
  {
    if i != 0 {
      SeqWeightSplit(q[1..], i - 1, w);
      assert q[..i][1..] == q[1..][..i - 1] && q[1..][i - 1..] == q[i..];
    } else {
      assert q[0..] == q;
    }
  }

  lemma {:induction false} SeqWeightOne(q: Queue)
    ensures SeqWeight(q, One) == |q|
  {
    if q != [] {
      SeqWeightOne(q[1..]);
    }
  }

  // ---------------------------------------------------------------------
  // Nonempty suffixes of lanes: what pruning, cutting and popping leave

  ghost predicate SuffixOf(r: Queue, q: Queue) {
    r != [] && |r| <= |q| && r == q[|q| - |r|..]
  }

  ghost predicate Suffixes(m: Queues, of: Queues) {
    forall k :: k in m ==> k in of && SuffixOf(m[k], of[k])
  }

  lemma SuffixWeight(r: Queue, q: Queue, w: Queued -> nat)
    requires r == [] || SuffixOf(r, q)
    ensures SeqWeight(r, w) <= SeqWeight(q, w)
  {
    SeqWeightSplit(q, |q| - |r|, w);
  }

  lemma {:induction false} SuffixesWeight(m: Queues, of: Queues, w: Queued -> nat)
    requires Suffixes(m, of)
    ensures Weight(m, w) <= Weight(of, w)
    decreases |of|
  {
    if of == map[] {
      assert m == map[];
    } else {
      var k :| k in of;
      WeightRemove(of, k, w);
      SuffixesWeight(m - {k}, of - {k}, w);
      if k in m {
        WeightRemove(m, k, w);
        SuffixWeight(m[k], of[k], w);
      } else {
        assert m - {k} == m;
        assert Weight(m - {k}, w) == Weight(m, w);
      }
    }
  }

  // ---------------------------------------------------------------------
  // The invariant

  ghost predicate ItemOk(c: Config, item: Queued, bound: nat, clock: Option<i64>) {
    && item.packet.tb.Valid()
    && item.sequence < bound
    && item.retained == item.packet.retained + c.metadataBytes
    && clock.Some? && item.receivedAt <= clock.value
  }

  ghost predicate Arrived(q: Queue) {
    forall i, j :: 0 <= i < j < |q| ==> q[i].sequence < q[j].sequence && q[i].receivedAt <= q[j].receivedAt
  }

  ghost predicate LaneOk(c: Config, k: StreamKey, q: Queue, bound: nat, clock: Option<i64>) {
    && q != []
    && Arrived(q)
    && ItemsOk(c, k, q, bound, clock)
  }

  ghost predicate ItemsOk(c: Config, k: StreamKey, q: Queue, bound: nat, clock: Option<i64>) {
    forall i :: 0 <= i < |q| ==> q[i].packet.stream == k && ItemOk(c, q[i], bound, clock)
  }

  ghost predicate LanesOk(c: Config, m: Queues, bound: nat, clock: Option<i64>) {
    forall k :: k in m ==> LaneOk(c, k, m[k], bound, clock)
  }

  /** No sequence number is buffered in two lanes. */
  ghost predicate DistinctLanes(m: Queues) {
    forall k, j :: k in m && j in m && k != j ==> Apart(m[k], m[j])
  }

  ghost predicate Apart(q: Queue, r: Queue) {
    forall i, j :: 0 <= i < |q| && 0 <= j < |r| ==> q[i].sequence != r[j].sequence
  }

  /** One buffered generation at a time for each lane. */
  ghost predicate OneGeneration(m: Queues) {
    forall k, j :: k in m && j in m && Timeline(k) == Timeline(j) ==> k == j
  }

  ghost predicate DistinctPending(c: Config, q: Queue, bound: nat, clock: Option<i64>) {
    && (forall i :: 0 <= i < |q| ==> ItemOk(c, q[i], bound, clock))
    && (forall i, j :: 0 <= i < j < |q| ==> q[i].sequence != q[j].sequence)
  }

  ghost predicate Buffering(s: State) {
    EpochActive(s) || s.mode == Filling
  }

  ghost predicate ModesOk(s: State) {
    && (s.preparingChange ==> s.mode == Preparing && s.originDelayed)
    && (s.originDelayed ==> s.mode == Filling || (s.mode == Preparing && s.preparingChange))
    && (s.returnCommitted || s.returnFromDelayed || s.returnRequested.Some? || s.returnKeys != map[] ==>
          s.mode == Returning)
    && (s.mode == Returning ==> s.returnRequested.Some?)
    && (s.queues != map[] ==> Buffering(s) && !s.returnCommitted)
    && (s.pending != [] ==> s.returnCommitted)
  }

  ghost predicate TargetsOk(c: Config, s: State) {
    s.target <= c.maxDelay && s.pendingTarget <= c.maxDelay && s.previousTarget <= c.maxDelay
  }

  ghost predicate HorizonsOk(s: State) {
    && (forall k :: k in s.latest ==> s.latest[k].tb.Valid())
    && (forall k :: k in s.outputDts ==> s.outputDts[k].tb.Valid())
    && (forall k :: k in s.outputPts ==> s.outputPts[k].tb.Valid())
    && (s.emitted.Some? ==> s.emitted.value.tb.Valid())
  }

  ghost predicate CapsOk(c: Config, s: State) {
    && Packets(s) <= c.maxPackets
    && PayloadBytes(s) <= SIZE_MAX && RetainedBytes(s) <= SIZE_MAX
    && (c.maxPayload != 0 ==> PayloadBytes(s) <= c.maxPayload)
    && (c.maxRetained != 0 ==> RetainedBytes(s) <= c.maxRetained)
  }

  ghost predicate RosterOk(c: Config, s: State) {
    |s.known| <= c.maxStreams
  }

  /** All sequence numbers handed out so far are below the bound. */
  ghost predicate Ok(c: Config, s: State, bound: nat) {
    && LanesOk(c, s.queues, bound, s.lastObserved)
    && DistinctLanes(s.queues)
    && OneGeneration(s.queues)
    && DistinctPending(c, s.pending, bound, s.lastObserved)
    && ModesOk(s) && TargetsOk(c, s) && HorizonsOk(s) && CapsOk(c, s) && RosterOk(c, s)
  }

  // ---------------------------------------------------------------------
  // Preservation, operation by operation

  lemma OkInitial(c: Config)
    requires c.Valid()
    ensures Ok(c, Initial(c), 0)
  {
  }

  lemma OkError(c: Config, s: State, bound: nat, fault: Fault)
    requires c.Valid() && HorizonsOk(s) && TargetsOk(c, s) && RosterOk(c, s)
    ensures Ok(c, EnterError(s, fault), bound)
  {
  }

  /** A later clock keeps every item in order. */
  lemma OkClock(c: Config, s: State, now: i64, bound: nat)
    requires c.Valid() && Ok(c, s, bound)
    ensures Ok(c, Observe(s, now), bound)
  {
    if Regresses(s, now) {
      OkError(c, s, bound, ClockRegression);
    } else {
      forall k | k in s.queues ensures LaneOk(c, k, s.queues[k], bound, Some(now)) {
        assert LaneOk(c, k, s.queues[k], bound, s.lastObserved);
      }
    }
  }

  lemma SuffixLane(c: Config, k: StreamKey, r: Queue, q: Queue, bound: nat, clock: Option<i64>)
    requires LaneOk(c, k, q, bound, clock) && SuffixOf(r, q)
    ensures LaneOk(c, k, r, bound, clock)
  {
  }

  lemma SuffixesLanes(c: Config, m: Queues, of: Queues, bound: nat, clock: Option<i64>)
    requires LanesOk(c, of, bound, clock) && Suffixes(m, of)
    ensures LanesOk(c, m, bound, clock)
  {
    forall k | k in m ensures LaneOk(c, k, m[k], bound, clock) {
      SuffixLane(c, k, m[k], of[k], bound, clock);
    }
  }

  lemma SuffixesDistinct(m: Queues, of: Queues)
    requires DistinctLanes(of) && OneGeneration(of) && Suffixes(m, of)
    ensures DistinctLanes(m) && OneGeneration(m)
  {
    forall k, j | k in m && j in m && k != j ensures Apart(m[k], m[j]) {
      assert Apart(of[k], of[j]);
    }
  }

  lemma SuffixesCaps(c: Config, s: State, m: Queues)
    requires CapsOk(c, s) && Suffixes(m, s.queues)
    ensures CapsOk(c, s.(queues := m))
  {
    SuffixesWeight(m, s.queues, One);
    SuffixesWeight(m, s.queues, Payload);
    SuffixesWeight(m, s.queues, Retained);
  }

  /** Dropping lanes and prefixes keeps every lane and every cap. */
  lemma OkSuffixes(c: Config, s: State, m: Queues, bound: nat)
    requires Ok(c, s, bound) && Suffixes(m, s.queues)
    ensures Ok(c, s.(queues := m), bound)
  {
    SuffixesLanes(c, m, s.queues, bound, s.lastObserved);
    SuffixesDistinct(m, s.queues);
    SuffixesCaps(c, s, m);
  }

  lemma PruneSuffixes(c: Config, s: State, now: i64, bound: nat)
    requires LanesOk(c, s.queues, bound, s.lastObserved)
    ensures Suffixes(Prune(c, s, now).queues, s.queues)
  {
    forall k | k in s.queues ensures SuffixOf(PruneQueue(c, s.queues[k], now, Retention(c, s)), s.queues[k]) {
      assert LaneOk(c, k, s.queues[k], bound, s.lastObserved);
    }
  }

  lemma OkPrune(c: Config, s: State, now: i64, bound: nat)
    requires Ok(c, s, bound)
    ensures Ok(c, Prune(c, s, now), bound)
  {
    PruneSuffixes(c, s, now, bound);
    OkSuffixes(c, s, Prune(c, s, now).queues, bound);
  }

  lemma PlanSuffixes(c: Config, s: State, now: i64)
    ensures Suffixes(ApplyPlan(c, s, now).queues, s.queues)
  {
  }

  lemma PopSuffixes(s: State, k: StreamKey)
    requires k in s.queues && forall j :: j in s.queues ==> s.queues[j] != []
    ensures Suffixes(PopFront(s, k).queues, s.queues)
  {
  }

  /** A prepared lane shares its timeline with no other buffered lane. */
  lemma OkPrepare(c: Config, s: State, stream: StreamKey, bound: nat)
    requires c.Valid() && Ok(c, s, bound)
    ensures var r := PrepareStream(c, s, stream);
            && Ok(c, r.state, bound)
            && (r.ok ==> r.state.queues == s.queues && Timeline(stream) in r.state.known)
            && (r.ok ==> forall k :: k in s.queues && Timeline(k) == Timeline(stream) ==> k == stream)
  {
    var r := PrepareStream(c, s, stream);
    if Timeline(stream) !in s.known && |s.known| >= c.maxStreams {
      OkError(c, s, bound, TooManyTimelines);
    } else {
      var s1 := s.(known := s.known + {Timeline(stream)});
      assert RosterOk(c, s1);
      if HasOldGeneration(s1, stream) {
        OkError(c, s1, bound, GenerationChanged);
      } else {
        OkDropReplaced(c, s1, stream, bound);
        forall k | k in s.queues && Timeline(k) == Timeline(stream) ensures k == stream {
          assert LaneOk(c, k, s.queues[k], bound, s.lastObserved);
        }
      }
    }
  }

  lemma OkDropReplaced(c: Config, s: State, stream: StreamKey, bound: nat)
    requires Ok(c, s, bound)
    ensures Ok(c, DropReplaced(s, stream), bound)
  {
    var r := DropReplaced(s, stream);
    assert r.queues == s.queues && r.pending == s.pending;
    assert s.returnKeys == map[] ==> r.returnKeys == map[];
  }

  ghost predicate Admits(c: Config, s: State, p: Packet, now: i64, bound: nat) {
    && Ok(c, s, bound) && Buffering(s) && !s.returnCommitted
    && p.tb.Valid() && s.lastObserved == Some(now) && !OverCapacity(c, s, p)
    && forall k :: k in s.queues && Timeline(k) == Timeline(p.stream) ==> k == p.stream
  }

  lemma OkAppend(c: Config, s: State, p: Packet, now: i64, bound: nat, dts: Horizon)
    requires Admits(c, s, p, now, bound) && dts.tb.Valid()
    ensures Ok(c, Append(c, s, p, now, bound, dts), bound + 1)
  {
    AppendQueues(c, s, p, now, bound, dts);
    AppendApart(c, s, p, now, bound, dts);
    AppendRest(c, s, p, now, bound, dts);
  }

  lemma AppendQueues(c: Config, s: State, p: Packet, now: i64, bound: nat, dts: Horizon)
    requires Admits(c, s, p, now, bound)
    ensures var r := Append(c, s, p, now, bound, dts);
            LanesOk(c, r.queues, bound + 1, r.lastObserved)
  {
    AppendLanes(c, s.queues, NewItem(c, p, now, bound), bound, s.lastObserved);
  }

  lemma AppendApart(c: Config, s: State, p: Packet, now: i64, bound: nat, dts: Horizon)
    requires Admits(c, s, p, now, bound)
    ensures var r := Append(c, s, p, now, bound, dts);
            DistinctLanes(r.queues) && OneGeneration(r.queues) && CapsOk(c, r)
  {
    var item := NewItem(c, p, now, bound);
    AppendDistinct(c, s.queues, item, bound, s.lastObserved);
    AppendCaps(c, s, Append(c, s, p, now, bound, dts), item);
  }

  lemma AppendRest(c: Config, s: State, p: Packet, now: i64, bound: nat, dts: Horizon)
    requires ModesOk(s) && TargetsOk(c, s) && HorizonsOk(s) && RosterOk(c, s)
    requires Buffering(s) && !s.returnCommitted && dts.tb.Valid()
    ensures var r := Append(c, s, p, now, bound, dts);
            ModesOk(r) && TargetsOk(c, r) && HorizonsOk(r) && RosterOk(c, r)
  {
  }

  lemma AppendCaps(c: Config, s: State, r: State, item: Queued)
    requires CapsOk(c, s) && !OverCapacity(c, s, item.packet)
    requires item.retained == item.packet.retained + c.metadataBytes
    requires r.queues == Appended(s.queues, item) && r.pending == s.pending
    ensures CapsOk(c, r)
  {
    AppendWeight(s.queues, item, One);
    AppendWeight(s.queues, item, Payload);
    AppendWeight(s.queues, item, Retained);
  }

  function Appended(m: Queues, item: Queued): Queues {
    var k := item.packet.stream;
    m[k := (if k in m then m[k] else []) + [item]]
  }

  lemma AppendLanes(c: Config, m: Queues, item: Queued, bound: nat, clock: Option<i64>)
    requires LanesOk(c, m, bound, clock)
    requires ItemOk(c, item, bound + 1, clock) && item.sequence == bound
    requires clock.Some? && item.receivedAt == clock.value
    ensures LanesOk(c, Appended(m, item), bound + 1, clock)
  {
    var r := Appended(m, item);
    forall j | j in r ensures LaneOk(c, j, r[j], bound + 1, clock) {
      if j in m {
        assert LaneOk(c, j, m[j], bound, clock);
      }
    }
  }

  lemma AppendDistinct(c: Config, m: Queues, item: Queued, bound: nat, clock: Option<i64>)
    requires LanesOk(c, m, bound, clock) && DistinctLanes(m) && OneGeneration(m) && item.sequence == bound
    requires forall j :: j in m && Timeline(j) == Timeline(item.packet.stream) ==> j == item.packet.stream
    ensures DistinctLanes(Appended(m, item)) && OneGeneration(Appended(m, item))
  {
    var r := Appended(m, item);
    forall j: StreamKey, x: Queued | j in m && x in m[j] ensures x.sequence < bound {
      assert LaneOk(c, j, m[j], bound, clock);
    }
    hide LanesOk, Apart;
  }

  lemma AppendWeight(m: Queues, item: Queued, w: Queued -> nat)
    ensures Weight(Appended(m, item), w) == Weight(m, w) + w(item)
  {
    var k := item.packet.stream;
    var before := if k in m then m[k] else [];
    WeightUpdate(m, k, before + [item], w);
    SeqWeightSplit(before + [item], |before|, w);
    assert (before + [item])[..|before|] == before && (before + [item])[|before|..] == [item];
    assert SeqWeight([item], w) == w(item) + SeqWeight([item][1..], w);
  }

  lemma OkWithOffset(c: Config, s: State, p: Packet, bound: nat)
    requires Ok(c, s, bound) && WithOffset(s, p).Some?
    ensures var r := WithOffset(s, p).value;
            Ok(c, r, bound) && r.queues == s.queues && r.mode == s.mode && r.lastObserved == s.lastObserved
              && r.returnCommitted == s.returnCommitted
  {
  }

  lemma OkEnqueue(c: Config, s: State, p: Packet, now: i64, bound: nat)
    requires c.Valid() && Ok(c, s, bound) && Buffering(s) && !s.returnCommitted && s.lastObserved == Some(now)
    ensures var r := Enqueue(c, s, p, now, bound);
            Ok(c, r.state, if r.ok then bound + 1 else bound) && (r.ok ==> r.state.mode == s.mode)
  {
    OkPrepare(c, s, p.stream, bound);
    var prepared := PrepareStream(c, s, p.stream);
    if !prepared.ok {
    } else if !p.tb.Valid() {
      OkError(c, prepared.state, bound, InvalidTimeBase);
    } else {
      OkPlace(c, prepared.state, p, now, bound);
    }
  }

  lemma OkPlace(c: Config, s: State, p: Packet, now: i64, bound: nat)
    requires c.Valid() && Ok(c, s, bound) && Buffering(s) && !s.returnCommitted && s.lastObserved == Some(now)
    requires p.tb.Valid()
    requires forall k :: k in s.queues && Timeline(k) == Timeline(p.stream) ==> k == p.stream
    ensures var r := Place(c, s, p, now, bound);
            Ok(c, r.state, if r.ok then bound + 1 else bound) && (r.ok ==> r.state.mode == s.mode)
  {
    var based := WithOffset(s, p);
    if based.None? {
      OkError(c, s, bound, NewStreamOffset);
    } else {
      OkWithOffset(c, s, p, bound);
      var dts := Ordering(based.value, p);
      if dts.None? {
        OkError(c, based.value, bound, OrderingOverflow);
      } else {
        OkPrune(c, based.value, now, bound);
        var room := if s.mode == Returning then based.value else Prune(c, based.value, now);
        if OverCapacity(c, room, p) {
          OkError(c, room, bound, Capacity);
        } else {
          OkAppend(c, room, p, now, bound, dts.value);
        }
      }
    }
  }

  lemma OkBound(c: Config, s: State, bound: nat, larger: nat)
    requires Ok(c, s, bound) && bound <= larger
    ensures Ok(c, s, larger)
  {
    forall k | k in s.queues ensures LaneOk(c, k, s.queues[k], larger, s.lastObserved) {
      assert LaneOk(c, k, s.queues[k], bound, s.lastObserved);
    }
  }
}
