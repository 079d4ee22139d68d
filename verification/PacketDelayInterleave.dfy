/** Evenly interleaved input is never late while the engine delays. */
module PacketDelayInterleave {
  // Input in nondecreasing DTS in one time base on known lanes cannot raise the late-packet error.

  import opened Options
  import opened Timestamps
  import opened PacketTypes
  import opened PacketDelaySpec
  import opened PacketDelayStep
  import opened PacketDelayInvariant
  import opened PacketDelayKeep
  import opened PacketDelayRun
  import opened PacketDelayDecode
  import opened PacketDelayEpoch
  import opened PacketDelayResults
  import opened PacketDelayReturn
  import opened PacketDelayPrune
  import opened PacketDelayOrder

  /** The common denominator, the common offset, and the newest DTS pushed so far. */
  datatype Pace = Pace(den: int, offset: int, last: int)

  predicate Ahead(e: Option<Horizon>, tick: int, den: int) {
    e.Some? ==> e.value.tb.den > 0 && Le(e.value.value, e.value.tb.den, tick, den)
  }

  predicate ItemPaced(s: State, w: Pace, x: Queued) {
    && x.packet.tb.den == w.den && x.packet.dts <= w.last
    && Ahead(s.emitted, x.packet.dts + w.offset, w.den)
  }

  predicate LanePaced(s: State, w: Pace, q: Queue) {
    forall i :: 0 <= i < |q| ==> ItemPaced(s, w, q[i])
  }

  /** What came earlier has no later DTS and arrived no later. */
  predicate InStep(q: Queue, r: Queue) {
    forall i, j :: 0 <= i < |q| && 0 <= j < |r| && q[i].sequence <= r[j].sequence ==>
      q[i].packet.dts <= r[j].packet.dts && q[i].receivedAt <= r[j].receivedAt
  }

  ghost predicate AllInStep(m: Queues) {
    forall k, j :: k in m && j in m ==> InStep(m[k], m[j])
  }

  ghost predicate AllPaced(s: State, w: Pace) {
    forall k :: k in s.queues ==> k in s.offsets && s.offsets[k] == w.offset && LanePaced(s, w, s.queues[k])
  }

  /** Every lane of the epoch has the common offset. */
  ghost predicate OneOffset(s: State, w: Pace) {
    forall k :: k in s.offsets ==> s.offsets[k] == w.offset
  }

  ghost predicate Interleaved(s: State, w: Pace) {
    w.den > 0 && OneOffset(s, w) && AllPaced(s, w) && AllInStep(s.queues) && Ahead(s.emitted, w.last + w.offset, w.den)
  }

  predicate NotLate(s: State) {
    s.mode == Failed ==> s.fault != Some(LatePacket)
  }

  ghost predicate StaysPaced(s: State, w: Pace) {
    NotLate(s) && (s.mode == Delayed ==> Interleaved(s, w))
  }

  lemma AheadMore(e: Option<Horizon>, a: int, b: int, den: int)
    requires Ahead(e, a, den) && a <= b && den > 0
    ensures Ahead(e, b, den)
  {
    if e.Some? {
      SameDen(a, b, den);
      LeTransitive(e.value.value, e.value.tb.den, a, den, b, den);
    }
  }

  // ---------------------------------------------------------------------
  // Dropping prefixes

  lemma StepSuffixes(m: Queues, of: Queues)
    requires AllInStep(of) && Suffixes(m, of)
    ensures AllInStep(m)
  {
    hide InStep, SuffixOf;
    forall k, j | k in m && j in m ensures InStep(m[k], m[j]) {
      assert SuffixOf(m[k], of[k]) && SuffixOf(m[j], of[j]) && InStep(of[k], of[j]);
      SuffixInStep(of[k], of[j], m[k], m[j]);
    }
  }

  lemma PacedSuffixes(s: State, m: Queues, w: Pace)
    requires Interleaved(s, w) && Suffixes(m, s.queues)
    ensures Interleaved(s.(queues := m), w)
  {
    hide ItemPaced, InStep, LanePaced, SuffixOf;
    StepSuffixes(m, s.queues);
    var r := s.(queues := m);
    forall k | k in m ensures LanePaced(r, w, m[k]) {
      assert SuffixOf(m[k], s.queues[k]) && LanePaced(s, w, s.queues[k]);
      SuffixPaced(s, r, w, s.queues[k], m[k]);
    }
  }

  lemma SuffixPaced(s: State, r: State, w: Pace, q: Queue, t: Queue)
    requires LanePaced(s, w, q) && SuffixOf(t, q) && r.emitted == s.emitted
    ensures LanePaced(r, w, t)
  {
    forall i | 0 <= i < |t| ensures ItemPaced(r, w, t[i]) {
      assert t[i] == q[|q| - |t| + i];
    }
  }

  lemma SuffixInStep(q: Queue, r: Queue, t: Queue, u: Queue)
    requires InStep(q, r) && SuffixOf(t, q) && SuffixOf(u, r)
    ensures InStep(t, u)
  {
  }

  lemma PrunePaced(c: Config, s: State, now: i64, w: Pace, n: nat)
    requires Ok(c, s, n) && Interleaved(s, w)
    ensures Interleaved(Prune(c, s, now), w)
  {
    hide Interleaved, Prune;
    PruneSuffixes(c, s, now, n);
    PacedSuffixes(s, Prune(c, s, now).queues, w);
    PruneIs(c, s, now);
  }

  lemma PruneIs(c: Config, s: State, now: i64)
    ensures Prune(c, s, now) == s.(queues := Prune(c, s, now).queues)
  {
    hide PruneQueue;
  }

  // ---------------------------------------------------------------------
  // One emission

  /** The next packet is older than everything that stays buffered. */
  lemma NextIsOldest(c: Config, s: State, now: i64, k: StreamKey, j: StreamKey, i: nat, w: Pace, n: nat)
    requires Ok(c, s, n) && Interleaved(s, w) && Next(s, now, k) && j in s.queues && i < |s.queues[j]|
    ensures s.queues[k][0].packet.dts <= s.queues[j][i].packet.dts
  {
    hide Interleaved, Ok, LanePaced;
    var front, lane := s.queues[k][0], s.queues[j];
    PacedPair(s, w, k, j);
    LaneFacts(c, s, j, n);
    LaneFacts(c, s, k, n);
    assert lane[0].sequence <= lane[i].sequence;
    if DueFront(s, now, j) {
      DueDts(s, w, front, lane[0], k, j);
    } else {
      assert front.receivedAt < lane[0].receivedAt;
      if lane[0].sequence <= front.sequence {
        PacedPair(s, w, j, k);
      }
    }
  }

  lemma LaneFacts(c: Config, s: State, k: StreamKey, n: nat)
    requires Ok(c, s, n) && k in s.queues
    ensures LaneOk(c, k, s.queues[k], n, s.lastObserved) && Arrived(s.queues[k]) && s.queues[k] != []
  {
  }

  lemma PacedPair(s: State, w: Pace, k: StreamKey, j: StreamKey)
    requires Interleaved(s, w) && k in s.queues && j in s.queues
    ensures InStep(s.queues[k], s.queues[j]) && InStep(s.queues[j], s.queues[j])
    ensures LanePaced(s, w, s.queues[k]) && k in s.offsets && s.offsets[k] == w.offset
  {
  }

  lemma DueDts(s: State, w: Pace, x: Queued, y: Queued, k: StreamKey, j: StreamKey)
    requires Interleaved(s, w) && k in s.queues && j in s.queues && s.queues[k] != [] && s.queues[j] != []
    requires x == s.queues[k][0] && y == s.queues[j][0] && Precedes(s, x, y)
    requires x.packet.stream == k && y.packet.stream == j
    ensures x.packet.dts <= y.packet.dts
  {
    hide Ahead;
    PacedPair(s, w, k, j);
    PacedPair(s, w, j, k);
    assert ItemPaced(s, w, x) && ItemPaced(s, w, y);
    var a, b := Ordering(s, x.packet).value, Ordering(s, y.packet).value;
    SameDen(a.value, b.value, w.den);
  }

  lemma EmitPaced(c: Config, s: State, now: i64, k: StreamKey, w: Pace, n: nat)
    requires Ok(c, s, n) && Interleaved(s, w) && Next(s, now, k) && s.mode == Delayed
    ensures StaysPaced(Emit(PopFront(s, k), s.queues[k][0], now, true, RetimestampOverflow, LatePacket).state, w)
  {
    hide Interleaved, Ok, Note, PopFront, Precedes;
    var x := s.queues[k][0];
    PacedPair(s, w, k, k);
    assert ItemPaced(s, w, x);
    LaneFacts(c, s, k, n);
    PopSame(s, k);
    var t := PopFront(s, k);
    var shifted := Retimestamp(x.packet, s.offsets[k]);
    if shifted.Some? {
      NoteAhead(t, shifted.value);
      EmittedPaced(c, s, now, k, w, n, Note(t, shifted.value).value);
    }
  }

  lemma PopSame(s: State, k: StreamKey)
    requires k in s.queues && s.queues[k] != []
    ensures var t := PopFront(s, k);
            t.emitted == s.emitted && t.offsets == s.offsets && t.mode == s.mode && t == s.(queues := t.queues)
  {
  }

  lemma NoteAhead(s: State, p: Packet)
    requires p.tb.Valid() && Ahead(s.emitted, p.dts, p.tb.den)
    ensures Note(s, p).Some? && Note(s, p).value.emitted == Some(Horizon(p.dts, p.tb))
    ensures var r := Note(s, p).value; r.queues == s.queues && r.offsets == s.offsets && r.mode == s.mode
  {
    if s.emitted.Some? {
      CmpFlip(p.dts, p.tb.den, s.emitted.value.value, s.emitted.value.tb.den);
    }
  }

  /** State after the front of lane k left: its DTS is the new horizon. */
  ghost predicate Left(s: State, now: i64, k: StreamKey, w: Pace, r: State) {
    && Interleaved(s, w) && Next(s, now, k)
    && r.queues == PopFront(s, k).queues && r.offsets == s.offsets
    && r.emitted.Some? && r.emitted.value.tb.den == w.den
    && r.emitted.value.value == s.queues[k][0].packet.dts + w.offset
  }

  lemma LeftLane(c: Config, s: State, now: i64, k: StreamKey, w: Pace, n: nat, r: State, j: StreamKey)
    requires Ok(c, s, n) && Left(s, now, k, w, r) && j in r.queues && j in s.queues
    requires SuffixOf(r.queues[j], s.queues[j])
    ensures LanePaced(r, w, r.queues[j])
  {
    hide Ok, Ahead, InStep, Precedes;
    var top := s.queues[k][0].packet.dts + w.offset;
    forall i | 0 <= i < |r.queues[j]| ensures ItemPaced(r, w, r.queues[j][i]) {
      var at := |s.queues[j]| - |r.queues[j]| + i;
      assert LanePaced(s, w, s.queues[j]);
      assert r.queues[j][i] == s.queues[j][at] && ItemPaced(s, w, s.queues[j][at]);
      NextIsOldest(c, s, now, k, j, at, w, n);
      AheadSelf(r.emitted, top, r.queues[j][i].packet.dts + w.offset, w.den);
    }
  }

  lemma LeftSuffixes(c: Config, s: State, now: i64, k: StreamKey, w: Pace, n: nat, r: State)
    requires Ok(c, s, n) && Left(s, now, k, w, r)
    ensures Suffixes(r.queues, s.queues)
  {
    hide Ok, Precedes, Interleaved;
    forall j | j in s.queues ensures s.queues[j] != [] {
      LaneFacts(c, s, j, n);
    }
    PopSuffixes(s, k);
  }

  lemma EmittedPaced(c: Config, s: State, now: i64, k: StreamKey, w: Pace, n: nat, r: State)
    requires Ok(c, s, n) && Left(s, now, k, w, r) && s.mode == r.mode && s.mode != Failed
    ensures StaysPaced(r, w)
  {
    hide Precedes, Ok, Ahead, LanePaced, InStep, SuffixOf;
    LeftSuffixes(c, s, now, k, w, n, r);
    StepSuffixes(r.queues, s.queues);
    forall j | j in r.queues ensures LanePaced(r, w, r.queues[j]) {
      LeftLane(c, s, now, k, w, n, r, j);
    }
    FrontPaced(s, k, w);
    AheadSelf(r.emitted, s.queues[k][0].packet.dts + w.offset, w.last + w.offset, w.den);
  }

  lemma FrontPaced(s: State, k: StreamKey, w: Pace)
    requires Interleaved(s, w) && k in s.queues && s.queues[k] != []
    ensures s.queues[k][0].packet.dts <= w.last
  {
    assert LanePaced(s, w, s.queues[k]);
    assert ItemPaced(s, w, s.queues[k][0]);
  }

  lemma AheadSelf(e: Option<Horizon>, at: int, tick: int, den: int)
    requires e.Some? && e.value.value == at && e.value.tb.den == den && den > 0 && at <= tick
    ensures Ahead(e, tick, den)
  {
    SameDen(at, tick, den);
  }

  lemma DrainOncePaced(c: Config, s: State, now: i64, w: Pace, n: nat)
    requires Ok(c, s, n) && s.mode == Delayed && Interleaved(s, w)
    ensures StaysPaced(DrainOnce(c, s, now).state, w)
  {
    hide Interleaved, Ok, Watermark, Ordering, Emit, Precedes;
    if !(exists k :: k in s.active && Watching(c, s, now, k) && k !in s.latest) &&
       Ordered(s, now) && exists k :: k in s.queues && DueFront(s, now, k) {
      var k := NextLane(s, now);
      assert GateErases(s, k) == s && !GateStops(c, s, now, k);
      EmitPaced(c, s, now, k, w, n);
    }
  }

  lemma {:induction false} DrainPaced(c: Config, s: State, now: i64, fuel: nat, w: Pace, n: nat)
    requires c.Valid() && Ok(c, s, n) && s.mode == Delayed && Interleaved(s, w)
    ensures StaysPaced(DrainUpTo(c, s, now, fuel).state, w)
    decreases fuel
  {
    hide Interleaved, Ok, DrainOnce;
    if fuel != 0 {
      DrainOncePaced(c, s, now, w, n);
      OkDrainOnce(c, s, now, n);
      DrainOnceMode(c, s, now);
      var one := DrainOnce(c, s, now);
      if one.out != [] {
        DrainPaced(c, one.state, now, fuel - 1, w, n);
      }
    }
  }

  lemma DrainAndPrunePaced(c: Config, s: State, now: i64, w: Pace, n: nat)
    requires c.Valid() && Ok(c, s, n) && s.mode == Delayed && Interleaved(s, w)
    ensures StaysPaced(DrainAndPrune(c, s, now).state, w)
  {
    hide Interleaved, Ok, Drain, Prune;
    DrainPaced(c, s, now, Packets(s) + 1, w, n);
    var drained := Drain(c, s, now);
    assert StaysPaced(drained.state, w) by { DrainIs(c, s, now); }
    OkDrain(c, s, now, n);
    if drained.state.mode == Delayed {
      PrunePaced(c, drained.state, now, w, n);
      PruneReturn(c, drained.state, now);
    }
  }

  lemma DrainIs(c: Config, s: State, now: i64)
    ensures Drain(c, s, now) == DrainUpTo(c, s, now, Packets(s) + 1)
  {
  }

  // ---------------------------------------------------------------------
  // One push

  /** The pushed packet belongs to a known lane and keeps the pace. */
  predicate KeepsPace(s: State, w: Pace, p: Packet) {
    p.tb.den == w.den && w.last <= p.dts && p.stream in s.offsets
  }

  lemma AppendPaced(c: Config, s: State, r: State, x: Queued, w: Pace, n: nat)
    requires Ok(c, s, n) && Interleaved(s, w) && KeepsPace(s, w, x.packet) && x.sequence == n
    requires s.lastObserved == Some(x.receivedAt)
    requires r.queues == Appended(s.queues, x) && r.emitted == s.emitted
    requires forall k :: k in s.queues || k == x.packet.stream ==> k in r.offsets && r.offsets[k] == s.offsets[k]
    requires forall k :: k in r.offsets ==> k in s.offsets && r.offsets[k] == s.offsets[k]
    ensures Interleaved(r, w.(last := x.packet.dts))
  {
    hide Ok, Ahead, ItemPaced, LanePaced, InStep;
    var v := w.(last := x.packet.dts);
    AheadMore(s.emitted, w.last + w.offset, v.last + w.offset, w.den);
    forall k | k in r.queues ensures LanePaced(r, v, r.queues[k]) && r.offsets[k] == w.offset && k in r.offsets {
      AppendedLane(s, r, x, w, k);
    }
    AppendedSteps(c, s, x, w, n);
  }

  lemma AppendedLane(s: State, r: State, x: Queued, w: Pace, k: StreamKey)
    requires Interleaved(s, w) && KeepsPace(s, w, x.packet) && k in r.queues
    requires r.queues == Appended(s.queues, x) && r.emitted == s.emitted
    requires Ahead(s.emitted, x.packet.dts + w.offset, w.den)
    ensures LanePaced(r, w.(last := x.packet.dts), r.queues[k])
  {
    hide Ahead, InStep;
    if k in s.queues {
      assert LanePaced(s, w, s.queues[k]);
      forall i | 0 <= i < |s.queues[k]| ensures ItemPaced(r, w.(last := x.packet.dts), s.queues[k][i]) {
        assert ItemPaced(s, w, s.queues[k][i]);
      }
    }
  }

  /** Everything in the lane came no later than x and has no later DTS. */
  predicate NoLater(q: Queue, x: Queued) {
    forall i :: 0 <= i < |q| ==>
      q[i].sequence < x.sequence && q[i].packet.dts <= x.packet.dts && q[i].receivedAt <= x.receivedAt
  }

  lemma StepAppend(q: Queue, t: Queue, x: Queued)
    requires InStep(q, t) && NoLater(q, x) && NoLater(t, x)
    ensures InStep(q + [x], t) && InStep(q, t + [x]) && InStep(q + [x], t + [x])
  {
  }

  lemma LaneNoLater(c: Config, s: State, x: Queued, w: Pace, n: nat, k: StreamKey)
    requires Ok(c, s, n) && Interleaved(s, w) && w.last <= x.packet.dts && x.sequence == n
    requires s.lastObserved == Some(x.receivedAt)
    ensures NoLater(Lane(s, k), x)
  {
    hide Ok, Ahead, InStep;
    if k in s.queues {
      LaneFacts(c, s, k, n);
      assert LanePaced(s, w, s.queues[k]);
      forall i | 0 <= i < |s.queues[k]| ensures s.queues[k][i].packet.dts <= x.packet.dts {
        assert ItemPaced(s, w, s.queues[k][i]);
      }
    }
  }

  lemma AppendedSteps(c: Config, s: State, x: Queued, w: Pace, n: nat)
    requires Ok(c, s, n) && Interleaved(s, w) && w.last <= x.packet.dts && x.sequence == n
    requires s.lastObserved == Some(x.receivedAt)
    ensures AllInStep(Appended(s.queues, x))
  {
    hide Ok, Ahead, InStep, LanePaced, NoLater;
    var m := Appended(s.queues, x);
    forall k, j | k in m && j in m ensures InStep(m[k], m[j]) {
      LaneNoLater(c, s, x, w, n, k);
      LaneNoLater(c, s, x, w, n, j);
      LanesInStep(s, w, k, j);
      StepAppend(Lane(s, k), Lane(s, j), x);
    }
  }

  lemma LanesInStep(s: State, w: Pace, k: StreamKey, j: StreamKey)
    requires Interleaved(s, w)
    ensures InStep(Lane(s, k), Lane(s, j))
  {
  }

  /** Preparing a known lane keeps the offsets of every buffered lane. */
  lemma PrepareOffsets(c: Config, s: State, stream: StreamKey, n: nat)
    requires c.Valid() && Ok(c, s, n) && PrepareStream(c, s, stream).ok && stream in s.offsets
    ensures var r := PrepareStream(c, s, stream).state;
            && r.queues == s.queues && r.emitted == s.emitted && r.lastObserved == s.lastObserved
            && r.mode == s.mode && EpochActive(r) == EpochActive(s)
            && (forall k :: (k in s.queues && k in s.offsets) || k == stream ==> k in r.offsets && r.offsets[k] == s.offsets[k])
            && forall k :: k in r.offsets ==> k in s.offsets && r.offsets[k] == s.offsets[k]
  {
    hide Ok, HasOldGeneration;
    OkPrepare(c, s, stream, n);
    assert !(Timeline(stream) !in s.known && |s.known| >= c.maxStreams);
    assert !HasOldGeneration(s.(known := s.known + {Timeline(stream)}), stream);
  }

  lemma AcceptedPaced(c: Config, s: State, p: Packet, now: i64, w: Pace, n: nat)
    requires c.Valid() && Ok(c, s, n) && s.mode == Delayed && s.lastObserved == Some(now)
    requires Interleaved(s, w) && KeepsPace(s, w, p) && Enqueue(c, s, p, now, n).ok
    ensures Interleaved(Enqueue(c, s, p, now, n).state, w.(last := p.dts))
  {
    hide Interleaved, Ok, PrepareStream, OverCapacity, Prune, Ordering;
    var prepared := PrepareStream(c, s, p.stream).state;
    PrepareOffsets(c, s, p.stream, n);
    assert WithOffset(prepared, p) == Some(prepared);
    var room := Prune(c, s, now);
    PrunePaced(c, s, now, w, n);
    OkPrune(c, s, now, n);
    PruneIs(c, s, now);
    PruneIs(c, prepared, now);
    EnqueueQueues(c, s, p, now, n);
    EnqueueEmitted(c, s, p, now, n);
    PruneLanes(c, s, now, n);
    PacedOffsets(s, w);
    AppendPaced(c, room, Enqueue(c, s, p, now, n).state, NewItem(c, p, now, n), w, n);
  }

  lemma PacedOffsets(s: State, w: Pace)
    requires Interleaved(s, w)
    ensures forall k :: k in s.queues ==> k in s.offsets
  {
  }

  lemma PruneLanes(c: Config, s: State, now: i64, n: nat)
    ensures Prune(c, s, now).queues.Keys == s.queues.Keys
  {
    hide PruneQueue;
  }

  lemma RejectedNotLate(c: Config, s: State, p: Packet, now: i64, n: nat)
    requires !Enqueue(c, s, p, now, n).ok
    ensures Enqueue(c, s, p, now, n).state.mode == Failed && NotLate(Enqueue(c, s, p, now, n).state)
  {
    hide OverCapacity, Prune, Ordering, EpochOffset, HasOldGeneration, DropReplaced;
    var prepared := PrepareStream(c, s, p.stream);
    if Timeline(p.stream) !in s.known && |s.known| >= c.maxStreams {
    } else if HasOldGeneration(s.(known := s.known + {Timeline(p.stream)}), p.stream) {
    } else if !p.tb.Valid() {
    } else {
      var based := WithOffset(prepared.state, p);
      if based.None? {
      } else if Ordering(based.value, p).None? {
      }
    }
  }

  lemma ErrorFault(s: State, fault: Fault)
    ensures EnterError(s, fault).fault == Some(fault) && EnterError(s, fault).mode == Failed
  {
  }

  lemma PrepareNotLate(c: Config, s: State, stream: StreamKey)
    requires s.mode == Failed && NotLate(s)
    ensures var r := PrepareStream(c, s, stream).state; r.mode == Failed && NotLate(r)
  {
    hide HasOldGeneration, EnterError;
    ErrorFault(s, TooManyTimelines);
    ErrorFault(s.(known := s.known + {Timeline(stream)}), GenerationChanged);
  }

  lemma NoteFault(s: State, p: Packet)
    requires Note(s, p).Some?
    ensures Note(s, p).value.fault == s.fault && Note(s, p).value.mode == s.mode
  {
  }

  lemma LiveNotLate(c: Config, s: State, p: Packet, now: i64, n: nat)
    requires s.mode == Failed && NotLate(s)
    ensures NotLate(RetimestampLive(c, s, p).state) && RetimestampLive(c, s, p).state.mode == Failed
    ensures NotLate(Bypassed(c, s, p, now, n, FailOpenTimestamps).state)
    ensures Bypassed(c, s, p, now, n, FailOpenTimestamps).state.mode == Failed
  {
    hide EpochOffset, PrepareStream, Note, EnterError, Retimestamp;
    PrepareNotLate(c, s, p.stream);
    var prepared := PrepareStream(c, s, p.stream);
    if prepared.ok {
      var s1 := prepared.state;
      var offset := if p.stream in s1.offsets then Some(s1.offsets[p.stream]) else EpochOffset(s1, p, 0);
      if offset.Some? {
        var s2 := s1.(offsets := s1.offsets[p.stream := offset.value]);
        var shifted := Retimestamp(p, offset.value);
        if shifted.Some? && Note(s2, shifted.value).Some? {
          NoteFault(s2, shifted.value);
        }
      }
    }
    ErrorFault(RetimestampLive(c, s, p).state, FailOpenTimestamps);
  }

  lemma ClockPaced(s: State, now: i64, w: Pace)
    requires Interleaved(s, w) && s.mode == Delayed
    ensures StaysPaced(Observe(s, now), w) && Observe(s, now).offsets == s.offsets
  {
    hide ItemPaced;
    if !Regresses(s, now) {
      var r := Observe(s, now);
      forall k | k in r.queues ensures LanePaced(r, w, r.queues[k]) {
        assert LanePaced(s, w, s.queues[k]);
        SamePaced(s, r, w, s.queues[k]);
      }
    }
  }

  lemma SamePaced(s: State, r: State, w: Pace, q: Queue)
    requires LanePaced(s, w, q) && r.emitted == s.emitted
    ensures LanePaced(r, w, q)
  {
    forall i | 0 <= i < |q| ensures ItemPaced(r, w, q[i]) {
      assert ItemPaced(s, w, q[i]);
    }
  }

  // ---------------------------------------------------------------------
  // Runs while Delayed

  /** Any call but a report of outside output; a pushed packet keeps the pace. */
  predicate PacedOp(s: State, w: Pace, op: Op) {
    (op.Push? ==> KeepsPace(s, w, op.packet)) && !op.External?
  }

  function PaceAfter(w: Pace, op: Op): Pace {
    if op.Push? then w.(last := op.packet.dts) else w
  }

  lemma PushPaced(c: Config, s: State, p: Packet, now: i64, w: Pace, n: nat)
    requires c.Valid() && Ok(c, s, n) && s.mode == Delayed && Interleaved(s, w) && KeepsPace(s, w, p)
    ensures StaysPaced(DoPush(c, s, p, now, n).state, w.(last := p.dts))
  {
    hide Interleaved, Ok, Observe, Regresses, Enqueue, Bypassed, RetimestampLive, DrainAndPrune;
    ClockPaced(s, now, w);
    CalmSelf(s, now);
    OkClock(c, s, now, n);
    var s1 := Observe(s, now);
    if Regresses(s, now) {
      LiveNotLate(c, s1, p, now, n);
    } else {
      var queued := Enqueue(c, s1, p, now, n);
      if !queued.ok {
        RejectedNotLate(c, s1, p, now, n);
        LiveNotLate(c, queued.state, p, now, n);
      } else {
        AcceptedPaced(c, s1, p, now, w, n);
        DelayedBuffers(c, s1, n);
        OkEnqueue(c, s1, p, now, n);
        DrainAndPrunePaced(c, queued.state, now, w.(last := p.dts), n + 1);
      }
    }
  }

  lemma CalmSelf(s: State, now: i64)
    ensures var r := Observe(s, now);
            if Regresses(s, now) then r.mode == Failed else r.mode == s.mode && r.lastObserved == Some(now)
  {
    if Regresses(s, now) {
    }
  }

  lemma DelayedBuffers(c: Config, s: State, n: nat)
    requires Ok(c, s, n) && s.mode == Delayed
    ensures Buffering(s) && !s.returnCommitted
  {
  }

  /** A request leaves the delay or only tells the time. */
  lemma RequestPaced(c: Config, s: State, op: Op, w: Pace, n: nat)
    requires s.mode == Delayed && Interleaved(s, w) && Request(op)
    ensures StaysPaced(Step(c, s, op, n).state, w)
  {
    hide Interleaved, Observe, Regresses, Result, EnterError;
    if Result(c, s, op) == Accepted {
      AcceptedMoves(c, s, op, n);
      LeavesDelay(op, Step(c, s, op, n).state.mode);
    } else {
      ClockPaced(s, op.now, w);
      RefusedDelayed(c, s, op, n);
    }
  }

  lemma LeavesDelay(op: Op, to: Mode)
    requires Request(op) && Edge(op, Delayed, to)
    ensures to != Delayed && to != Failed
  {
  }

  lemma RefusedDelayed(c: Config, s: State, op: Op, n: nat)
    requires s.mode == Delayed && Request(op) && Result(c, s, op) != Accepted
    ensures Step(c, s, op, n).state == Observe(s, op.now)
  {
    hide PlanReady, ApplyPlan, BeginEpoch, BuildPending, ReturnReady, StartReturn, ClearAll, EnterError;
  }

  /** One call while Delayed: no late-packet error, and the pace is kept. */
  lemma StepPaced(c: Config, s: State, op: Op, w: Pace, n: nat)
    requires c.Valid() && Ok(c, s, n) && s.mode == Delayed && Interleaved(s, w) && PacedOp(s, w, op)
    ensures StaysPaced(Step(c, s, op, n).state, PaceAfter(w, op))
  {
    hide Interleaved, Ok, Observe, Regresses, DoPush, Prune, DrainAndPrune, Result, EnterError;
    if op.Push? {
      PushPaced(c, s, op.packet, op.now, w, n);
    } else if Request(op) {
      RequestPaced(c, s, op, w, n);
    } else if op.ReportError? {
      ErrorFault(s, Reported);
    } else {
      ClockPaced(s, op.now, w);
      CalmSelf(s, op.now);
      OkClock(c, s, op.now, n);
      if !Regresses(s, op.now) {
        var s1 := Observe(s, op.now);
        PrunePaced(c, s1, op.now, w, n);
        PruneReturn(c, s1, op.now);
        DrainAndPrunePaced(c, s1, op.now, w, n);
      }
    }
  }

  /** Calls made one after another while the state stays Delayed. */
  ghost predicate PacedRun(c: Config, s: State, w: Pace, n: nat, ops: seq<Op>)
    decreases |ops|
  {
    ops != [] ==>
      && s.mode == Delayed && PacedOp(s, w, ops[0])
      && PacedRun(c, Step(c, s, ops[0], n).state, PaceAfter(w, ops[0]), NextSequence(ops[0], n), ops[1..])
  }

  ghost function After(c: Config, s: State, n: nat, ops: seq<Op>): State
    decreases |ops|
  {
    if ops == [] then s else After(c, Step(c, s, ops[0], n).state, NextSequence(ops[0], n), ops[1..])
  }

  /** No run of paced calls ends in the late-packet error. */
  lemma {:induction false} LatePacketUnreachable(c: Config, s: State, w: Pace, n: nat, ops: seq<Op>)
    requires c.Valid() && Ok(c, s, n) && StaysPaced(s, w) && PacedRun(c, s, w, n, ops)
    ensures NotLate(After(c, s, n, ops))
    decreases |ops|
  {
    hide Interleaved, Ok, Step, PacedOp, NotLate;
    if ops == [] {
      PacedNotLate(s, w);
    } else {
      PacedNow(s, w);
      StepPaced(c, s, ops[0], w, n);
      StepKeeps(c, s, ops[0], n);
      LatePacketUnreachable(c, Step(c, s, ops[0], n).state, PaceAfter(w, ops[0]), NextSequence(ops[0], n), ops[1..]);
    }
  }

  lemma PacedNotLate(s: State, w: Pace)
    requires StaysPaced(s, w)
    ensures NotLate(s)
  {
  }

  lemma PacedNow(s: State, w: Pace)
    requires StaysPaced(s, w) && s.mode == Delayed
    ensures Interleaved(s, w)
  {
  }

  // ---------------------------------------------------------------------
  // A commit starts the pace

  predicate OneTimeBase(q: Queue, den: int, last: int) {
    forall i :: 0 <= i < |q| ==> q[i].packet.tb.den == den && q[i].packet.dts <= last
  }

  ghost predicate EvenInput(s: State, den: int, last: int) {
    AllInStep(s.queues) && forall k :: k in s.queues ==> OneTimeBase(s.queues[k], den, last)
  }

  lemma CutPaced(c: Config, s: State, r: State, k: StreamKey, j: StreamKey, den: int, last: int, n: nat)
    requires Ok(c, s, n) && BeginEpoch(s) == Some(r) && k in s.queues && j in s.queues && OneTimeBase(s.queues[k], den, last)
    requires OneTimeBase(s.queues[j], den, last) && InStep(s.queues[k], s.queues[k])
    ensures k in r.offsets && j in r.offsets && r.offsets[k] == r.offsets[j]
    ensures LanePaced(r, Pace(den, r.offsets[k], last), s.queues[k]) && den > 0
    ensures Ahead(r.emitted, last + r.offsets[k], den)
  {
    hide Ok, UnifiedOffsets, Ordering, Acceptable, Ahead;
    LaneFacts(c, s, k, n);
    LaneFacts(c, s, j, n);
    var fronts := QueueFronts(s.queues);
    UnifiedSame(s, fronts, s.target, k, j);
    CutFrontAhead(c, s, k, den, n);
    var front := s.queues[k][0].packet.dts;
    var o: int := r.offsets[k];
    AheadMore(r.emitted, front + o, last + o, den);
    LaneDtsOk(c, s, r, k, den, last, n, o);
  }

  lemma AboveAhead(e: Option<Horizon>, tick: int, den: int)
    requires Above(e, tick, den, false) && (e.Some? ==> e.value.tb.Valid())
    ensures Ahead(e, tick, den)
  {
    if e.Some? {
      CmpFlip(tick, den, e.value.value, e.value.tb.den);
    }
  }

  lemma EpochParts(s: State)
    requires BeginEpoch(s).Some?
    ensures UnifiedOffsets(s, QueueFronts(s.queues), s.target) == Some(BeginEpoch(s).value.offsets)
    ensures BeginEpoch(s).value.emitted == s.emitted
  {
    hide UnifiedOffsets, Ordering;
  }

  lemma CutFrontAhead(c: Config, s: State, k: StreamKey, den: int, n: nat)
    requires Ok(c, s, n) && BeginEpoch(s).Some? && k in s.queues && s.queues[k] != []
    requires s.queues[k][0].packet.tb.den == den
    ensures var r := BeginEpoch(s).value;
            k in r.offsets && r.emitted == s.emitted && Ahead(s.emitted, s.queues[k][0].packet.dts + r.offsets[k], den)
  {
    hide UnifiedOffsets, BeginEpoch, Ok, Above, Ahead, Shiftable, DelayTicks;
    EpochParts(s);
    OkEmitted(c, s, n);
    UnifiedAcceptable(s, QueueFronts(s.queues), s.target, k);
    AboveAhead(s.emitted, s.queues[k][0].packet.dts + BeginEpoch(s).value.offsets[k], den);
  }

  lemma OkEmitted(c: Config, s: State, n: nat)
    requires Ok(c, s, n)
    ensures HorizonsOk(s)
  {
  }

  lemma LaneDtsOk(c: Config, s: State, r: State, k: StreamKey, den: int, last: int, n: nat, o: int)
    requires Ok(c, s, n) && k in s.queues && s.queues[k] != [] && OneTimeBase(s.queues[k], den, last) && den > 0
    requires InStep(s.queues[k], s.queues[k])
    requires Ahead(r.emitted, s.queues[k][0].packet.dts + o, den)
    ensures LanePaced(r, Pace(den, o, last), s.queues[k])
  {
    hide Ok, Ahead;
    LaneFacts(c, s, k, n);
    var q := s.queues[k];
    forall i | 0 <= i < |q| ensures ItemPaced(r, Pace(den, o, last), q[i]) {
      assert q[0].sequence <= q[i].sequence;
      AheadMore(r.emitted, q[0].packet.dts + o, q[i].packet.dts + o, den);
    }
  }

  lemma SuffixTimeBase(q: Queue, t: Queue, den: int, last: int)
    requires OneTimeBase(q, den, last) && SuffixOf(t, q)
    ensures OneTimeBase(t, den, last)
  {
  }

  lemma CutEven(c: Config, s: State, now: i64, den: int, last: int, n: nat)
    requires Ok(c, s, n) && EvenInput(s, den, last)
    ensures Ok(c, ApplyPlan(c, s, now), n) && EvenInput(ApplyPlan(c, s, now), den, last)
  {
    hide Ok, InStep, OneTimeBase, SuffixOf, ApplyPlan;
    var cut := ApplyPlan(c, s, now);
    PlanSuffixes(c, s, now);
    PlanKeeps(c, s, now);
    OkSuffixes(c, s, cut.queues, n);
    StepSuffixes(cut.queues, s.queues);
    forall k | k in cut.queues ensures OneTimeBase(cut.queues[k], den, last) {
      SuffixTimeBase(s.queues[k], cut.queues[k], den, last);
    }
  }

  lemma EpochPaced(c: Config, s: State, den: int, last: int, n: nat, k: StreamKey)
    requires Ok(c, s, n) && BeginEpoch(s).Some? && EvenInput(s, den, last) && k in s.queues
    ensures var r := BeginEpoch(s).value;
            k in r.offsets && Interleaved(r, Pace(den, r.offsets[k], last))
  {
    hide Ok, BeginEpoch, InStep, LanePaced, OneTimeBase, Ahead;
    var r := BeginEpoch(s).value;
    EpochKeepsLanes(s);
    CutPaced(c, s, r, k, k, den, last, n);
    var w := Pace(den, r.offsets[k], last);
    forall j | j in r.queues ensures j in r.offsets && r.offsets[j] == w.offset && LanePaced(r, w, r.queues[j]) {
      CutPaced(c, s, r, j, k, den, last, n);
    }
    EpochLanes(s);
  }

  /** An epoch has offsets for the buffered lanes only. */
  lemma EpochLanes(s: State)
    requires BeginEpoch(s).Some?
    ensures forall k :: k in BeginEpoch(s).value.offsets ==> k in s.queues
  {
    hide Ordering, CommonShift, EpochOffset;
  }

  /** An accepted commit over evenly interleaved lanes starts a paced run. */
  lemma CommitPaced(c: Config, s: State, now: i64, left: map<StreamKey, i64>, den: int, last: int, n: nat)
    requires c.Valid() && Ok(c, s, n) && s.mode == Filling && EvenInput(s, den, last)
    requires DoCommitDelayed(c, s, now, left).mode == Delayed
    ensures exists offset :: Interleaved(DoCommitDelayed(c, s, now, left), Pace(den, offset, last))
  {
    hide Ok, BeginEpoch, EvenInput, LaneStart, Interleaved;
    OkClock(c, s, now, n);
    ClockEven(s, now, den, last);
    var s1 := Observe(s, now);
    CutEven(c, s1, now, den, last, n);
    var cut := ApplyPlan(c, s1, now);
    var k :| k in s1.queues && LaneStart(c, s1.queues[k], now, s1.target).Some?;
    assert k in cut.queues;
    EpochPaced(c, cut, den, last, n, k);
    var e := BeginEpoch(cut).value;
    FlagsPaced(e, DoCommitDelayed(c, s, now, left), Pace(den, e.offsets[k], last));
  }

  lemma ClockEven(s: State, now: i64, den: int, last: int)
    requires EvenInput(s, den, last) && !Regresses(s, now)
    ensures EvenInput(Observe(s, now), den, last)
  {
  }

  lemma FlagsPaced(e: State, r: State, w: Pace)
    requires Interleaved(e, w) && r.queues == e.queues && r.offsets == e.offsets && r.emitted == e.emitted
    ensures Interleaved(r, w)
  {
    hide ItemPaced, Ahead;
    forall k | k in r.queues ensures LanePaced(r, w, r.queues[k]) {
      assert LanePaced(e, w, e.queues[k]);
      SamePaced(e, r, w, e.queues[k]);
    }
  }

  lemma {:induction false} PacedAnyOffset(c: Config, s: State, w: Pace, v: Pace, n: nat, ops: seq<Op>)
    requires PacedRun(c, s, w, n, ops) && w.den == v.den && w.last == v.last
    ensures PacedRun(c, s, v, n, ops)
    decreases |ops|
  {
    hide Step;
    if ops != [] {
      PacedAnyOffset(c, Step(c, s, ops[0], n).state, PaceAfter(w, ops[0]), PaceAfter(v, ops[0]), NextSequence(ops[0], n), ops[1..]);
    }
  }

  /** From an accepted commit over evenly interleaved lanes on, input on known lanes in that time base with
      nondecreasing DTS never ends in the late-packet error, whatever else is called until the delay is left. */
  lemma CommitNeverLate(c: Config, s: State, now: i64, left: map<StreamKey, i64>, den: int, last: int, n: nat, ops: seq<Op>)
    requires c.Valid() && Ok(c, s, n) && s.mode == Filling && EvenInput(s, den, last)
    requires var r := DoCommitDelayed(c, s, now, left); r.mode == Delayed && PacedRun(c, r, Pace(den, 0, last), n, ops)
    ensures NotLate(After(c, DoCommitDelayed(c, s, now, left), n, ops))
  {
    hide Ok, Interleaved, EvenInput, DoCommitDelayed, PacedRun, After;
    var r := DoCommitDelayed(c, s, now, left);
    CommitPaced(c, s, now, left, den, last, n);
    var offset :| Interleaved(r, Pace(den, offset, last));
    PacedAnyOffset(c, r, Pace(den, 0, last), Pace(den, offset, last), n, ops);
    StepKeeps(c, s, PacketDelayStep.CommitDelayed(now, left), n);
    LatePacketUnreachable(c, r, Pace(den, offset, last), n, ops);
  }
}
