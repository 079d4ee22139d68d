/** A packet that is old enough waits for another lane or leaves. */
module PacketDelayWaits {
  // What a poll or a push leaves behind while the delay runs: only packets younger than the target, or an older
  // front that the lanes watched for their order have not passed by the reorder window. Everything is said on the
  // queues and the lanes' own records.

  import opened Options
  import opened Timestamps
  import opened PacketTypes
  import opened PacketDelaySpec
  import opened PacketDelayStep
  import opened PacketDelayInvariant
  import opened PacketDelayKeep
  import opened PacketDelayRun
  import opened PacketDelayDecode
  import opened PacketDelayReturn
  import opened PacketDelayAge
  import opened PacketDelayCounts

  predicate Young(item: Queued, now: i64, target: nat) {
    now as int - item.receivedAt as int < target
  }

  /** Decoding time that the packet will be shown with, in its own ticks. */
  function Shown(s: State, p: Packet): int {
    p.dts as int + if p.stream in s.offsets then s.offsets[p.stream] as int else 0
  }

  /** Earlier shown, arrival order on ties. */
  predicate Before(s: State, a: Queued, b: Queued) {
    var x, y := Shown(s, a.packet) * b.packet.tb.den, Shown(s, b.packet) * a.packet.tb.den;
    x < y || (x == y && a.sequence <= b.sequence)
  }

  predicate Old(s: State, now: i64, k: StreamKey) {
    k in s.queues && s.queues[k] != [] && !Young(s.queues[k][0], now, s.target)
  }

  predicate LeastOld(s: State, now: i64, k: StreamKey) {
    Old(s, now, k) && forall j :: j in s.queues && Old(s, now, j) ==> Before(s, s.queues[k][0], s.queues[j][0])
  }

  /** A lane whose packets the output still waits for. */
  predicate Awake(c: Config, s: State, now: i64, j: StreamKey) {
    j in s.active &&
    (c.stallTimeout == 0 || j !in s.seen || Min(now as int - s.seen[j] as int, MAX64) <= c.stallTimeout)
  }

  /** Fewest ticks that are longer than the reorder window, none for an empty one. */
  predicate WindowTicks(c: Config, den: int, ticks: int) {
    if c.reorderWindow == 0 then ticks == 0
    else 1000 * (ticks - 1) <= c.reorderWindow * den < 1000 * ticks
  }

  /** The lane's newest packet is not a reorder window past the given one. */
  predicate NotPast(c: Config, s: State, p: Packet, j: StreamKey, ticks: int) {
    && j in s.latest && WindowTicks(c, p.tb.den, ticks)
    && s.latest[j].value as int * p.tb.den < (Shown(s, p) + ticks) * s.latest[j].tb.den
  }

  predicate Waits(c: Config, s: State, now: i64, k: StreamKey, j: StreamKey, ticks: int) {
    LeastOld(s, now, k) && Awake(c, s, now, j) && NotPast(c, s, s.queues[k][0].packet, j, ticks)
  }

  predicate AllYoung(s: State, now: i64) {
    forall k, i :: k in s.queues && 0 <= i < |s.queues[k]| ==> Young(s.queues[k][i], now, s.target)
  }

  predicate Silent(c: Config, s: State, now: i64, j: StreamKey) {
    Awake(c, s, now, j) && j !in s.latest
  }

  ghost predicate AtRest(c: Config, s: State, now: i64) {
    || AllYoung(s, now)
    || (exists j :: Silent(c, s, now, j))
    || (exists k, j, ticks :: Waits(c, s, now, k, j, ticks))
  }

  // ---------------------------------------------------------------------
  // One turn that hands out nothing

  predicate Runs(s: State) {
    s.mode == Delayed || (s.mode == Preparing && s.preparingChange)
  }

  lemma DueIsOld(c: Config, s: State, now: i64, k: StreamKey, n: nat)
    requires c.Valid() && Ok(c, s, n) && s.lastObserved == Some(now) && k in s.queues
    ensures s.queues[k] != [] && (DueFront(s, now, k) <==> Old(s, now, k))
  {
    hide CapsOk, HorizonsOk, ModesOk, DistinctLanes, DistinctPending, OneGeneration;
    assert LaneOk(c, k, s.queues[k], n, s.lastObserved);
    assert ItemOk(c, s.queues[k][0], n, s.lastObserved);
  }

  lemma YoungFronts(c: Config, s: State, now: i64, n: nat)
    requires c.Valid() && Ok(c, s, n) && s.lastObserved == Some(now)
    requires forall k :: k in s.queues ==> !DueFront(s, now, k)
    ensures AllYoung(s, now)
  {
    hide CapsOk, HorizonsOk, ModesOk, DistinctLanes, DistinctPending, OneGeneration, DueFront;
    forall k, i | k in s.queues && 0 <= i < |s.queues[k]| ensures Young(s.queues[k][i], now, s.target) {
      DueIsOld(c, s, now, k, n);
      assert LaneOk(c, k, s.queues[k], n, s.lastObserved);
      assert s.queues[k][0].receivedAt <= s.queues[k][i].receivedAt;
    }
  }

  lemma WatchedAwake(c: Config, s: State, now: i64, j: StreamKey)
    ensures j in s.active && Watching(c, s, now, j) <==> Awake(c, s, now, j)
  {
  }

  lemma PrecedesBefore(s: State, a: Queued, b: Queued)
    requires Precedes(s, a, b)
    ensures Before(s, a, b)
  {
  }

  lemma NextLeast(c: Config, s: State, now: i64, k: StreamKey, n: nat)
    requires c.Valid() && Ok(c, s, n) && s.lastObserved == Some(now) && Next(s, now, k)
    ensures LeastOld(s, now, k)
  {
    hide Ok, Precedes, Before, DueFront, Old;
    assert DueFront(s, now, k) && forall j :: j in s.queues && DueFront(s, now, j) ==>
      Precedes(s, s.queues[k][0], s.queues[j][0]) by { NextIs(s, now, k); }
    OldIsDue(s, now, k);
    DueIsOld(c, s, now, k, n);
    assert k in s.queues && s.queues[k] != [];
    forall j | j in s.queues && Old(s, now, j) ensures s.queues[j] != [] && Before(s, s.queues[k][0], s.queues[j][0]) {
      OldIsDue(s, now, j);
      DueIsOld(c, s, now, j, n);
      PrecedesBefore(s, s.queues[k][0], s.queues[j][0]);
    }
  }

  lemma NextIs(s: State, now: i64, k: StreamKey)
    requires Next(s, now, k)
    ensures DueFront(s, now, k) && forall j :: j in s.queues && DueFront(s, now, j) ==>
              s.queues[j] != [] && Precedes(s, s.queues[k][0], s.queues[j][0])
  {
  }

  lemma OldIsDue(s: State, now: i64, k: StreamKey)
    ensures Old(s, now, k) || DueFront(s, now, k) ==> k in s.queues && s.queues[k] != []
  {
  }

  lemma HeldBack(c: Config, s: State, now: i64, k: StreamKey, p: Packet)
    requires Ordering(s, p).Some? && Watermark(c, s, now, Ordering(s, p).value).Hold?
    ensures exists j, ticks :: Awake(c, s, now, j) && NotPast(c, s, p, j, ticks)
  {
    hide Watching, DurationTicksCeil, Awake;
    var dts := Ordering(s, p).value;
    DurationTicksExceeds(c.reorderWindow, dts.tb);
    var ticks := DurationTicksCeil(c.reorderWindow, dts.tb).value;
    var guarded := AddTimestamp(dts.value, ticks).value;
    var j :| j in s.active && Watching(c, s, now, j) && j in s.latest &&
             Cmp(guarded, dts.tb.den, s.latest[j].value, s.latest[j].tb.den) > 0;
    WatchedAwake(c, s, now, j);
    assert NotPast(c, s, p, j, ticks);
  }

  lemma EmitsOrFails(s: State, x: Queued, now: i64, overflow: Fault, regress: Fault)
    ensures var r := Emit(s, x, now, true, overflow, regress); r.out == [] ==> r.state.mode == Failed
  {
    hide Note, Retimestamp;
    ErrorHolds(s, overflow);
    ErrorHolds(s, regress);
  }

  /** A turn that hands out nothing and does not fail leaves everything as it is, for a reason. */
  lemma TurnRests(c: Config, s: State, now: i64, n: nat)
    requires c.Valid() && Ok(c, s, n) && s.lastObserved == Some(now) && Runs(s)
    requires DrainOnce(c, s, now).out == [] && DrainOnce(c, s, now).state.mode != Failed
    ensures DrainOnce(c, s, now).state == s && AtRest(c, s, now)
  {
    hide Ok, DueFront, Watching, AllYoung, Ordered, DrainLane, Silent, Waits, Awake, Next, Watermark, EnterError, NotPast, LeastOld;
    if j :| j in s.active && Watching(c, s, now, j) && j !in s.latest {
      WatchedAwake(c, s, now, j);
      assert Silent(c, s, now, j) by { SilentIs(c, s, now, j); }
    } else if forall k :: k in s.queues ==> !DueFront(s, now, k) {
      YoungFronts(c, s, now, n);
    } else if !Ordered(s, now) {
      ErrorHolds(s, InvalidQueuedTimeBase);
      assert false;
    } else {
      var k := NextLane(s, now);
      NextLeast(c, s, now, k, n);
      NextDated(s, now, k);
      LaneRests(c, s, now, k, n);
    }
  }

  lemma NextDated(s: State, now: i64, k: StreamKey)
    requires Ordered(s, now) && Next(s, now, k)
    ensures k in s.queues && s.queues[k] != [] && Ordering(s, s.queues[k][0].packet).Some?
  {
  }

  lemma SilentIs(c: Config, s: State, now: i64, j: StreamKey)
    ensures Silent(c, s, now, j) <==> Awake(c, s, now, j) && j !in s.latest
  {
  }

  lemma LaneRests(c: Config, s: State, now: i64, k: StreamKey, n: nat)
    requires Runs(s) && LeastOld(s, now, k) && Ordering(s, s.queues[k][0].packet).Some?
    requires DrainLane(c, s, now, k).out == [] && DrainLane(c, s, now, k).state.mode != Failed
    ensures DrainLane(c, s, now, k).state == s && exists j, ticks :: Waits(c, s, now, k, j, ticks)
  {
    hide Watermark, LeastOld, Awake, NotPast, Emit, EnterError;
    assert k in s.queues && s.queues[k] != [] by { LeastFront(s, now, k); }
    ErrorHolds(s, ReorderWindow);
    assert GateErases(s, k) == s;
    EmitsOrFails(PopFront(s, k), s.queues[k][0], now, RetimestampOverflow, LatePacket);
    HeldBack(c, s, now, k, s.queues[k][0].packet);
    var j, ticks :| Awake(c, s, now, j) && NotPast(c, s, s.queues[k][0].packet, j, ticks);
    assert Waits(c, s, now, k, j, ticks);
  }

  lemma LeastFront(s: State, now: i64, k: StreamKey)
    requires LeastOld(s, now, k)
    ensures k in s.queues && s.queues[k] != []
  {
  }

  // ---------------------------------------------------------------------
  // The whole drain

  /** What says who waits for whom is the same. */
  predicate SameLanes(s: State, r: State) {
    r.active == s.active && r.seen == s.seen && r.latest == s.latest && r.offsets == s.offsets && r.lastObserved == s.lastObserved
  }

  lemma EmitLanes(s: State, x: Queued, now: i64, overflow: Fault, regress: Fault)
    ensures var r := Emit(s, x, now, true, overflow, regress); r.state.mode == Failed || SameLanes(s, r.state)
  {
    hide Retimestamp, RegressesOutput;
    ErrorHolds(s, overflow);
    ErrorHolds(s, regress);
  }

  lemma ErasedLanes(s: State, k: StreamKey)
    requires k in s.queues && s.queues[k] != []
    ensures SameLanes(s, GateErases(s, k)) && GateErases(s, k).queues == s.queues
    ensures SameLanes(GateErases(s, k), PopFront(GateErases(s, k), k))
  {
  }

  lemma LanesThen(a: State, b: State, d: State, e: State)
    requires SameLanes(a, b) && SameLanes(b, d)
    ensures SameLanes(d, e) ==> SameLanes(a, e)
  {
  }

  lemma LaneLanes(c: Config, s: State, now: i64, k: StreamKey)
    requires k in s.queues && s.queues[k] != [] && Ordering(s, s.queues[k][0].packet).Some?
    ensures var r := DrainLane(c, s, now, k); r.state.mode == Failed || SameLanes(s, r.state)
  {
    hide Watermark, Emit, EnterError, GateStops, GateErases, PopFront, SameLanes;
    var s1 := GateErases(s, k);
    SameSelf(s);
    ErasedLanes(s, k);
    ErrorHolds(s1, ReorderWindow);
    LanesThen(s, s1, PopFront(s1, k), Emit(PopFront(s1, k), s.queues[k][0], now, true, RetimestampOverflow, LatePacket).state);
    EmitLanes(PopFront(s1, k), s.queues[k][0], now, RetimestampOverflow, LatePacket);
  }

  lemma OnceLanes(c: Config, s: State, now: i64)
    ensures var r := DrainOnce(c, s, now); r.state.mode == Failed || SameLanes(s, r.state)
  {
    hide DrainLane, Next, Ordered, DueFront, Watching, EnterError;
    ErrorHolds(s, InvalidQueuedTimeBase);
    if !(exists k :: k in s.active && Watching(c, s, now, k) && k !in s.latest) &&
       Ordered(s, now) && exists k :: k in s.queues && DueFront(s, now, k) {
      var k := NextLane(s, now);
      NextDated(s, now, k);
      LaneLanes(c, s, now, k);
    }
  }

  lemma StillRuns(s: State, r: State)
    requires SameReturn(s, r)
    ensures Runs(r) == Runs(s) && r.target == s.target && r.mode == s.mode
  {
  }

  /** A drain that does not fail ends where nothing more may leave. */
  lemma {:induction false} DrainRests(c: Config, s: State, now: i64, fuel: nat, n: nat)
    requires c.Valid() && Ok(c, s, n) && s.lastObserved == Some(now) && Runs(s) && fuel > Packets(s)
    ensures var r := DrainUpTo(c, s, now, fuel).state;
            r.mode == Failed || (Ok(c, r, n) && SameLanes(s, r) && SameReturn(s, r) && AtRest(c, r, now))
    decreases fuel
  {
    hide Ok, DrainOnce, Packets, Runs, AtRest, SameReturn;
    var one := DrainOnce(c, s, now);
    DrainStep(c, s, now, fuel, [], n);
    OkDrainOnce(c, s, now, n);
    OnceLanes(c, s, now);
    DrainOnceMode(c, s, now);
    if one.state.mode == Failed {
      if one.out != [] {
        FailedMode(s, one.state);
      }
    } else if one.out == [] {
      TurnRests(c, s, now, n);
    } else {
      StillRuns(s, one.state);
      DrainRests(c, one.state, now, fuel - 1, n);
      if DrainUpTo(c, s, now, fuel).state.mode != Failed {
        SameThen(s, one.state, DrainUpTo(c, s, now, fuel).state);
      }
    }
  }

  lemma FailedMode(s: State, r: State)
    requires Runs(s) && SameReturn(s, r)
    ensures r.mode != Failed
  {
  }

  lemma SameThen(a: State, b: State, d: State)
    requires SameReturn(a, b) && SameReturn(b, d)
    ensures SameReturn(a, d)
  {
  }

  // ---------------------------------------------------------------------
  // What the lanes' records say

  /** The record of a lane that has just been pushed to: it is waited for, last seen now, and its newest time is the
      later of the packet's and the one before. */
  predicate Noted(s: State, r: State, p: Packet, now: i64) {
    var k := p.stream;
    && k in r.active && k in r.seen && r.seen[k] == now && k in r.latest
    && (if k in s.latest && Shown(r, p) * s.latest[k].tb.den <= s.latest[k].value as int * p.tb.den
        then r.latest[k] == s.latest[k] else r.latest[k].value == Shown(r, p) && r.latest[k].tb == p.tb)
  }

  /** Other lanes than another generation of the pushed one keep their records. */
  ghost predicate OthersNoted(s: State, r: State, stream: StreamKey) {
    forall j :: Timeline(j) != Timeline(stream) ==>
      && (j in r.active <==> j in s.active)
      && (j in r.seen <==> j in s.seen) && (j in s.seen ==> r.seen[j] == s.seen[j])
      && (j in r.latest <==> j in s.latest) && (j in s.latest ==> r.latest[j] == s.latest[j])
  }

  lemma EnqueueNotes(c: Config, s: State, p: Packet, now: i64, n: nat)
    requires EpochActive(s) && Enqueue(c, s, p, now, n).ok
    ensures var r := Enqueue(c, s, p, now, n).state; Noted(s, r, p, now) && OthersNoted(s, r, p.stream)
  {
    hide HasOldGeneration, Place, EnterError, EpochActive, Noted, OthersNoted, DropReplaced;
    var s1 := s.(known := s.known + {Timeline(p.stream)});
    var d := DropReplaced(s1, p.stream);
    DroppedNotes(s, s1, p.stream);
    ActiveStays(s, s1, p.stream);
    PlaceNotes(c, d, p, now, n);
    NotesThen(s, d, Place(c, d, p, now, n).state, p, now);
  }

  lemma DroppedNotes(s: State, s1: State, stream: StreamKey)
    requires s1 == s.(known := s1.known)
    ensures var d := DropReplaced(s1, stream);
            OthersNoted(s, d, stream) && Find(d.latest, stream) == Find(s.latest, stream)
  {
    hide Awaited;
  }

  lemma ActiveStays(s: State, s1: State, stream: StreamKey)
    requires s1 == s.(known := s1.known) && EpochActive(s)
    ensures EpochActive(DropReplaced(s1, stream))
  {
    hide Keep, Stay, Awaited;
  }

  lemma NotesThen(s: State, d: State, r: State, p: Packet, now: i64)
    requires Find(d.latest, p.stream) == Find(s.latest, p.stream) && OthersNoted(s, d, p.stream)
    requires Noted(d, r, p, now) && OthersNoted(d, r, p.stream)
    ensures Noted(s, r, p, now) && OthersNoted(s, r, p.stream)
  {
  }

  lemma PlaceNotes(c: Config, s: State, p: Packet, now: i64, n: nat)
    requires EpochActive(s) && Place(c, s, p, now, n).ok
    ensures var r := Place(c, s, p, now, n).state; Noted(s, r, p, now) && OthersNoted(s, r, p.stream)
  {
    hide EpochOffset, WithOffset, Ordering, Prune, OverCapacity, EnterError, EpochActive, Append, Noted, OthersNoted;
    var based := WithOffset(s, p).value;
    var dts := Ordering(based, p).value;
    BasedNotes(s, p);
    PrunedRuns(c, based, now);
    PrunedActive(c, based, now);
    var room := if s.mode == Returning then based else Prune(c, based, now);
    DatedShown(based, room, p);
    AppendNotes(c, room, p, now, n, dts);
    NotesAfter(s, room, Append(c, room, p, now, n, dts), p, now);
  }

  lemma NotesAfter(s: State, room: State, r: State, p: Packet, now: i64)
    requires room.latest == s.latest && room.active == s.active && room.seen == s.seen
    requires Noted(room, r, p, now) && OthersNoted(room, r, p.stream)
    ensures Noted(s, r, p, now) && OthersNoted(s, r, p.stream)
  {
  }

  lemma BasedNotes(s: State, p: Packet)
    requires WithOffset(s, p).Some?
    ensures var b := WithOffset(s, p).value;
            b.latest == s.latest && b.active == s.active && b.seen == s.seen && EpochActive(b) == EpochActive(s)
  {
    hide EpochOffset, EpochActive;
    if !(!EpochActive(s) || p.stream in s.offsets) && EpochOffset(s, p, s.target).Some? {
      OffsetsNotes(s, s.offsets[p.stream := EpochOffset(s, p, s.target).value]);
    }
  }

  lemma OffsetsNotes(s: State, offsets: map<StreamKey, i64>)
    ensures var b := s.(offsets := offsets);
            b.latest == s.latest && b.active == s.active && b.seen == s.seen && EpochActive(b) == EpochActive(s)
  {
  }

  lemma PrunedActive(c: Config, s: State, now: i64)
    ensures EpochActive(Prune(c, s, now)) == EpochActive(s)
  {
  }

  lemma DatedShown(s: State, r: State, p: Packet)
    requires r.offsets == s.offsets && Ordering(s, p).Some?
    ensures Ordering(s, p).value.value == Shown(r, p) && Ordering(s, p).value.tb == p.tb
  {
  }

  lemma AppendNotes(c: Config, s: State, p: Packet, now: i64, n: nat, dts: Horizon)
    requires EpochActive(s) && dts.value == Shown(s, p) && dts.tb == p.tb
    ensures var r := Append(c, s, p, now, n, dts); Noted(s, r, p, now) && OthersNoted(s, r, p.stream)
  {
  }

  // ---------------------------------------------------------------------
  // Polls and pushes

  /** The call's state, or the one that its last pruning was applied to, has nothing more to hand out. */
  ghost predicate Rested(c: Config, d: State, now: i64, r: State) {
    AtRest(c, d, now) && r == if d.mode == Delayed then Prune(c, d, now) else d
  }

  /** Such a state of packets from the given ones. */
  ghost predicate Settled(c: Config, from: iset<Queued>, now: i64, r: State) {
    exists d :: Held(d) <= from && Rested(c, d, now, r)
  }

  /** What is left was in the given state, whose records and target it has. */
  ghost predicate Left(s: State, d: State) {
    SameLanes(s, d) && d.target == s.target && Held(d) <= Held(s)
  }

  ghost predicate RestedFrom(c: Config, s: State, now: i64, r: State) {
    exists d :: Left(s, d) && Rested(c, d, now, r)
  }

  lemma RestedBy(c: Config, s: State, d: State, now: i64, r: State)
    requires Left(s, d) && Rested(c, d, now, r)
    ensures RestedFrom(c, s, now, r)
  {
  }

  lemma FromSettled(c: Config, s: State, from: iset<Queued>, now: i64, r: State)
    requires RestedFrom(c, s, now, r) && Held(s) <= from
    ensures Settled(c, from, now, r) && r.target == s.target && SameLanes(s, r)
  {
    hide AtRest, Held, Prune, SameLanes;
    var d :| Left(s, d) && Rested(c, d, now, r);
    PrunedRuns(c, d, now);
    LanesThen(s, d, Prune(c, d, now), r);
    SameSelf(r);
  }

  lemma DrainLeft(c: Config, s: State, now: i64, n: nat)
    requires c.Valid() && Ok(c, s, n)
    ensures Held(Drain(c, s, now).state) <= Held(s)
  {
    hide Ok, DrainUpTo, Packets, Held;
    OkDrain(c, s, now, n);
  }

  lemma RestsFrom(c: Config, s: State, now: i64, n: nat)
    requires c.Valid() && Ok(c, s, n) && s.lastObserved == Some(now) && Runs(s)
    ensures var r := (if s.mode == Delayed then DrainAndPrune(c, s, now) else Drain(c, s, now)).state;
            r.mode == Failed || RestedFrom(c, s, now, r)
  {
    hide Ok, DrainUpTo, Packets, Runs, AtRest, Prune, SameLanes, SameReturn, RestedFrom;
    DrainRests(c, s, now, Packets(s) + 1, n);
    var d := Drain(c, s, now).state;
    var r := (if s.mode == Delayed then DrainAndPrune(c, s, now) else Drain(c, s, now)).state;
    if d.mode == Failed {
      assert r == d;
    } else {
      StillRuns(s, d);
      DrainLeft(c, s, now, n);
      RestedBy(c, s, d, now, r);
    }
  }

  /** A poll of the running delay hands out packets until nothing more may leave. */
  lemma PollRests(c: Config, s: State, now: i64, n: nat)
    requires c.Valid() && Ok(c, s, n) && Runs(s)
    ensures var r := DoPoll(c, s, now).state;
            r.mode == Failed || RestedFrom(c, s.(lastObserved := Some(now)), now, r)
  {
    hide Ok, DrainAndPrune, Drain, RestedFrom, EnterError;
    ErrorHolds(s, ClockRegression);
    if !Regresses(s, now) {
      OkClock(c, s, now, n);
      RestsFrom(c, s.(lastObserved := Some(now)), now, n);
    }
  }

  lemma EnqueuedRuns(c: Config, s: State, p: Packet, now: i64, n: nat)
    requires Runs(s) && Enqueue(c, s, p, now, n).ok
    ensures Runs(Enqueue(c, s, p, now, n).state)
  {
    hide Enqueue;
    EnqueueCourse(c, s, p, now, n);
  }

  lemma RejectedFails(c: Config, s: State, p: Packet, now: i64, n: nat)
    requires Runs(s) && !Enqueue(c, s, p, now, n).ok
    ensures PushBuffered(c, s, p, now, n).state.mode == Failed
  {
    hide Enqueue, RetimestampLive;
    EnqueueCourse(c, s, p, now, n);
    var q := Enqueue(c, s, p, now, n).state;
    LiveCourse(c, q, p, now, n, FailOpenTimestamps);
  }

  lemma PrunedRuns(c: Config, s: State, now: i64)
    ensures var r := Prune(c, s, now); SameLanes(s, r) && SameLanes(r, s) && r.target == s.target && r.mode == s.mode && Runs(r) == Runs(s)
  {
  }

  lemma EnqueuedClock(c: Config, s: State, p: Packet, now: i64, n: nat)
    requires Enqueue(c, s, p, now, n).ok
    ensures Enqueue(c, s, p, now, n).state.lastObserved == s.lastObserved
  {
    hide HasOldGeneration, Keep, Stay, Awaited, Place, EnterError;
    PlacedClock(c, PrepareStream(c, s, p.stream).state, p, now, n);
  }

  lemma PlacedClock(c: Config, s: State, p: Packet, now: i64, n: nat)
    requires Place(c, s, p, now, n).ok
    ensures Place(c, s, p, now, n).state.lastObserved == s.lastObserved
  {
    hide EpochOffset, Ordering, Prune, OverCapacity, EnterError, EpochActive, Append;
    var based := WithOffset(s, p).value;
    var dts := Ordering(based, p).value;
    PrunedClock(c, based, now);
    var room := if s.mode == Returning then based else Prune(c, based, now);
    AppendedClock(c, room, p, now, n, dts);
  }

  lemma AppendedClock(c: Config, s: State, p: Packet, now: i64, n: nat, dts: Horizon)
    ensures Append(c, s, p, now, n, dts).lastObserved == s.lastObserved
  {
  }

  lemma NotedClock(s: State, r: State, p: Packet, now: i64)
    ensures var s1 := s.(lastObserved := Some(now));
            Held(s1) == Held(s) && Noted(s, r, p, now) == Noted(s1, r, p, now) && OthersNoted(s, r, p.stream) == OthersNoted(s1, r, p.stream)
  {
  }

  lemma NotedSame(s: State, q: State, r: State, p: Packet, now: i64)
    requires SameLanes(q, r) && Noted(s, q, p, now) && OthersNoted(s, q, p.stream)
    ensures Noted(s, r, p, now) && OthersNoted(s, r, p.stream)
  {
  }

  lemma BufferedRests(c: Config, s: State, p: Packet, now: i64, n: nat)
    requires c.Valid() && Ok(c, s, n) && Runs(s) && s.lastObserved == Some(now)
    ensures var r := PushBuffered(c, s, p, now, n).state;
            r.mode == Failed || (Settled(c, Held(s) + iset{NewItem(c, p, now, n)}, now, r) && r.target == s.target && Noted(s, r, p, now) && OthersNoted(s, r, p.stream))
  {
    hide Ok, Enqueue, DrainAndPrune, Drain, SameLanes, Settled, RestedFrom, Noted, OthersNoted, EnterError, Prune, Bypassed, ObserveReturnKey;
    var q := Enqueue(c, s, p, now, n);
    if !q.ok {
      RejectedFails(c, s, p, now, n);
    } else {
      RunsBuffering(c, s, n);
      OkEnqueue(c, s, p, now, n);
      EnqueuedRuns(c, s, p, now, n);
      EnqueuedClock(c, s, p, now, n);
      EnqueuedTarget(c, s, p, now, n);
      if s.mode == Delayed {
        RestsFrom(c, q.state, now, n + 1);
      } else {
        PrunedRuns(c, q.state, now);
        OkPrune(c, q.state, now, n + 1);
        assert Prune(c, q.state, now).lastObserved == Some(now) by { PrunedClock(c, q.state, now); }
        RestsFrom(c, Prune(c, q.state, now), now, n + 1);
      }
      var r := PushBuffered(c, s, p, now, n).state;
      if r.mode != Failed {
        EnqueueNotes(c, s, p, now, n);
        EnqueueHeld(c, s, p, now, n);
        PruneHeld(c, q.state, now);
        FromSettled(c, if s.mode == Delayed then q.state else Prune(c, q.state, now), Held(s) + iset{NewItem(c, p, now, n)}, now, r);
        PrunedRuns(c, q.state, now);
        SameSelf(Prune(c, q.state, now));
        LanesThen(q.state, Prune(c, q.state, now), Prune(c, q.state, now), r);
        NotedSame(s, q.state, r, p, now);
      }
    }
  }

  lemma RunsBuffering(c: Config, s: State, n: nat)
    requires Ok(c, s, n) && Runs(s)
    ensures Buffering(s) && !s.returnCommitted
  {
    hide LanesOk, DistinctLanes, OneGeneration, DistinctPending, HorizonsOk, CapsOk;
  }

  lemma PrunedClock(c: Config, s: State, now: i64)
    ensures Prune(c, s, now).lastObserved == s.lastObserved
  {
  }

  lemma EnqueuedTarget(c: Config, s: State, p: Packet, now: i64, n: nat)
    requires Enqueue(c, s, p, now, n).ok
    ensures Enqueue(c, s, p, now, n).state.target == s.target && Enqueue(c, s, p, now, n).state.mode == s.mode
  {
    hide Enqueue;
    EnqueueCourse(c, s, p, now, n);
  }

  lemma SameSelf(s: State)
    ensures SameLanes(s, s)
  {
  }

  lemma RegressedFails(c: Config, s: State, p: Packet, now: i64, n: nat)
    requires Regresses(s, now)
    ensures DoPush(c, s, p, now, n).state.mode == Failed
  {
    hide RetimestampLive, EnterError;
    RegressFails(s, now);
    LiveCourse(c, Observe(s, now), p, now, n, FailOpenTimestamps);
  }

  lemma RunsOn(s: State, now: i64)
    requires Runs(s) && !Regresses(s, now)
    ensures Observe(s, now) == s.(lastObserved := Some(now)) && Runs(Observe(s, now)) && !PassesLive(Observe(s, now))
    ensures Observe(s, now).mode != Returning && Observe(s, now).target == s.target
  {
  }

  /** So does a push. */
  lemma PushRests(c: Config, s: State, p: Packet, now: i64, n: nat)
    requires c.Valid() && Ok(c, s, n) && Runs(s)
    ensures var r := DoPush(c, s, p, now, n).state;
            r.mode == Failed || (Settled(c, Held(s) + iset{NewItem(c, p, now, n)}, now, r) && r.target == s.target && Noted(s, r, p, now) && OthersNoted(s, r, p.stream))
  {
    hide Ok, Enqueue, DrainAndPrune, Drain, SameLanes, Settled, RestedFrom, Noted, OthersNoted, EnterError, Prune, Bypassed, Runs, RetimestampLive;
    if Regresses(s, now) {
      RegressedFails(c, s, p, now, n);
    } else {
      OkClock(c, s, now, n);
      var s1 := s.(lastObserved := Some(now));
      RunsOn(s, now);
      BufferedRests(c, s1, p, now, n);
      NotedClock(s, DoPush(c, s, p, now, n).state, p, now);
    }
  }

  // ---------------------------------------------------------------------
  // When everything old leaves

  /** Every lane that is waited for is a reorder window past everything buffered. */
  ghost predicate AllPast(c: Config, s: State, now: i64) {
    && (forall j :: !Silent(c, s, now, j))
    && (forall j, x, ticks :: Awake(c, s, now, j) && Holds(s, x) ==> !NotPast(c, s, x.packet, j, ticks))
  }

  lemma SameWaiting(c: Config, s: State, d: State, now: i64)
    requires SameLanes(s, d)
    ensures forall j :: Awake(c, d, now, j) == Awake(c, s, now, j)
    ensures forall p, j, ticks :: NotPast(c, d, p, j, ticks) == NotPast(c, s, p, j, ticks)
    ensures d.latest == s.latest
  {
  }

  lemma NotWaiting(c: Config, s: State, d: State, now: i64, k: StreamKey, j: StreamKey, ticks: int)
    requires AllPast(c, s, now) && Left(s, d)
    ensures !Waits(c, d, now, k, j, ticks)
  {
    hide Awake, NotPast, LeastOld, SameLanes;
    SameWaiting(c, s, d, now);
    if LeastOld(d, now, k) {
      LeastFront(d, now, k);
      var x := d.queues[k][0];
      assert InLane(d.queues, x);
      assert x in Held(d);
      assert Holds(s, x);
    }
  }

  lemma NotSilent(c: Config, s: State, d: State, now: i64, j: StreamKey)
    requires AllPast(c, s, now) && Left(s, d)
    ensures !Silent(c, d, now, j)
  {
    hide Awake, NotPast, SameLanes;
    SameWaiting(c, s, d, now);
    SilentIs(c, s, now, j);
  }

  lemma PastRests(c: Config, s: State, d: State, now: i64)
    requires AllPast(c, s, now) && Left(s, d) && AtRest(c, d, now)
    ensures AllYoung(d, now)
  {
    hide AllPast, Left, Waits, Silent, AllYoung;
    forall k, j, ticks ensures !Waits(c, d, now, k, j, ticks) {
      NotWaiting(c, s, d, now, k, j, ticks);
    }
    forall j ensures !Silent(c, d, now, j) {
      NotSilent(c, s, d, now, j);
    }
  }

  lemma PrunedYoung(c: Config, s: State, now: i64)
    requires AllYoung(s, now)
    ensures AllYoung(Prune(c, s, now), now)
  {
    var r := Prune(c, s, now);
    forall k, i | k in r.queues && 0 <= i < |r.queues[k]| ensures Young(r.queues[k][i], now, r.target) {
      var at := KeepIndex(c, s.queues[k], now, Retention(c, s), |s.queues[k]|);
      assert r.queues[k][i] == s.queues[k][at + i];
    }
  }

  /** Once every lane that is waited for is far enough, a poll leaves nothing that is as old as the target. */
  lemma PollEmpties(c: Config, s: State, now: i64, n: nat)
    requires c.Valid() && Ok(c, s, n) && Runs(s) && !Regresses(s, now)
    requires AllPast(c, s.(lastObserved := Some(now)), now)
    ensures var r := DoPoll(c, s, now).state; r.mode == Failed || AllYoung(r, now)
  {
    hide Ok, DoPoll, AllPast, AllYoung, Left, AtRest, Prune;
    var s1 := s.(lastObserved := Some(now));
    PollRests(c, s, now, n);
    var r := DoPoll(c, s, now).state;
    if r.mode != Failed {
      var d :| Left(s1, d) && Rested(c, d, now, r);
      PastRests(c, s1, d, now);
      PrunedYoung(c, d, now);
    }
  }

  // ---------------------------------------------------------------------
  // Every run

  lemma PollSettles(c: Config, s: State, now: i64, n: nat)
    requires c.Valid() && Ok(c, s, n) && Runs(s)
    ensures var r := DoPoll(c, s, now).state; r.mode == Failed || Settled(c, Held(s), now, r)
  {
    hide Ok, DoPoll, Settled, RestedFrom, Runs, SameLanes;
    PollRests(c, s, now, n);
    var r := DoPoll(c, s, now).state;
    if r.mode != Failed {
      FromSettled(c, s.(lastObserved := Some(now)), Held(s), now, r);
    }
  }

  lemma StepSettles(c: Config, s: State, op: Op, n: nat)
    requires c.Valid() && Ok(c, s, n) && Runs(s) && (op.Push? || op.Poll?)
    ensures var r := Step(c, s, op, n).state; r.mode == Failed || Settled(c, Sources(c, s, op, n), op.now, r)
  {
    hide Ok, DoPush, DoPoll, Runs, Settled, Noted, OthersNoted, Held;
    match op
    case Push(p, now) => PushRests(c, s, p, now, n);
    case Poll(now) => PollSettles(c, s, now, n);
  }

  /** Over every run: after a push or a poll of the running delay nothing is left that could have left. */
  lemma EveryRunSettles(c: Config, ops: seq<Op>, op: Op)
    requires c.Valid() && Runs(Play(c, ops).state) && (op.Push? || op.Poll?)
    requires Play(c, ops + [op]).state.mode != Failed
    ensures Settled(c, Sources(c, Play(c, ops).state, op, Play(c, ops).next), op.now, Play(c, ops + [op]).state)
  {
    hide Ok, Step, Runs, Settled, Conserved, Sources;
    var before := Play(c, ops);
    EveryRunConserves(c, ops);
    ConservedOk(c, before);
    assert (ops + [op])[..|ops + [op]| - 1] == ops;
    StepSettles(c, before.state, op, before.next);
  }
}
