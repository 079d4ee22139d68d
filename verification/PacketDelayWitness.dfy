/** A run whose return to live stops with an error. */
module PacketDelayWitness {
  // A second packet with the largest presentation time goes live behind a first one that has to be shifted.

  import opened Options
  import opened Timestamps
  import opened PacketTypes
  import opened PacketDelaySpec
  import opened PacketDelayStep
  import opened PacketDelayInvariant
  import opened PacketDelayRun
  import opened PacketDelayEpoch
  import opened PacketDelayReturn
  import opened PacketDelayLive

  const SETTINGS: Config := Config(0, 1, 0, 10, 4, 1, 0, 0, 0, 0, true, {})
  const LANE: StreamKey := StreamKey(Audio, 0, 0)
  const MILLIS: TimeBase := TimeBase(1, 1000)
  const SHOWN: Packet := Packet(LANE, 5, 5, MILLIS, false, 0)
  const FIRST: Packet := Packet(LANE, 0, 0, MILLIS, false, 0)
  const LAST: Packet := Packet(LANE, MAX64, 1, MILLIS, false, 0)

  lemma SettingsValid()
    ensures SETTINGS.Valid()
  {
    assert (set k: StreamKey | k in SETTINGS.required :: Timeline(k)) == {};
  }

  lemma PlayOn(ops: seq<Op>, op: Op)
    ensures Play(SETTINGS, ops + [op]) == Played(SETTINGS, Play(SETTINGS, ops), op)
  {
    assert (ops + [op])[..|ops|] == ops;
  }

  function FirstItem(): Queued { Queued(FIRST, 0, 0, 1) }
  function LastItem(): Queued { Queued(LAST, 0, 1, 1) }

  function Noted(): State {
    var h := Horizon(5, MILLIS);
    Initial(SETTINGS).(known := {LANE}, emitted := Some(h), outputDts := map[LANE := h], outputPts := map[LANE := h])
  }

  function FillingWith(q: Queue): State {
    var s := Noted().(mode := Filling, lastObserved := Some(0));
    if q == [] then s
    else s.(queues := map[LANE := q], latest := map[LANE := Horizon(q[|q| - 1].packet.dts, MILLIS)], seen := map[LANE := 0])
  }

  lemma StartsNoted()
    ensures DoExternal(SETTINGS, Initial(SETTINGS), SHOWN) == Noted()
  {
    assert (set k: StreamKey | k in SETTINGS.required :: Timeline(k)) == {};
    assert Timeline(LANE) == LANE;
    var h := Horizon(5, MILLIS);
    assert map[][LANE := h] == map[LANE := h];
    assert {} + {LANE} == {LANE};
  }

  lemma StartsFilling()
    ensures DoBeginFilling(DoActivate(SETTINGS, Noted(), 0, 0), 0) == FillingWith([])
  {
  }

  lemma NothingWeighs()
    ensures Weight(map[], One) == 0 && Weight(map[], Payload) == 0 && Weight(map[], Retained) == 0
  {
  }

  lemma OneLaneWeighs(q: Queue, w: Queued -> nat)
    ensures Weight(map[LANE := q], w) == SeqWeight(q, w)
  {
    WeightUpdate(map[], LANE, q, w);
    assert map[][LANE := q] == map[LANE := q];
  }

  /** The lane as it is while it fills: all of it just arrived. */
  predicate Arriving(q: Queue) {
    |q| <= 1 && forall i :: 0 <= i < |q| ==> q[i] == FirstItem()
  }

  lemma SamePrepared(q: Queue)
    requires Arriving(q)
    ensures PrepareStream(SETTINGS, FillingWith(q), LANE) == Checked(FillingWith(q), true)
  {
    var s := FillingWith(q);
    assert s.known + {LANE} == s.known;
    assert Stay(s.active, LANE) == s.active && Awaited(s.returnVideo, LANE) == s.returnVideo;
    assert Keep(s.latest, LANE) == s.latest && Keep(s.seen, LANE) == s.seen;
    assert Keep(s.offsets, LANE) == s.offsets && Keep(s.returnKeys, LANE) == s.returnKeys;
    assert DropReplaced(s, LANE) == s;
    assert s.(known := s.known + {LANE}) == s;
  }

  lemma SamePruned(q: Queue)
    requires forall i :: 0 <= i < |q| ==> q[i].receivedAt == 0
    ensures Prune(SETTINGS, FillingWith(q), 0) == FillingWith(q)
  {
    hide KeepIndex;
    NothingDue(q, |q|);
    assert q[0..] == q;
    var s := FillingWith(q);
    assert Prune(SETTINGS, s, 0).queues == s.queues;
  }

  lemma {:induction false} NothingDue(q: Queue, n: nat)
    requires n <= |q| && forall i :: 0 <= i < |q| ==> q[i].receivedAt == 0
    ensures KeepIndex(SETTINGS, q, 0, 1, n) == 0
  {
    if n > 0 {
      assert !Due(0, q[0].receivedAt, 1);
      NothingDue(q, n - 1);
    }
  }

  lemma Fitting(q: Queue, p: Packet)
    requires Arriving(q) && p.retained == 0
    ensures !OverCapacity(SETTINGS, FillingWith(q), p)
  {
    NothingWeighs();
    OneLaneWeighs(q, One);
    OneLaneWeighs(q, Payload);
    OneLaneWeighs(q, Retained);
  }

  lemma Enqueued(q: Queue, x: Queued)
    requires Arriving(q) && (x == FirstItem() || x == LastItem()) && x.sequence == |q|
    ensures Enqueue(SETTINGS, FillingWith(q), x.packet, 0, |q|) == Checked(FillingWith(q + [x]), true)
  {
    hide OverCapacity, Prune, PrepareStream;
    SamePrepared(q);
    SamePruned(q);
    Fitting(q, x.packet);
    var s := FillingWith(q);
    assert WithOffset(s, x.packet) == Some(s);
    assert Ordering(s, x.packet) == Some(Horizon(x.packet.dts, MILLIS));
    AppendedItem(q, x);
  }

  lemma AppendedItem(q: Queue, x: Queued)
    requires Arriving(q) && (x == FirstItem() || x == LastItem()) && x.sequence == |q|
    ensures Append(SETTINGS, FillingWith(q), x.packet, 0, |q|, Horizon(x.packet.dts, MILLIS)) == FillingWith(q + [x])
  {
    var s, r := FillingWith(q), Append(SETTINGS, FillingWith(q), x.packet, 0, |q|, Horizon(x.packet.dts, MILLIS));
    assert NewItem(SETTINGS, x.packet, 0, |q|) == x;
    assert [] + [x] == [x];
    assert r.queues == map[LANE := q + [x]] && r.latest == map[LANE := Horizon(x.packet.dts, MILLIS)];
    assert r.seen == map[LANE := 0];
  }

  lemma Pushed(q: Queue, x: Queued)
    requires Arriving(q) && (x == FirstItem() || x == LastItem()) && x.sequence == |q|
    ensures DoPush(SETTINGS, FillingWith(q), x.packet, 0, |q|).state == FillingWith(q + [x])
  {
    hide Enqueue, Prune;
    Enqueued(q, x);
    SamePruned(q + [x]);
    assert Observe(FillingWith(q), 0) == FillingWith(q);
  }

  function Both(): Queue { [] + [FirstItem()] + [LastItem()] }

  /** Both packets wait for the commit of the return. */
  function Waiting(): State {
    FillingWith(Both()).(mode := Returning, returnRequested := Some(0))
  }

  lemma StartsWaiting()
    ensures DoDeactivate(SETTINGS, FillingWith(Both()), 0) == Waiting()
  {
    var s := FillingWith(Both());
    assert Observe(s, 0) == s;
    assert ReturnLanes(SETTINGS, s) == {};
  }

  function Prologue(): seq<Op> {
    [] + [External(SHOWN)] + [Activate(0, 0)] + [PacketDelayStep.BeginFilling(0)] + [Push(FIRST, 0)] + [Push(LAST, 0)] + [Deactivate(0)]
  }

  lemma ReachesWaiting()
    ensures Play(SETTINGS, Prologue()).state == Waiting()
  {
    hide Play, DoExternal, DoActivate, DoBeginFilling, DoPush, DoDeactivate, FillingWith, Noted, Waiting, Initial;
    assert Play(SETTINGS, []).state == Initial(SETTINGS) && Play(SETTINGS, []).next == 0 by { PlayNothing(); }
    var o1: seq<Op> := [] + [External(SHOWN)];
    var o2 := o1 + [Activate(0, 0)];
    var o3 := o2 + [PacketDelayStep.BeginFilling(0)];
    var o4 := o3 + [Push(FIRST, 0)];
    var o5 := o4 + [Push(LAST, 0)];
    PlayOn([], External(SHOWN));
    PlayOn(o1, Activate(0, 0));
    PlayOn(o2, PacketDelayStep.BeginFilling(0));
    PlayOn(o3, Push(FIRST, 0));
    PlayOn(o4, Push(LAST, 0));
    PlayOn(o5, Deactivate(0));
    StartsNoted();
    StartsFilling();
    Pushed([], FirstItem());
    Pushed([] + [FirstItem()], LastItem());
    StartsWaiting();
  }

  lemma PlayNothing()
    ensures Play(SETTINGS, []) == Run(Initial(SETTINGS), 0, [], [])
  {
  }

  // ---------------------------------------------------------------------
  // The commit

  lemma CutIsZero()
    ensures LiveCut(Waiting()) == Some(0)
  {
    var s := Waiting();
    assert s.returnKeys == map[];
    assert forall at :: !CutTime(s, at);
  }

  lemma KeepsBoth()
    ensures KeptQueues(SETTINGS, Waiting(), Some(0)) == map[LANE := Both()]
  {
    var s := Waiting();
    assert Kept(SETTINGS, s, Some(0), LANE, Both()[0]);
    assert KeptFrom(SETTINGS, s, Some(0), LANE, Both()) == 0;
    assert Both()[0..] == Both();
  }

  /** The first packet has to be moved past what was shown, by six ticks. */
  lemma ShiftsSix()
    ensures EpochOffset(Waiting(), FIRST, 0) == Some(6)
  {
    var s := Waiting();
    assert Timeline(LANE) == LANE;
    assert DelayTicks(0, MILLIS) == Some(0);
    assert LeastTick(5, 1000, 1000, true) == 6 && LeastTick(5, 1000, 1000, false) == 5;
  }

  lemma CommonSix()
    requires EpochOffset(Waiting(), FIRST, 0) == Some(6)
    ensures var fronts := map[LANE := FIRST]; LANE in fronts && TimeBased(fronts) && Offsettable(Waiting(), fronts, 0)
    ensures CommonShift(Waiting(), map[LANE := FIRST], 0) == Horizon(6, MILLIS)
  {
    hide EpochOffset;
    var s: State, fronts: Fronts := Waiting(), map[LANE := FIRST];
    assert LANE in fronts && TimeBased(fronts) && Offsettable(s, fronts, 0);
    WidestExists(s, fronts, 0);
    assert forall k :: Widest(s, fronts, 0, k) ==> k == LANE;
    assert Shift(s, fronts, 0, LANE) == 6;
  }

  lemma OffsetsSix()
    ensures UnifiedOffsets(Waiting(), map[LANE := FIRST], 0) == Some(map[LANE := 6])
  {
    hide EpochOffset, CommonShift, CommonTicks, Waiting;
    ShiftsSix();
    CommonSix();
    SixTicks();
    assert UnifiedOffsets(Waiting(), map[LANE := FIRST], 0).value == map[LANE := 6];
  }

  lemma SixTicks()
    ensures CommonTicks(Horizon(6, MILLIS), 1000) == 6
  {
  }

  lemma CommitsBoth()
    ensures BuildPending(SETTINGS, Waiting()).Some?
    ensures !KeptFits(SETTINGS, Waiting())
  {
    hide EpochOffset, UnifiedOffsets, Merge, LiveCut, KeptQueues;
    CutIsZero();
    KeepsBoth();
    OffsetsSix();
    var s := Waiting();
    var kept := map[LANE := Both()];
    assert QueueFronts(kept) == map[LANE := FIRST];
    var s1 := s.(offsets := map[LANE := 6]);
    assert AllOrdered(s1, kept);
    assert LastItem() in kept[LANE] && LAST.pts + 6 > MAX64;
  }

  lemma WaitingCommits()
    ensures Committing(SETTINGS, Waiting(), Play(SETTINGS, Prologue()).next)
  {
    hide Play, BuildPending, KeptFits, Prologue, Ok, CutsOk, Waiting, Conserved;
    SettingsValid();
    ReachesWaiting();
    EveryRunConserves(SETTINGS, Prologue());
    EveryRunCutsOk(SETTINGS, Prologue());
    CommitsBoth();
    ConservedOk(SETTINGS, Play(SETTINGS, Prologue()));
    SteadyBoth();
    WaitingMode();
  }

  lemma WaitingMode()
    ensures Waiting().mode == Returning && !Waiting().returnCommitted
  {
  }

  /** A reachable return, ready and committed, whose pending list cannot drain: the first poll ends in an error. */
  lemma ReturnStops()
    ensures exists ops :: Stops(Play(SETTINGS, ops))
  {
    hide Play, BuildPending, KeptFits, Prologue, Committing, DoCommitReturn, Stops, Waiting, WentLive;
    WaitingCommits();
    CommitsBoth();
    ReachesWaiting();
    var before := Play(SETTINGS, Prologue());
    ReturnDrains(SETTINGS, Waiting(), before.next, 0);
    PlayOn(Prologue(), PacketDelayStep.CommitReturn(0, map[]));
    CommitsNow();
    PollFails();
    StopsThere(Play(SETTINGS, Prologue() + [PacketDelayStep.CommitReturn(0, map[])]));
  }

  /** A committed return that the next poll turns into an error. */
  ghost predicate Stops(r: Run) {
    r.state.mode == Returning && r.state.returnCommitted && Step(SETTINGS, r.state, Poll(0), r.next).state.mode == Failed
  }

  lemma StopsThere(r: Run)
    requires BuildPending(SETTINGS, Waiting()).Some? && r.state == WentLive(SETTINGS, Waiting())
    requires DoPoll(SETTINGS, r.state, 0).state.mode == Failed
    ensures Stops(r)
  {
    hide BuildPending, DoPoll, Waiting;
    CommitsNow();
  }

  lemma SteadyBoth()
    ensures forall k :: k in Waiting().queues ==> Steady(Waiting().queues[k])
  {
  }

  lemma CommitsNow()
    requires BuildPending(SETTINGS, Waiting()).Some?
    ensures DoCommitReturn(SETTINGS, Waiting(), 0, map[]) == WentLive(SETTINGS, Waiting())
    ensures var r := WentLive(SETTINGS, Waiting()); r.mode == Returning && r.returnCommitted && r.lastObserved == Some(0)
  {
    hide Merge, UnifiedOffsets, KeptQueues, LiveCut, AllOrdered;
    assert Observe(Waiting(), 0) == Waiting();
  }

  lemma PollFails()
    requires BuildPending(SETTINGS, Waiting()).Some?
    requires DrainPending(WentLive(SETTINGS, Waiting()), 0).state.mode == Failed
    ensures DoPoll(SETTINGS, WentLive(SETTINGS, Waiting()), 0).state.mode == Failed
  {
    hide BuildPending, DrainPending;
    CommitsNow();
    var r := WentLive(SETTINGS, Waiting());
    assert Observe(r, 0) == r;
  }
}
