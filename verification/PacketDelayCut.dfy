/** Where a filled buffer is cut when the delay goes live. */
module PacketDelayCut {
  // A commit is accepted exactly when every lane that must be there has a packet to open on, and each lane then opens
  // on its newest such packet. Everything is said on arrival times and keyframes.

  import opened Options
  import opened Timestamps
  import opened PacketTypes
  import opened PacketDelaySpec
  import opened PacketDelayStep
  import opened PacketDelayInvariant
  import opened PacketDelayKeep
  import opened PacketDelayRun
  import opened PacketDelayResults
  import opened PacketDelayReturn
  import opened PacketDelayCounts
  import opened PacketDelayEpoch

  /** A distance between two times that is no longer than the largest gap allowed, if one is set. */
  predicate Steady(c: Config, from: i64, to: i64) {
    c.maxGap == 0 || Min(to as int - from as int, MAX64) <= c.maxGap
  }

  /** The lane can open on this packet: it is old enough, can be decoded from, has a whole delay of packets behind it,
      and from it to now nothing is missing. */
  predicate Opens(c: Config, q: Queue, i: nat, now: i64, target: nat) {
    i < |q| &&
    var x, last := q[i], q[|q| - 1];
    && now as int - x.receivedAt as int >= target
    && (x.packet.stream.kind == Video && c.requireKeyframe ==> x.packet.keyframe)
    && (target > 0 ==> last.receivedAt as int - x.receivedAt as int >= target)
    && Steady(c, last.receivedAt, now)
    && (forall j :: i < j < |q| ==> Steady(c, q[j - 1].receivedAt, q[j].receivedAt))
  }

  predicate OpensNewest(c: Config, q: Queue, i: nat, now: i64, target: nat) {
    Opens(c, q, i, now, target) && forall j :: i < j < |q| ==> !Opens(c, q, j, now, target)
  }

  predicate HasOpening(c: Config, q: Queue, now: i64, target: nat) {
    exists i :: 0 <= i < |q| && Opens(c, q, i, now, target)
  }

  lemma EligibleOpens(c: Config, q: Queue, i: nat, now: i64, target: nat)
    requires Arrived(q) && i < |q| && q[|q| - 1].receivedAt <= now && target <= MAX64
    requires !(c.maxGap != 0 && Elapsed(now, q[|q| - 1].receivedAt) > c.maxGap)
    ensures Eligible(c, q, i, now, target) <==> Opens(c, q, i, now, target)
  {
    hide Anchor;
    assert q[i].receivedAt <= q[|q| - 1].receivedAt;
    GapsSteady(c, q, i);
    AnchorIs(c, q[i]);
  }

  lemma AnchorIs(c: Config, x: Queued)
    ensures Anchor(c, x) <==> (x.packet.stream.kind == Video && c.requireKeyframe ==> x.packet.keyframe)
  {
  }

  lemma GapsSteady(c: Config, q: Queue, i: nat)
    requires Arrived(q) && i < |q|
    ensures Continuous(c, q, i) <==> forall j :: i < j < |q| ==> Steady(c, q[j - 1].receivedAt, q[j].receivedAt)
  {
    forall j | i < j < |q| ensures Steady(c, q[j - 1].receivedAt, q[j].receivedAt)
                                   <==> c.maxGap == 0 || Elapsed(q[j].receivedAt, q[j - 1].receivedAt) <= c.maxGap
    {
      assert q[j - 1].receivedAt <= q[j].receivedAt;
    }
  }

  /** A lane has a start exactly when it can open, and then its newest opening. */
  lemma StartIsNewest(c: Config, q: Queue, now: i64, target: nat)
    requires Arrived(q) && q != [] && q[|q| - 1].receivedAt <= now && target <= MAX64
    ensures var start := LaneStart(c, q, now, target);
            && (start.Some? <==> HasOpening(c, q, now, target))
            && (start.Some? ==> OpensNewest(c, q, start.value, now, target))
  {
    hide Eligible, Opens;
    if c.maxGap != 0 && Elapsed(now, q[|q| - 1].receivedAt) > c.maxGap {
      forall i | 0 <= i < |q| ensures !Opens(c, q, i, now, target) {
        QuietShut(c, q, i, now, target);
      }
    } else {
      forall i | 0 <= i < |q| ensures Eligible(c, q, i, now, target) <==> Opens(c, q, i, now, target) {
        EligibleOpens(c, q, i, now, target);
      }
    }
  }

  lemma QuietShut(c: Config, q: Queue, i: nat, now: i64, target: nat)
    requires i < |q| && c.maxGap != 0 && Elapsed(now, q[|q| - 1].receivedAt) > c.maxGap && q[|q| - 1].receivedAt <= now
    ensures !Opens(c, q, i, now, target)
  {
  }

  // ---------------------------------------------------------------------
  // The commit

  /** The lane's place in the buffer to open on. */
  predicate LaneOpen(c: Config, s: State, now: i64, k: StreamKey) {
    k in s.queues && HasOpening(c, s.queues[k], now, s.target)
  }

  /** Every required lane, or without a list of them every buffered one, can open, and there is one. */
  predicate AllOpen(c: Config, s: State, now: i64) {
    && (forall k :: k in c.required ==> LaneOpen(c, s, now, k))
    && (c.required == {} ==> forall k :: k in s.queues ==> LaneOpen(c, s, now, k))
    && (exists k :: k in s.queues && LaneOpen(c, s, now, k))
  }

  lemma LaneStarts(c: Config, s: State, now: i64, n: nat)
    requires c.Valid() && Ok(c, s, n) && s.lastObserved == Some(now)
    ensures forall k :: k in s.queues ==> s.queues[k] != [] && (LaneStart(c, s.queues[k], now, s.target).Some? <==> LaneOpen(c, s, now, k))
    ensures forall k :: k in s.queues && LaneStart(c, s.queues[k], now, s.target).Some? ==>
              OpensNewest(c, s.queues[k], LaneStart(c, s.queues[k], now, s.target).value, now, s.target)
  {
    hide DistinctLanes, DistinctPending, OneGeneration, CapsOk, HorizonsOk, ModesOk, LaneStart, OpensNewest, HasOpening;
    forall k | k in s.queues
      ensures s.queues[k] != [] && (LaneStart(c, s.queues[k], now, s.target).Some? <==> LaneOpen(c, s, now, k))
      ensures LaneStart(c, s.queues[k], now, s.target).Some? ==>
                OpensNewest(c, s.queues[k], LaneStart(c, s.queues[k], now, s.target).value, now, s.target)
    {
      var q := s.queues[k];
      assert LaneOk(c, k, q, n, s.lastObserved);
      assert ItemOk(c, q[|q| - 1], n, s.lastObserved);
      StartIsNewest(c, q, now, s.target);
    }
  }

  lemma ReadyIsOpen(c: Config, s: State, now: i64, n: nat)
    requires c.Valid() && Ok(c, s, n) && s.lastObserved == Some(now)
    ensures PlanReady(c, s, now) <==> AllOpen(c, s, now)
  {
    hide Ok, LaneStart, HasOpening, OpensNewest;
    LaneStarts(c, s, now, n);
  }

  /** The committed buffer: of every lane that can open, what is from its newest opening on, and nothing else. */
  ghost predicate CutTo(c: Config, s: State, now: i64, r: State) {
    && (forall k :: k in r.queues <==> k in s.queues && LaneOpen(c, s, now, k))
    && (forall k :: k in r.queues && k in s.queues ==>
          exists i :: 0 <= i < |s.queues[k]| && OpensNewest(c, s.queues[k], i, now, s.target) && r.queues[k] == s.queues[k][i..])
  }

  lemma PlanCutsTo(c: Config, s: State, now: i64, n: nat)
    requires c.Valid() && Ok(c, s, n) && s.lastObserved == Some(now)
    ensures CutTo(c, s, now, ApplyPlan(c, s, now))
  {
    hide Ok, LaneStart, HasOpening, OpensNewest;
    LaneStarts(c, s, now, n);
  }

  /** The packet is shown the delay later or more, rounded to its ticks. */
  predicate PutOff(delay: nat, p: Packet, offset: int) {
    1000 * offset > delay * p.tb.den - 500
  }

  /** The first packet of each lane is put off by the delay, and the newest one is what the other lanes wait for. */
  predicate Opened(s: State) {
    forall k :: k in s.queues && s.queues[k] != [] ==> LaneOpened(s, k)
  }

  predicate LaneOpened(s: State, k: StreamKey)
    requires k in s.queues && s.queues[k] != []
  {
    var q := s.queues[k]; var last := q[|q| - 1].packet;
    && k in s.offsets && PutOff(s.target, q[0].packet, s.offsets[k])
    && k in s.latest && s.latest[k].tb == last.tb
    && s.latest[k].value as int == last.dts as int + (if last.stream in s.offsets then s.offsets[last.stream] as int else 0)
  }

  lemma AcceptablePutOff(s: State, p: Packet, delay: nat, offset: int)
    requires DelayTicks(delay, p.tb).Some? && Acceptable(s, p, DelayTicks(delay, p.tb).value, offset)
    ensures PutOff(delay, p, offset)
  {
    DelayTicksRounds(delay, p.tb);
  }

  lemma EpochOpens(s: State)
    requires HorizonsOk(s) && BeginEpoch(s).Some?
    ensures var r := BeginEpoch(s).value; Opened(r) && r == s.(offsets := r.offsets, latest := r.latest)
  {
    hide UnifiedOffsets, DelayTicks, Acceptable, LaneOpened, HorizonsOk, PutOff;
    var fronts := QueueFronts(s.queues);
    var offsets := UnifiedOffsets(s, fronts, s.target).value;
    var r := BeginEpoch(s).value;
    forall k | k in r.queues && r.queues[k] != [] ensures LaneOpened(r, k) {
      UnifiedAcceptable(s, fronts, s.target, k);
      UnifiedBase(s, fronts, s.target, k);
      AcceptablePutOff(s, fronts[k], s.target, offsets[k]);
      LaneDated(s, r, offsets, k);
    }
  }

  lemma UnifiedBase(s: State, fronts: Fronts, delay: int, k: StreamKey)
    requires UnifiedOffsets(s, fronts, delay).Some? && k in fronts
    ensures DelayTicks(delay, fronts[k].tb).Some?
  {
    hide EpochOffset, UnifiedOffsets, DelayTicks;
    UnifiedDefined(s, fronts, delay);
    OffsetHasBase(s, fronts[k], delay);
  }

  lemma LaneDated(s: State, r: State, offsets: map<StreamKey, i64>, k: StreamKey)
    requires k in s.queues && s.queues[k] != [] && r == s.(offsets := offsets, latest := r.latest)
    requires k in offsets && PutOff(s.target, s.queues[k][0].packet, offsets[k])
    requires k in r.latest && Ordering(s.(offsets := offsets), s.queues[k][|s.queues[k]| - 1].packet) == Some(r.latest[k])
    ensures LaneOpened(r, k)
  {
    hide PutOff;
  }

  /** A committed epoch puts the lanes off no longer than the delay and what was shown before require. */
  lemma EpochTight(s: State)
    requires HorizonsOk(s) && BeginEpoch(s).Some? && QueueFronts(s.queues) != map[]
    ensures Tight(s, QueueFronts(s.queues), s.target, BeginEpoch(s).value.offsets)
  {
    hide UnifiedOffsets, Ordering, Tight, HorizonsOk;
    UnifiedTight(s, QueueFronts(s.queues), s.target);
  }

  /** What a commit comes to, in every state of a fill. */
  lemma CommitExactly(c: Config, s: State, now: i64, left: map<StreamKey, i64>, n: nat)
    requires c.Valid() && Ok(c, s, n) && s.mode == Filling && !Regresses(s, now)
    ensures var s1 := s.(lastObserved := Some(now)); var r := DoCommitDelayed(c, s, now, left);
            if !AllOpen(c, s1, now) then r == s1
            else
              r.mode == Failed ||
              (r.mode == Delayed && CutTo(c, s1, now, r) && Opened(r) && r.target == s.target
               && r.active == c.required + r.queues.Keys && r.seen == s.seen)
  {
    hide Ok, AllOpen, CutTo, Opened, PlanReady, ApplyPlan, BeginEpoch, EnterError, LaneStart;
    OkClock(c, s, now, n);
    var s1 := s.(lastObserved := Some(now));
    assert Observe(s, now) == s1;
    ReadyIsOpen(c, s1, now, n);
    if AllOpen(c, s1, now) {
      PlanCutsTo(c, s1, now, n);
      CutParts(c, s1, now, n);
      PlanRest(c, s1, now);
      var cut := ApplyPlan(c, s1, now);
      ErrorHolds(cut.(offsets := left), DelayedEpoch);
      if BeginEpoch(cut).Some? {
        EpochOpens(cut);
        CommittedIs(c, s1, now, cut, BeginEpoch(cut).value, DoCommitDelayed(c, s, now, left));
      }
    }
  }

  lemma PlanRest(c: Config, s: State, now: i64)
    ensures var cut := ApplyPlan(c, s, now); cut.target == s.target && cut.seen == s.seen && cut.mode == s.mode
  {
    hide LaneStart;
  }

  lemma CommittedIs(c: Config, s: State, now: i64, cut: State, e: State, r: State)
    requires CutTo(c, s, now, cut) && Opened(e) && e == cut.(offsets := e.offsets, latest := e.latest)
    requires r == e.(active := c.required + e.queues.Keys, preparingChange := false, originDelayed := false,
                     pendingTarget := e.target, mode := Delayed)
    ensures CutTo(c, s, now, r) && Opened(r) && r.target == cut.target && r.seen == cut.seen
    ensures r.active == c.required + r.queues.Keys && r.mode == Delayed
  {
    hide OpensNewest, LaneOpen, PutOff;
    assert r.queues == cut.queues;
    forall k | k in r.queues && r.queues[k] != [] ensures LaneOpened(r, k) {
      assert LaneOpened(e, k);
    }
  }

  /** Over every run: a commit of a fill is accepted only where all lanes can open, changes nothing but the clock where
      one cannot, and then cuts each lane to its newest opening and puts it off by the delay. */
  lemma EveryCommitCuts(c: Config, ops: seq<Op>, now: i64, left: map<StreamKey, i64>)
    requires c.Valid() && Play(c, ops).state.mode == Filling && !Regresses(Play(c, ops).state, now)
    ensures var s := Play(c, ops).state.(lastObserved := Some(now)); var r := Play(c, ops + [CommitDelayed(now, left)]).state;
            if !AllOpen(c, s, now) then r == s
            else
              r.mode == Failed ||
              (r.mode == Delayed && CutTo(c, s, now, r) && Opened(r) && r.target == s.target
               && r.active == c.required + r.queues.Keys && r.seen == s.seen)
  {
    hide Ok, AllOpen, CutTo, Opened, DoCommitDelayed, Conserved;
    EveryRunConserves(c, ops);
    ConservedOk(c, Play(c, ops));
    assert (ops + [CommitDelayed(now, left)])[..|ops|] == ops;
    CommitExactly(c, Play(c, ops).state, now, left, Play(c, ops).next);
  }

  lemma OffsetFits(s: State, p: Packet, delay: int)
    requires EpochOffset(s, p, delay).Some?
    ensures Shiftable(p, EpochOffset(s, p, delay).value) && p.tb.Valid()
  {
    hide LeastTick;
  }

  /** A lane that comes in while the delay runs is put off by it as well. */
  lemma NewLanePutOff(s: State, p: Packet)
    requires HorizonsOk(s) && EpochActive(s) && p.stream !in s.offsets && WithOffset(s, p).Some?
    ensures var r := WithOffset(s, p).value; p.stream in r.offsets && PutOff(s.target, p, r.offsets[p.stream])
  {
    hide EpochOffset, DelayTicks, Acceptable, EpochActive, PutOff, HorizonsOk;
    var offset := EpochOffset(s, p, s.target).value;
    OffsetHasBase(s, p, s.target);
    OffsetFits(s, p, s.target);
    EpochOffsetOptimal(s, p, s.target, DelayTicks(s.target, p.tb).value, offset);
    AcceptablePutOff(s, p, s.target, offset);
  }
}
