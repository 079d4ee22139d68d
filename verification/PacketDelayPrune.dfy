/** Pruning is invisible to cut plans. */
module PacketDelayPrune {
  // For a fixed target the plan drawn from the pruned lanes is the plan that would be drawn had nothing
  // ever been pruned.

  import opened Options
  import opened Timestamps
  import opened PacketTypes
  import opened PacketDelaySpec
  import opened PacketDelayStep
  import opened PacketDelayInvariant
  import opened PacketDelayRun
  import opened PacketDelayDecode
  import opened PacketDelayResults

  /** Retention covers every packet that a cut for this target may still need. */
  predicate Covers(c: Config, target: nat) {
    target <= c.maxDelay && (target == 0 || 0 < c.maxGap <= c.headroom)
  }

  /** The lane lost a prefix, up to an anchor that was older than the retention window at some time. */
  ghost predicate PrunedTo(c: Config, full: Queue, kept: Queue, at: i64, target: nat) {
    && kept != [] && |kept| <= |full| && kept == full[|full| - |kept|..]
    && (|kept| < |full| ==> Anchor(c, kept[0]) && Due(at, kept[0].receivedAt, target + c.headroom))
  }

  ghost predicate Timely(q: Queue, now: i64) {
    && Arrived(q) && forall i :: 0 <= i < |q| ==> q[i].receivedAt <= now
  }

  /** Eligibility of a packet depends on nothing before it. */
  lemma EligibleShift(c: Config, full: Queue, drop: nat, i: nat, now: i64, target: nat)
    requires drop + i < |full|
    ensures Eligible(c, full[drop..], i, now, target) <==> Eligible(c, full, drop + i, now, target)
  {
    var q := full[drop..];
    if Continuous(c, q, i) {
      forall j | drop + i < j < |full| && c.maxGap != 0
        ensures Elapsed(full[j].receivedAt, full[j - 1].receivedAt) <= c.maxGap
      {
        assert q[j - drop] == full[j] && q[j - drop - 1] == full[j - 1];
      }
    }
    if Continuous(c, full, drop + i) {
      forall j | i < j < |q| && c.maxGap != 0 ensures Elapsed(q[j].receivedAt, q[j - 1].receivedAt) <= c.maxGap {
        assert q[j] == full[drop + j] && q[j - 1] == full[drop + j - 1];
      }
    }
  }

  /** The anchor that pruning kept qualifies whenever an older packet does. */
  lemma AnchorQualifies(c: Config, full: Queue, drop: nat, i: nat, at: i64, now: i64, target: nat)
    requires c.Valid() && Covers(c, target) && Timely(full, now) && at <= now
    requires i < drop < |full| && Anchor(c, full[drop]) && Due(at, full[drop].receivedAt, target + c.headroom)
    requires target != 0 ==> Elapsed(now, full[|full| - 1].receivedAt) <= c.maxGap
    requires Eligible(c, full, i, now, target)
    ensures Eligible(c, full, drop, now, target)
  {
    var kept, last := full[drop].receivedAt, full[|full| - 1].receivedAt;
    assert kept <= last <= now;
  }

  lemma {:induction false} NewestUnique(c: Config, q: Queue, now: i64, target: nat, n: nat, i: nat)
    requires i < n <= |q| && Eligible(c, q, i, now, target)
    requires forall j :: i < j < n ==> !Eligible(c, q, j, now, target)
    ensures NewestEligible(c, q, now, target, n) == Some(i)
  {
    if n - 1 != i {
      NewestUnique(c, q, now, target, n - 1, i);
    }
  }

  lemma FoundInKept(c: Config, full: Queue, drop: nat, now: i64, target: nat)
    requires drop < |full| && NewestEligible(c, full[drop..], now, target, |full| - drop).Some?
    ensures var b := NewestEligible(c, full[drop..], now, target, |full| - drop).value;
            NewestEligible(c, full, now, target, |full|) == Some(drop + b)
  {
    hide Eligible;
    var b := NewestEligible(c, full[drop..], now, target, |full| - drop).value;
    EligibleShift(c, full, drop, b, now, target);
    forall j | drop + b < j < |full| ensures !Eligible(c, full, j, now, target) {
      EligibleShift(c, full, drop, j - drop, now, target);
    }
    NewestUnique(c, full, now, target, |full|, drop + b);
  }

  lemma NoneInKept(c: Config, full: Queue, drop: nat, at: i64, now: i64, target: nat)
    requires c.Valid() && Covers(c, target) && Timely(full, now) && at <= now && drop < |full|
    requires drop > 0 ==> Anchor(c, full[drop]) && Due(at, full[drop].receivedAt, target + c.headroom)
    requires target != 0 ==> Elapsed(now, full[|full| - 1].receivedAt) <= c.maxGap
    requires NewestEligible(c, full[drop..], now, target, |full| - drop).None?
    ensures NewestEligible(c, full, now, target, |full|).None?
  {
    hide Eligible, Timely, Anchor, Due;
    EligibleShift(c, full, drop, 0, now, target);
    forall i: nat | i < |full| ensures !Eligible(c, full, i, now, target) {
      if i >= drop {
        EligibleShift(c, full, drop, i - drop, now, target);
      } else if Eligible(c, full, i, now, target) {
        AnchorQualifies(c, full, drop, i, at, now, target);
      }
    }
  }

  /** One lane: the same packet is chosen, at its shifted position, or none in both. */
  lemma LanePlanUnchanged(c: Config, full: Queue, kept: Queue, at: i64, now: i64, target: nat)
    requires c.Valid() && Covers(c, target) && Timely(full, now) && at <= now
    requires PrunedTo(c, full, kept, at, target)
    ensures var a, b := LaneStart(c, full, now, target), LaneStart(c, kept, now, target);
            a.Some? == b.Some? && (a.Some? ==> a.value == b.value + |full| - |kept| && full[a.value..] == kept[b.value..])
  {
    hide NewestEligible, Timely, Anchor;
    var drop := |full| - |kept|;
    assert kept[|kept| - 1] == full[|full| - 1];
    if !(c.maxGap != 0 && Elapsed(now, full[|full| - 1].receivedAt) > c.maxGap) {
      if NewestEligible(c, kept, now, target, |kept|).Some? {
        FoundInKept(c, full, drop, now, target);
      } else {
        NoneInKept(c, full, drop, at, now, target);
      }
    }
  }

  // ---------------------------------------------------------------------
  // A fill and its unpruned shadow

  /** The buffered lanes are what pruning left of the full ones, up to the current clock. */
  ghost predicate Shadows(c: Config, full: Queues, s: State) {
    && full.Keys == s.queues.Keys && s.lastObserved.Some?
    && forall k :: k in full ==> LaneShadows(c, full[k], s.queues[k], s.lastObserved.value, s.target)
  }

  ghost predicate LaneShadows(c: Config, full: Queue, kept: Queue, clock: i64, target: nat) {
    Timely(full, clock) && exists at: i64 :: at <= clock && PrunedTo(c, full, kept, at, target)
  }

  lemma LaterClock(c: Config, full: Queue, kept: Queue, clock: i64, later: i64, target: nat)
    requires LaneShadows(c, full, kept, clock, target) && clock <= later
    ensures LaneShadows(c, full, kept, later, target)
  {
    var at: i64 :| at <= clock && PrunedTo(c, full, kept, at, target);
    assert PrunedTo(c, full, kept, at, target) && at <= later;
  }

  lemma PruneLane(c: Config, full: Queue, kept: Queue, now: i64, target: nat, retention: int)
    requires LaneShadows(c, full, kept, now, target) && retention >= target + c.headroom
    ensures LaneShadows(c, full, PruneQueue(c, kept, now, retention), now, target)
  {
    hide Timely, PrunedTo, KeepIndex;
    var at: i64 :| at <= now && PrunedTo(c, full, kept, at, target);
    KeepIndexAnchored(c, kept, now, retention, |kept|);
    var i := KeepIndex(c, kept, now, retention, |kept|);
    if i == 0 {
      assert kept[0..] == kept;
    } else {
      PrunedFurther(c, full, kept, at, now, target, retention, i);
    }
  }

  lemma PrunedFurther(c: Config, full: Queue, kept: Queue, at: i64, now: i64, target: nat, retention: int, i: nat)
    requires PrunedTo(c, full, kept, at, target) && retention >= target + c.headroom
    requires i < |kept| && Anchor(c, kept[i]) && Due(now, kept[i].receivedAt, retention)
    ensures PrunedTo(c, full, kept[i..], now, target)
  {
    hide Anchor;
    assert kept[i..] == full[|full| - |kept| + i..];
  }

  lemma AppendLaneShadow(c: Config, full: Queue, kept: Queue, x: Queued, clock: i64, target: nat)
    requires LaneShadows(c, full, kept, clock, target) && x.receivedAt == clock
    requires forall i :: 0 <= i < |full| ==> full[i].sequence < x.sequence
    ensures LaneShadows(c, full + [x], kept + [x], clock, target)
  {
    var at: i64 :| at <= clock && PrunedTo(c, full, kept, at, target);
    assert PrunedTo(c, full + [x], kept + [x], at, target);
  }

  lemma NewLaneShadow(c: Config, x: Queued, clock: i64, target: nat)
    requires x.receivedAt == clock
    ensures LaneShadows(c, [x], [x], clock, target)
  {
    assert PrunedTo(c, [x], [x], clock, target);
  }

  ghost predicate Numbered(full: Queues, n: nat) {
    forall k :: k in full ==> Below(full[k], n)
  }

  ghost predicate Below(q: Queue, n: nat) {
    forall i :: 0 <= i < |q| ==> q[i].sequence < n
  }

  lemma ShadowsPrune(c: Config, full: Queues, s: State)
    requires Shadows(c, full, s)
    ensures Shadows(c, full, Prune(c, s, s.lastObserved.value))
  {
    hide LaneShadows, PruneQueue;
    var now := s.lastObserved.value;
    var r := Prune(c, s, now);
    forall k | k in full ensures LaneShadows(c, full[k], r.queues[k], now, s.target) {
      PruneLane(c, full[k], s.queues[k], now, s.target, Retention(c, s));
    }
  }

  lemma ShadowsAppend(c: Config, full: Queues, s: State, r: State, x: Queued)
    requires Shadows(c, full, s) && Numbered(full, x.sequence) && s.lastObserved == Some(x.receivedAt)
    requires r.queues == Appended(s.queues, x) && r.lastObserved == s.lastObserved && r.target == s.target
    ensures Shadows(c, Appended(full, x), r) && Numbered(Appended(full, x), x.sequence + 1)
  {
    hide LaneShadows;
    var k := x.packet.stream;
    var grown := Appended(full, x);
    forall j | j in grown ensures LaneShadows(c, grown[j], r.queues[j], x.receivedAt, s.target) {
      if j == k && k in full {
        AppendLaneShadow(c, full[k], s.queues[k], x, x.receivedAt, s.target);
      } else if j == k {
        assert [] + [x] == [x];
        NewLaneShadow(c, x, x.receivedAt, s.target);
      }
    }
    forall j | j in grown ensures Below(grown[j], x.sequence + 1) {
      if j in full { assert Below(full[j], x.sequence); }
    }
  }

  lemma ShadowsClock(c: Config, full: Queues, s: State, now: i64)
    requires Shadows(c, full, s) && !Regresses(s, now)
    ensures Shadows(c, full, Observe(s, now))
  {
    hide LaneShadows;
    forall k | k in full ensures LaneShadows(c, full[k], s.queues[k], now, s.target) {
      LaterClock(c, full[k], s.queues[k], s.lastObserved.value, now, s.target);
    }
  }

  /** The calls that leave a fill to itself: all but accepted requests, which retarget, commit or end it. */
  ghost predicate FillOp(c: Config, s: State, op: Op) {
    Request(op) ==> Result(c, s, op) != Accepted
  }

  /** The calls that touch the buffer or the clock and give no answer. */
  predicate BufferOp(op: Op) {
    op.Push? || op.Poll? || op.PruneNow?
  }

  function FullAfter(c: Config, full: Queues, op: Op, n: nat): Queues {
    if op.Push? then Appended(full, NewItem(c, op.packet, op.now, n)) else full
  }

  lemma ShadowsPush(c: Config, full: Queues, s: State, p: Packet, now: i64, n: nat)
    requires c.Valid() && Ok(c, s, n) && s.mode == Filling && s.lastObserved == Some(now)
    requires Shadows(c, full, s) && Numbered(full, n) && Enqueue(c, s, p, now, n).ok
    ensures var x := NewItem(c, p, now, n);
            Shadows(c, Appended(full, x), Prune(c, Enqueue(c, s, p, now, n).state, now)) && Numbered(Appended(full, x), n + 1)
  {
    hide Enqueue, Prune, Ok, Shadows, Numbered;
    EnqueueQueues(c, s, p, now, n);
    EnqueueClock(c, s, p, now, n);
    ShadowsPrune(c, full, s);
    PruneClock(c, s, now);
    var r := Enqueue(c, s, p, now, n).state;
    ShadowsAppend(c, full, Prune(c, s, now), r, NewItem(c, p, now, n));
    ShadowsPrune(c, Appended(full, NewItem(c, p, now, n)), r);
  }

  lemma PruneClock(c: Config, s: State, now: i64)
    ensures var r := Prune(c, s, now);
            r.lastObserved == s.lastObserved && r.target == s.target && r.mode == s.mode
  {
    hide PruneQueue;
  }

  lemma EnqueueClock(c: Config, s: State, p: Packet, now: i64, n: nat)
    requires Enqueue(c, s, p, now, n).ok
    ensures var r := Enqueue(c, s, p, now, n).state;
            r.lastObserved == s.lastObserved && r.target == s.target
  {
    hide PrepareStream, EpochOffset, OverCapacity, Prune, Ordering;
    PrepareClock(c, s, p.stream);
    var based := WithOffset(PrepareStream(c, s, p.stream).state, p).value;
    PruneClock(c, based, now);
  }

  lemma PrepareClock(c: Config, s: State, stream: StreamKey)
    ensures var r := PrepareStream(c, s, stream);
            r.ok ==> r.state.lastObserved == s.lastObserved && r.state.target == s.target
  {
    hide HasOldGeneration;
    if Timeline(stream) !in s.known && |s.known| >= c.maxStreams {
    } else if HasOldGeneration(s.(known := s.known + {Timeline(stream)}), stream) {
    }
  }

  /** A call of a fill that is no push, poll or prune only tells the time or notes an external output. */
  lemma OtherFillOp(c: Config, s: State, op: Op, n: nat)
    requires s.mode == Filling && FillOp(c, s, op) && !BufferOp(op) && Step(c, s, op, n).state.mode == Filling
    ensures var r := Step(c, s, op, n).state;
            && r.queues == s.queues && r.target == s.target
            && (r.lastObserved == s.lastObserved || (!op.External? && !op.ReportError? && !Regresses(s, op.now) && r == Observe(s, op.now)))
  {
    hide Result, EnterError;
    if Request(op) {
      RefusedOnlyTellsTime(c, s, op, n);
      Failing(s, ClockRegression);
    } else if op.External? {
      ExternalFills(c, s, op.packet);
    } else {
      Failing(s, Reported);
    }
  }

  lemma ExternalFills(c: Config, s: State, p: Packet)
    requires DoExternal(c, s, p).mode == Filling
    ensures var r := DoExternal(c, s, p); r.queues == s.queues && r.target == s.target && r.lastObserved == s.lastObserved
  {
    hide EnterError, RegressesOutput;
    Failing(s, TooManyTimelines);
    Failing(s.(known := s.known + {Timeline(p.stream)}), ExternalOutput);
  }

  /** Every call of a fill keeps the shadow. */
  lemma ShadowsStep(c: Config, full: Queues, s: State, op: Op, n: nat)
    requires c.Valid() && Ok(c, s, n) && s.mode == Filling && FillOp(c, s, op)
    requires Shadows(c, full, s) && Numbered(full, n) && Step(c, s, op, n).state.mode == Filling
    ensures Shadows(c, FullAfter(c, full, op, n), Step(c, s, op, n).state)
    ensures Numbered(FullAfter(c, full, op, n), NextSequence(op, n))
  {
    hide Step, Ok, Numbered, LaneShadows, Observe, FillOp;
    if BufferOp(op) {
      ShadowsBuffer(c, full, s, op, n);
    } else {
      OtherFillOp(c, s, op, n);
      if Step(c, s, op, n).state.lastObserved != s.lastObserved {
        ShadowsClock(c, full, s, op.now);
      }
    }
  }

  lemma ShadowsBuffer(c: Config, full: Queues, s: State, op: Op, n: nat)
    requires c.Valid() && Ok(c, s, n) && s.mode == Filling && BufferOp(op)
    requires Shadows(c, full, s) && Numbered(full, n) && Step(c, s, op, n).state.mode == Filling
    ensures Shadows(c, FullAfter(c, full, op, n), Step(c, s, op, n).state)
    ensures Numbered(FullAfter(c, full, op, n), NextSequence(op, n))
  {
    hide Enqueue, Prune, Ok, Shadows, Numbered, Bypassed, Drain, RetimestampLive;
    assert !Regresses(s, op.now) by { NoRegress(c, s, op, n); }
    ShadowsClock(c, full, s, op.now);
    OkClock(c, s, op.now, n);
    var s1 := Observe(s, op.now);
    if op.Push? {
      if !Enqueue(c, s1, op.packet, op.now, n).ok {
        RejectFails(c, s1, op.packet, op.now, n);
        LiveFails(c, Enqueue(c, s1, op.packet, op.now, n).state, op.packet, op.now, n);
      } else {
        ShadowsPush(c, full, s1, op.packet, op.now, n);
      }
    } else {
      ShadowsPrune(c, full, s1);
    }
  }

  lemma LiveFails(c: Config, s: State, p: Packet, now: i64, n: nat)
    requires s.mode == Failed
    ensures RetimestampLive(c, s, p).state.mode == Failed
    ensures Bypassed(c, s, p, now, n, FailOpenTimestamps).state.mode == Failed
  {
    hide EpochOffset, PrepareStream;
    PrepareMode(c, s, p.stream);
  }

  lemma NoRegress(c: Config, s: State, op: Op, n: nat)
    requires BufferOp(op) && Step(c, s, op, n).state.mode == Filling
    ensures !Regresses(s, op.now)
  {
    hide Enqueue, Prune, Drain, RetimestampLive, PushBuffered, PushCommitted;
    if Regresses(s, op.now) && op.Push? {
      LiveFails(c, Observe(s, op.now), op.packet, op.now, n);
    }
  }

  // ---------------------------------------------------------------------
  // The plan of the whole fill

  /** What a fill of several calls makes of a state and of its unpruned shadow. */
  ghost function Filled(c: Config, s: State, n: nat, ops: seq<Op>): State
    decreases |ops|
  {
    if ops == [] then s else Filled(c, Step(c, s, ops[0], n).state, NextSequence(ops[0], n), ops[1..])
  }

  ghost function Unpruned(c: Config, full: Queues, n: nat, ops: seq<Op>): Queues
    decreases |ops|
  {
    if ops == [] then full else Unpruned(c, FullAfter(c, full, ops[0], n), NextSequence(ops[0], n), ops[1..])
  }

  ghost predicate KeepsFilling(c: Config, s: State, n: nat, ops: seq<Op>)
    decreases |ops|
  {
    s.mode == Filling &&
    (ops != [] ==> FillOp(c, s, ops[0]) && KeepsFilling(c, Step(c, s, ops[0], n).state, NextSequence(ops[0], n), ops[1..]))
  }

  ghost predicate SamePlan(c: Config, s: State, full: Queues, now: i64) {
    && PlanReady(c, s, now) == PlanReady(c, s.(queues := full), now)
    && Plan(c, s, now) == Plan(c, s.(queues := full), now)
    && ApplyPlan(c, s, now).queues == ApplyPlan(c, s.(queues := full), now).queues
  }

  lemma ShadowsSamePlan(c: Config, full: Queues, s: State, now: i64)
    requires c.Valid() && Covers(c, s.target) && Shadows(c, full, s) && s.lastObserved.value <= now
    ensures SamePlan(c, s, full, now)
  {
    hide LaneStart;
    forall k | k in full
      ensures var a, b := LaneStart(c, full[k], now, s.target), LaneStart(c, s.queues[k], now, s.target);
              a.Some? == b.Some? && (a.Some? ==> a.value <= |full[k]| && b.value <= |s.queues[k]| && full[k][a.value..] == s.queues[k][b.value..])
      ensures full[k] != [] && s.queues[k] != []
    {
      LaneSame(c, full[k], s.queues[k], s.lastObserved.value, now, s.target);
    }
    var r := s.(queues := full);
    assert PlanReady(c, s, now) == PlanReady(c, r, now) by {
      if s.queues != map[] { assert exists k :: k in s.queues; }
    }
    SameCuts(c, s, full, now);
  }

  lemma SameCuts(c: Config, s: State, full: Queues, now: i64)
    requires full.Keys == s.queues.Keys
    requires forall k :: k in full ==>
      var a, b := LaneStart(c, full[k], now, s.target), LaneStart(c, s.queues[k], now, s.target);
      a.Some? == b.Some? && (a.Some? ==> full[k][a.value..] == s.queues[k][b.value..])
    ensures Plan(c, s, now) == Plan(c, s.(queues := full), now)
    ensures ApplyPlan(c, s, now).queues == ApplyPlan(c, s.(queues := full), now).queues
  {
    forall k | k in full && LaneStart(c, full[k], now, s.target).Some?
      ensures full[k][LaneStart(c, full[k], now, s.target).value]
           == s.queues[k][LaneStart(c, s.queues[k], now, s.target).value]
    {
      var a, b := LaneStart(c, full[k], now, s.target).value, LaneStart(c, s.queues[k], now, s.target).value;
      assert full[k][a..][0] == s.queues[k][b..][0];
    }
  }

  lemma LaneSame(c: Config, full: Queue, kept: Queue, clock: i64, now: i64, target: nat)
    requires c.Valid() && Covers(c, target) && LaneShadows(c, full, kept, clock, target) && clock <= now
    ensures var a, b := LaneStart(c, full, now, target), LaneStart(c, kept, now, target);
            a.Some? == b.Some? && (a.Some? ==> full[a.value..] == kept[b.value..]) && full != [] && kept != []
  {
    var at: i64 :| at <= clock && PrunedTo(c, full, kept, at, target);
    LanePlanUnchanged(c, full, kept, at, now, target);
  }

  lemma {:induction false} FillShadows(c: Config, full: Queues, s: State, n: nat, ops: seq<Op>)
    requires c.Valid() && Ok(c, s, n) && Shadows(c, full, s) && Numbered(full, n) && KeepsFilling(c, s, n, ops)
    ensures Shadows(c, Unpruned(c, full, n, ops), Filled(c, s, n, ops)) && Filled(c, s, n, ops).target == s.target
    decreases |ops|
  {
    hide Step, Ok, Shadows, Numbered, FullAfter;
    if ops != [] {
      ShadowsStep(c, full, s, ops[0], n);
      StepKeeps(c, s, ops[0], n);
      FillTarget(c, s, ops[0], n);
      FillShadows(c, FullAfter(c, full, ops[0], n), Step(c, s, ops[0], n).state, NextSequence(ops[0], n), ops[1..]);
    }
  }

  lemma FillTarget(c: Config, s: State, op: Op, n: nat)
    requires s.mode == Filling && FillOp(c, s, op) && Step(c, s, op, n).state.mode == Filling
    ensures Step(c, s, op, n).state.target == s.target
  {
    hide Step, FillOp;
    if BufferOp(op) {
      BufferTarget(c, s, op, n);
    } else {
      OtherFillOp(c, s, op, n);
    }
  }

  lemma BufferTarget(c: Config, s: State, op: Op, n: nat)
    requires s.mode == Filling && BufferOp(op) && Step(c, s, op, n).state.mode == Filling
    ensures Step(c, s, op, n).state.target == s.target
  {
    hide Enqueue, Prune, Bypassed, Drain, RetimestampLive;
    NoRegress(c, s, op, n);
    var s1 := Observe(s, op.now);
    PruneClock(c, s1, op.now);
    if op.Push? {
      var r := Enqueue(c, s1, op.packet, op.now, n);
      if !r.ok {
        RejectFails(c, s1, op.packet, op.now, n);
        LiveFails(c, r.state, op.packet, op.now, n);
      } else {
        EnqueueClock(c, s1, op.packet, op.now, n);
        PruneClock(c, r.state, op.now);
      }
    }
  }

  /** However often a fill was pruned, the cut is the one an unpruned fill would give. */
  lemma PruningInvisible(c: Config, s: State, n: nat, ops: seq<Op>, now: i64)
    requires c.Valid() && Ok(c, s, n) && Covers(c, s.target) && KeepsFilling(c, s, n, ops) && s.lastObserved.Some?
    requires Filled(c, s, n, ops).lastObserved.Some? && Filled(c, s, n, ops).lastObserved.value <= now
    ensures SamePlan(c, Filled(c, s, n, ops), Unpruned(c, s.queues, n, ops), now)
  {
    hide Filled, Unpruned, KeepsFilling, SamePlan;
    StartsShadowed(c, s, n);
    FillShadows(c, s.queues, s, n, ops);
    ShadowsSamePlan(c, Unpruned(c, s.queues, n, ops), Filled(c, s, n, ops), now);
  }

  lemma StartsShadowed(c: Config, s: State, n: nat)
    requires Ok(c, s, n) && s.lastObserved.Some?
    ensures Shadows(c, s.queues, s) && Numbered(s.queues, n)
  {
    forall k | k in s.queues ensures LaneShadows(c, s.queues[k], s.queues[k], s.lastObserved.value, s.target) && Below(s.queues[k], n) {
      assert LaneOk(c, k, s.queues[k], n, s.lastObserved);
      assert PrunedTo(c, s.queues[k], s.queues[k], s.lastObserved.value, s.target);
    }
  }

  // ---------------------------------------------------------------------
  // Exactly when pruning is invisible

  /** Whenever a lane is pruned for a target, any later cut for that target starts at the same packet. */
  ghost predicate Invisible(c: Config, target: nat) {
    forall full: Queue, at: i64, now: i64 :: full != [] && Timely(full, now) && at <= now ==> SameCut(c, full, at, now, target)
  }

  predicate SameCut(c: Config, full: Queue, at: i64, now: i64, target: nat) {
    var kept := PruneQueue(c, full, at, target + c.headroom);
    var a, b := LaneStart(c, full, now, target), LaneStart(c, kept, now, target);
    a.Some? == b.Some? && (a.Some? ==> full[a.value..] == kept[b.value..])
  }

  lemma CoveredSame(c: Config, full: Queue, at: i64, now: i64, target: nat)
    requires c.Valid() && Covers(c, target) && full != [] && Timely(full, now) && at <= now
    ensures SameCut(c, full, at, now, target)
  {
    hide LaneStart, Timely, Anchor, KeepIndex, Covers;
    var i := KeepIndex(c, full, at, target + c.headroom, |full|);
    KeepIndexAnchored(c, full, at, target + c.headroom, |full|);
    if i == 0 {
      assert full[0..] == full;
    }
    LanePlanUnchanged(c, full, full[i..], at, now, target);
  }

  /** An audio lane with one packet a tick, the first of them just old enough to span the target. */
  function Ticking(target: nat): Queue
    requires target <= MAX64
  {
    seq(target + 1, i requires 0 <= i <= target =>
      Queued(Packet(StreamKey(Audio, 0, 0), 0, 0, TimeBase(1, 1), false, 0), i - 1, i, 0))
  }

  lemma {:induction false} TickingKeep(c: Config, target: nat, n: nat)
    requires c.Valid() && 0 < target <= c.maxDelay && 2 <= n <= target + 1
    ensures KeepIndex(c, Ticking(target), target + c.headroom, target + c.headroom, n) == 1
  {
    var q, now := Ticking(target), target + c.headroom;
    if n > 2 {
      assert !Due(now, q[2].receivedAt, now);
      TickingKeep(c, target, n - 1);
    }
  }

  lemma {:induction false} NoneEligible(c: Config, q: Queue, now: i64, target: nat, n: nat)
    requires n <= |q| && target != 0
    requires forall i :: 0 <= i < n ==> Elapsed(q[|q| - 1].receivedAt, q[i].receivedAt) < target
    ensures NewestEligible(c, q, now, target, n).None?
  {
    if n > 0 {
      NoneEligible(c, q, now, target, n - 1);
    }
  }

  lemma TickingTimely(target: nat, now: i64)
    requires target <= MAX64 && target <= now + 1
    ensures Timely(Ticking(target), now)
  {
  }

  lemma TickingEligible(c: Config, target: nat)
    requires c.Valid() && 0 < target <= c.maxDelay && !(0 < c.maxGap <= c.headroom)
    ensures LaneStart(c, Ticking(target), target + c.headroom, target).Some?
  {
    hide NewestEligible;
    var full, now: i64 := Ticking(target), target + c.headroom;
    assert full[0].receivedAt == -1 && full[|full| - 1].receivedAt == target - 1;
    assert Eligible(c, full, 0, now, target);
  }

  lemma TickingPruned(c: Config, target: nat)
    requires c.Valid() && 0 < target <= c.maxDelay
    ensures LaneStart(c, PruneQueue(c, Ticking(target), target + c.headroom, target + c.headroom), target + c.headroom, target).None?
  {
    hide KeepIndex, NewestEligible;
    var now: i64 := target + c.headroom;
    TickingKeep(c, target, target + 1);
    var kept := Ticking(target)[1..];
    assert PruneQueue(c, Ticking(target), now, now) == kept;
    NoneEligible(c, kept, now, target, |kept|);
  }

  /** The lane goes quiet for one tick more than the headroom: pruning drops the only packet old enough. */
  lemma UncoveredDiffers(c: Config, target: nat)
    requires c.Valid() && 0 < target <= c.maxDelay && !(0 < c.maxGap <= c.headroom)
    ensures Timely(Ticking(target), target + c.headroom)
    ensures !SameCut(c, Ticking(target), target + c.headroom, target + c.headroom, target)
  {
    hide LaneStart, PruneQueue, Ticking, Timely;
    TickingTimely(target, target + c.headroom);
    TickingEligible(c, target);
    TickingPruned(c, target);
  }

  /** Pruning is invisible to cut planning exactly when no delay is asked for, or gaps are checked and stay within the headroom. */
  lemma InvisibleExactly(c: Config, target: nat)
    requires c.Valid() && target <= c.maxDelay
    ensures Invisible(c, target) <==> target == 0 || 0 < c.maxGap <= c.headroom
  {
    hide SameCut, Timely, Ticking;
    if target == 0 || 0 < c.maxGap <= c.headroom {
      forall full: Queue, at: i64, now: i64 | full != [] && Timely(full, now) && at <= now
        ensures SameCut(c, full, at, now, target)
      {
        CoveredSame(c, full, at, now, target);
      }
    } else {
      UncoveredDiffers(c, target);
      TickingSome(target);
    }
  }

  lemma TickingSome(target: nat)
    requires target <= MAX64
    ensures Ticking(target) != []
  {
  }
}
