/** Where the delayed output stops on its way back to live. */
module PacketDelayGate {
  // The gate of a return in terms of what is buffered: a packet stops at the gate exactly when every awaited video
  // lane has its cut or has gone quiet and the packet is at or past its own lane's cut, or arrived no earlier than
  // the earliest cut.

  import opened Options
  import opened Timestamps
  import opened PacketTypes
  import opened PacketDelaySpec
  import opened PacketDelayStep
  import opened PacketDelayInvariant
  import opened PacketDelayKeep
  import opened PacketDelayRun
  import opened PacketDelayReturn
  import opened PacketDelayCounts
  import opened PacketDelaySearch
  import opened PacketDelayDecode

  predicate GoneQuiet(c: Config, s: State, now: i64, j: StreamKey) {
    c.stallTimeout != 0 && j in s.seen && Min(now as int - s.seen[j] as int, MAX64) > c.stallTimeout
  }

  /** Every lane the return waits for has its cut, or nothing more is expected of it. */
  predicate AllFound(c: Config, s: State, now: i64) {
    forall j :: j in s.returnVideo ==> j in s.returnKeys || GoneQuiet(c, s, now, j)
  }

  /** The buffered packet that a lane is cut at. */
  predicate CutPacket(s: State, j: StreamKey, y: Queued) {
    j in s.returnKeys && j in s.queues && y in s.queues[j] && y.sequence == s.returnKeys[j]
  }

  ghost predicate AtCut(c: Config, s: State, now: i64, k: StreamKey) {
    k in s.queues && s.queues[k] != [] && s.returnRequested.Some? &&
    var x := s.queues[k][0];
    if !c.requireKeyframe then x.receivedAt >= s.returnRequested.value
    else
      && AllFound(c, s, now)
      && (match k.kind
          case Video => k in s.returnKeys && x.sequence >= s.returnKeys[k]
          case Audio =>
            if exists j, y :: CutPacket(s, j, y) then exists j, y :: CutPacket(s, j, y) && x.receivedAt >= y.receivedAt
            else x.receivedAt >= s.returnRequested.value)
  }

  lemma CutKeyAt(c: Config, s: State, j: StreamKey, y: Queued, n: nat) returns (i: nat)
    requires Ok(c, s, n) && CutPacket(s, j, y)
    ensures KeyAt(s, j, i) && s.queues[j][i] == y
  {
    LaneShape(c, s, j, n);
    i :| i < |s.queues[j]| && s.queues[j][i] == y;
  }

  lemma KeyAtCut(s: State, j: StreamKey, i: nat)
    requires KeyAt(s, j, i)
    ensures CutPacket(s, j, s.queues[j][i])
  {
  }

  lemma {:induction false} CutOver(s: State, lanes: set<StreamKey>) returns (cut: Option<i64>)
    ensures CutAmong(s, lanes, cut)
  {
    cut := None;
    if lanes != {} {
      var k :| k in lanes;
      cut := CutOver(s, lanes - {k});
      assert lanes - {k} + {k} == lanes;
      if i: nat :| KeyAt(s, k, i) {
        CutMore(s, lanes - {k}, cut, k, i);
        var at := s.queues[k][i].receivedAt;
        cut := if cut.None? || at < cut.value then Some(at) else cut;
      } else {
        CutLess(s, lanes - {k}, cut, k);
      }
    }
  }

  /** The cut of the other lanes is the earliest cut packet's arrival, else the request. */
  lemma EarliestCut(c: Config, s: State, at: i64, n: nat)
    requires Ok(c, s, n) && s.returnRequested.Some?
    ensures LiveCut(s).Some?
    ensures at >= LiveCut(s).value
            <==> if exists j, y :: CutPacket(s, j, y) then exists j, y :: CutPacket(s, j, y) && at >= y.receivedAt
                 else at >= s.returnRequested.value
  {
    hide LiveCut, CutPacket, Ok;
    var cut := CutOver(s, s.returnKeys.Keys);
    CutIs(s, cut);
    KeysListed(s);
    if j, y :| CutPacket(s, j, y) {
      var i := CutKeyAt(c, s, j, y, n);
      KeyAtIndex(s, j, i);
    }
    if cut.Some? {
      var k, i: nat :| KeyAt(s, k, i) && s.queues[k][i].receivedAt == cut.value;
      KeyAtCut(s, k, i);
      if at >= cut.value {
        assert CutPacket(s, k, s.queues[k][i]) && at >= s.queues[k][i].receivedAt;
      }
      forall j, y | CutPacket(s, j, y) ensures cut.value <= y.receivedAt {
        var i := CutKeyAt(c, s, j, y, n);
      }
    }
  }

  lemma KeyAtIndex(s: State, k: StreamKey, i: nat)
    requires KeyAt(s, k, i)
    ensures k in s.queues && i < |s.queues[k]|
  {
  }

  /** The gate stops a front packet exactly when it is at or past the cut. */
  lemma GateIsCut(c: Config, s: State, now: i64, k: StreamKey, n: nat)
    requires Ok(c, s, n) && s.mode == Returning && !s.returnCommitted && KeysAre(c, s)
    requires k in s.queues && s.queues[k] != []
    ensures GateStops(c, s, now, k) <==> AtCut(c, s, now, k)
  {
    hide Ok, LiveCut, KeyAt, CutPacket, ReturnReady, AllFound, KeysAre;
    assert s.returnRequested.Some? by { RequestKnown(c, s, n); }
    assert !c.requireKeyframe ==> k !in s.returnKeys && !(exists j, y :: CutPacket(s, j, y)) by { OnlyWithKeyframes(c, s); }
    ReadyIsFound(c, s, now);
    EarliestCut(c, s, s.queues[k][0].receivedAt, n);
  }

  lemma RequestKnown(c: Config, s: State, n: nat)
    requires Ok(c, s, n) && s.mode == Returning
    ensures s.returnRequested.Some?
  {
  }

  lemma OnlyWithKeyframes(c: Config, s: State)
    requires KeysAre(c, s)
    ensures !c.requireKeyframe ==> s.returnKeys == map[] && !(exists j, y :: CutPacket(s, j, y))
  {
  }

  lemma ReadyIsFound(c: Config, s: State, now: i64)
    requires !s.returnCommitted
    ensures ReturnReady(c, s, now) <==> AllFound(c, s, now)
  {
  }

  // ---------------------------------------------------------------------
  // A keyframe that arrives while returning becomes the cut of its lane

  /** The lane's cut is the given one and too young to leave. */
  predicate KeptKey(s: State, now: i64, k: StreamKey, key: nat) {
    && k in s.returnKeys && s.returnKeys[k] == key
    && (k in s.queues ==> forall i :: 0 <= i < |s.queues[k]| && s.queues[k][i].sequence >= key ==>
          !Due(now, s.queues[k][i].receivedAt, s.target))
  }

  lemma LaneKeeps(c: Config, s: State, now: i64, k: StreamKey, j: StreamKey, key: nat)
    requires KeptKey(s, now, k, key) && DueFront(s, now, j) && Ordering(s, s.queues[j][0].packet).Some?
    ensures var r := DrainLane(c, s, now, j).state; r.mode == Failed || KeptKey(r, now, k, key)
  {
    hide Watermark, Emit, EnterError, GateStops, Due, Ordering, KeptKey, GateErases, PopFront;
    ErrorHolds(GateErases(s, j), ReorderWindow);
    ErasedKeeps(s, now, k, j, key);
    EmitKeeps(PopFront(GateErases(s, j), j), s.queues[j][0], now, k, key);
  }

  lemma ErasedKeeps(s: State, now: i64, k: StreamKey, j: StreamKey, key: nat)
    requires KeptKey(s, now, k, key) && DueFront(s, now, j)
    ensures var r := GateErases(s, j); KeptKey(r, now, k, key) && r.queues == s.queues && KeptKey(PopFront(r, j), now, k, key)
  {
    hide Due, PopFront, GateErases, KeptKey;
    KeptIs(s, now, k, key);
    FrontOf(s, now, j);
    KeyNotFront(s, now, k, j, key);
    OneErased(s, j);
    FewerKeys(s, GateErases(s, j), now, k, key);
    PoppedKeeps(GateErases(s, j), now, k, j, key);
  }

  lemma FrontOf(s: State, now: i64, j: StreamKey)
    requires DueFront(s, now, j)
    ensures j in s.queues && s.queues[j] != []
  {
  }

  lemma KeyNotFront(s: State, now: i64, k: StreamKey, j: StreamKey, key: nat)
    requires KeptKey(s, now, k, key) && DueFront(s, now, j)
    ensures j == k ==> s.queues[j][0].sequence < s.returnKeys[k]
  {
    hide Due;
  }

  lemma OneErased(s: State, j: StreamKey)
    requires j in s.queues && s.queues[j] != []
    ensures var r := GateErases(s, j);
            && r.queues == s.queues && r.target == s.target
            && (r.returnKeys == s.returnKeys
                || (r.returnKeys == s.returnKeys - {j} && j in s.returnKeys && s.queues[j][0].sequence >= s.returnKeys[j]))
  {
  }

  lemma FewerKeys(s: State, r: State, now: i64, k: StreamKey, key: nat)
    requires KeptKey(s, now, k, key) && r.queues == s.queues && r.target == s.target
    requires k in r.returnKeys && r.returnKeys[k] == s.returnKeys[k]
    ensures KeptKey(r, now, k, key)
  {
    hide Due;
  }

  lemma PoppedKeeps(s: State, now: i64, k: StreamKey, j: StreamKey, key: nat)
    requires KeptKey(s, now, k, key) && j in s.queues && s.queues[j] != []
    ensures KeptKey(PopFront(s, j), now, k, key)
  {
    hide Due;
    var r := PopFront(s, j);
    if k in r.queues {
      assert r.queues[k] == if k == j then s.queues[j][1..] else s.queues[k];
    }
  }

  lemma EmitKeeps(s: State, x: Queued, now: i64, k: StreamKey, key: nat)
    requires KeptKey(s, now, k, key)
    ensures var r := Emit(s, x, now, true, RetimestampOverflow, LatePacket).state; r.mode == Failed || KeptKey(r, now, k, key)
  {
    hide Retimestamp, RegressesOutput, EnterError;
    ErrorHolds(s, RetimestampOverflow);
    ErrorHolds(s, LatePacket);
  }

  lemma OnceKeeps(c: Config, s: State, now: i64, k: StreamKey, key: nat)
    requires KeptKey(s, now, k, key)
    ensures var r := DrainOnce(c, s, now).state; r.mode == Failed || KeptKey(r, now, k, key)
  {
    hide DrainLane, Next, Watching, EnterError, KeptKey, Ordering, Due;
    ErrorHolds(s, InvalidQueuedTimeBase);
    if !(exists j :: j in s.active && Watching(c, s, now, j) && j !in s.latest) &&
       Ordered(s, now) && exists j :: j in s.queues && DueFront(s, now, j) {
      var j := NextLane(s, now);
      assert DueFront(s, now, j) by { NextFront(s, now, j); }
      LaneKeeps(c, s, now, k, j, key);
    }
  }

  lemma NextFront(s: State, now: i64, j: StreamKey)
    requires Next(s, now, j)
    ensures DueFront(s, now, j)
  {
  }

  lemma {:induction false} DrainKeeps(c: Config, s: State, now: i64, k: StreamKey, key: nat, fuel: nat, n: nat)
    requires c.Valid() && Ok(c, s, n) && KeptKey(s, now, k, key)
    ensures var r := DrainUpTo(c, s, now, fuel).state; r.mode == Failed || KeptKey(r, now, k, key)
    decreases fuel
  {
    hide DrainOnce, KeptKey, Ok;
    if fuel != 0 {
      OnceKeeps(c, s, now, k, key);
      OkDrainOnce(c, s, now, n);
      var one := DrainOnce(c, s, now);
      if one.out != [] {
        if one.state.mode == Failed {
          FailedDrain(c, one.state, now, fuel - 1, n);
        } else {
          DrainKeeps(c, one.state, now, k, key, fuel - 1, n);
        }
      }
    }
  }

  /** While a return waits, a keyframe pushed at or after the request is the cut of its lane from then on. */
  lemma KeyframeIsCut(c: Config, s: State, p: Packet, now: i64, n: nat)
    requires c.Valid() && Ok(c, s, n) && s.mode == Returning && !s.returnCommitted && !Regresses(s, now) && s.target > 0
    requires KeysAre(c, s) && c.requireKeyframe && p.stream.kind == Video && p.keyframe
    requires s.returnRequested.Some? && now >= s.returnRequested.value
    ensures var r := DoPush(c, s, p, now, n).state;
            r.mode == Failed || (p.stream in r.returnKeys && r.returnKeys[p.stream] == n)
  {
    hide Ok, Enqueue, DrainUpTo, EnterError, Bypassed, KeptKey, ObserveReturnKey, Due, Packets, KeysAre;
    assert KeysAre(c, s.(lastObserved := Some(now))) by { KeysClock(c, s, now); }
    OkClock(c, s, now, n);
    var s1 := s.(lastObserved := Some(now));
    assert Observe(s, now) == s1;
    var q := Enqueue(c, s1, p, now, n);
    OkEnqueue(c, s1, p, now, n);
    if !q.ok {
      RejectFails(c, s1, p, now, n);
      BypassedFails(c, q.state, p, now, n);
    } else {
      var observed := ObserveReturnKey(c, q.state, NewItem(c, p, now, n));
      QuietObserveKey(c, q.state, NewItem(c, p, now, n), n + 1);
      RecordedKept(c, s1, p, now, n);
      DrainKeeps(c, observed, now, p.stream, n, Packets(observed) + 1, n + 1);
      assert KeptKey(observed, now, p.stream, n);
      KeptIs(observed, now, p.stream, n);
      var r := DoPush(c, s, p, now, n).state;
      if r.mode != Failed && r != observed {
        KeptIs(r, now, p.stream, n);
      }
    }
  }

  lemma KeysClock(c: Config, s: State, now: i64)
    requires KeysAre(c, s)
    ensures KeysAre(c, s.(lastObserved := Some(now)))
  {
    hide NewestKey;
    var r := s.(lastObserved := Some(now));
    assert forall k :: Lane(r, k) == Lane(s, k);
  }

  lemma BypassedFails(c: Config, s: State, p: Packet, now: i64, n: nat)
    requires s.mode == Failed
    ensures Bypassed(c, s, p, now, n, FailOpenTimestamps).state.mode == Failed
  {
    hide RetimestampLive;
    LiveMode(c, s, p);
    ErrorHolds(RetimestampLive(c, s, p).state, FailOpenTimestamps);
  }

  lemma RecordedKept(c: Config, s: State, p: Packet, now: i64, n: nat)
    requires Ok(c, s, n) && s.mode == Returning && KeysAre(c, s) && Enqueue(c, s, p, now, n).ok && s.target > 0
    requires c.requireKeyframe && p.stream.kind == Video && p.keyframe
    requires s.returnRequested.Some? && now >= s.returnRequested.value
    ensures var r := ObserveReturnKey(c, Enqueue(c, s, p, now, n).state, NewItem(c, p, now, n));
            KeptKey(r, now, p.stream, n) && SameReturn(s, r)
  {
    hide Enqueue, NewestKey, KeysAre;
    EnqueueReturning(c, s, p, now, n);
    var q := Lane(s, p.stream);
    forall i | 0 <= i < |q| ensures q[i].sequence < n {
      LaneBelow(c, s, p.stream, i, n);
    }
  }

  lemma LaneBelow(c: Config, s: State, k: StreamKey, i: nat, n: nat)
    requires Ok(c, s, n) && i < |Lane(s, k)|
    ensures Lane(s, k)[i].sequence < n
  {
    assert LaneOk(c, k, s.queues[k], n, s.lastObserved);
    assert ItemOk(c, s.queues[k][i], n, s.lastObserved);
  }

  lemma KeptIs(s: State, now: i64, k: StreamKey, key: nat)
    requires KeptKey(s, now, k, key)
    ensures k in s.returnKeys && s.returnKeys[k] == key
  {
  }
}
