/** No packet is lost but where one may be. The other half of conservation: what was buffered is still buffered or
    was handed out, unless the engine failed, a cut was committed, or the packet was older than the longest delay it
    could still be wanted for and the headroom. */
module PacketDelayLoss {
  import opened Options
  import opened Timestamps
  import opened PacketTypes
  import opened PacketDelaySpec
  import opened PacketDelayStep
  import opened PacketDelayInvariant
  import opened PacketDelayKeep
  import opened PacketDelayRun
  import opened PacketDelayResults
  import opened PacketDelayDecode
  import opened PacketDelayReturn
  import opened PacketDelayAge
  import opened PacketDelayWaits

  /** The longest delay that the buffer is kept for: while a running delay is being changed, either of the two. */
  function Longest(s: State): nat {
    if s.mode == Filling && s.originDelayed && s.previousTarget > s.target then s.previousTarget else s.target
  }

  predicate Spent(c: Config, s: State, now: i64, x: Queued) {
    now as int - x.receivedAt as int >= Longest(s) + c.headroom
  }

  predicate HandedOut(out: seq<Output>, x: Queued) {
    exists i :: 0 <= i < |out| && Released(x, out[i])
  }

  /** Everything of the first state is in the second or was handed out. */
  ghost predicate Lossless(s: State, out: seq<Output>, r: State) {
    forall x :: x in Held(s) ==> x in Held(r) || HandedOut(out, x)
  }

  /** The same, but for packets that are spent. */
  ghost predicate Loses(c: Config, s: State, now: i64, out: seq<Output>, r: State) {
    forall x :: x in Held(s) ==> x in Held(r) || HandedOut(out, x) || Spent(c, s, now, x)
  }

  // ---------------------------------------------------------------------
  // Pruning and draining

  lemma PruneSpends(c: Config, q: Queue, now: i64, retention: int, j: nat)
    requires j < KeepIndex(c, q, now, retention, |q|)
    ensures now as int - q[j].receivedAt as int >= retention
  {
    hide Anchor;
    KeepIsDue(c, q, now, retention, |q|);
    assert Due(now, q[j].receivedAt, retention);
  }

  lemma {:induction false} KeepIsDue(c: Config, q: Queue, now: i64, retention: int, m: nat)
    requires m <= |q|
    ensures var i := KeepIndex(c, q, now, retention, m); forall j :: 0 <= j < i ==> Due(now, q[j].receivedAt, retention)
  {
    hide Anchor, Due;
    if m > 0 && !(DuePrefix(q, now, retention, m) && Anchor(c, q[m - 1])) {
      KeepIsDue(c, q, now, retention, m - 1);
    }
  }

  lemma PruneLoses(c: Config, s: State, now: i64)
    ensures Loses(c, s, now, [], Prune(c, s, now))
  {
    hide KeepIndex, Anchor, HandedOut;
    var r := Prune(c, s, now);
    forall x | x in Held(s) ensures x in Held(r) || Spent(c, s, now, x) {
      if x !in s.pending {
        var k :| k in s.queues && x in s.queues[k];
        var q := s.queues[k];
        var j :| 0 <= j < |q| && q[j] == x;
        var keep := KeepIndex(c, q, now, Retention(c, s), |q|);
        if j >= keep {
          assert r.queues[k][j - keep] == x;
          assert InLane(r.queues, x);
        } else {
          PruneSpends(c, q, now, Retention(c, s), j);
        }
      }
    }
  }

  lemma LosslessThen(a: State, out: seq<Output>, b: State, more: seq<Output>, d: State)
    requires Lossless(a, out, b) && Lossless(b, more, d)
    ensures Lossless(a, out + more, d)
  {
    hide Held, Released;
    forall x | x in Held(a) && x !in Held(d) ensures HandedOut(out + more, x) {
      if x in Held(b) {
        var i :| 0 <= i < |more| && Released(x, more[i]);
        assert (out + more)[|out| + i] == more[i];
      } else {
        var i :| 0 <= i < |out| && Released(x, out[i]);
        assert (out + more)[i] == out[i];
      }
    }
  }

  lemma PoppedOut(s: State, j: StreamKey, o: Output, r: State)
    requires j in s.queues && s.queues[j] != [] && Released(s.queues[j][0], o)
    requires r.queues == PopFront(s, j).queues && r.pending == s.pending
    ensures Lossless(s, [o], r)
  {
    hide Released;
    assert [o][0] == o;
    forall x | x in Held(s) ensures x in Held(r) || HandedOut([o], x) {
      if x !in s.pending {
        var k :| k in s.queues && x in s.queues[k];
        if k != j {
          assert k in r.queues && r.queues[k] == s.queues[k];
          assert InLane(r.queues, x);
        } else if x in s.queues[j][1..] {
          assert r.queues[j] == s.queues[j][1..];
          assert InLane(r.queues, x);
        } else {
          assert x == s.queues[j][0];
        }
      }
    }
  }

  lemma NonePending(c: Config, s: State, n: nat)
    requires Ok(c, s, n) && !s.returnCommitted
    ensures s.pending == []
  {
    hide LanesOk, DistinctLanes, OneGeneration, DistinctPending, HorizonsOk, CapsOk;
  }

  lemma SameHeld(s: State, r: State)
    requires r.queues == s.queues && r.pending == s.pending
    ensures Lossless(s, [], r)
  {
    assert Held(s) == Held(r);
  }

  lemma OnceLossless(c: Config, s: State, now: i64, n: nat)
    requires c.Valid() && Ok(c, s, n) && !s.returnCommitted
    ensures var one := DrainOnce(c, s, now); one.state.mode == Failed || Lossless(s, one.out, one.state)
  {
    hide Ok, DrainOnce, Lossless, PopFront, Held, Ledger, Released;
    DrainOncePops(c, s, now, n);
    OkDrainOnce(c, s, now, n);
    DrainOnceMode(c, s, now);
    var one := DrainOnce(c, s, now);
    if one.state.mode != Failed {
      NonePending(c, s, n);
      NonePending(c, one.state, n);
      if one.out == [] {
        SameHeld(s, one.state);
      } else {
        var j :| j in s.queues && s.queues[j] != [] && Released(s.queues[j][0], one.out[0]) &&
                 one.state.queues == PopFront(s, j).queues;
        PoppedOut(s, j, one.out[0], one.state);
        assert one.out == [one.out[0]];
      }
    }
  }

  lemma {:induction false} DrainLossless(c: Config, s: State, now: i64, fuel: nat, n: nat)
    requires c.Valid() && Ok(c, s, n) && !s.returnCommitted
    ensures var r := DrainUpTo(c, s, now, fuel); r.state.mode == Failed || Lossless(s, r.out, r.state)
    decreases fuel
  {
    hide Ok, DrainOnce, Lossless, Held, Ledger;
    if fuel == 0 {
      SameHeld(s, s);
    } else {
      OnceLossless(c, s, now, n);
      OkDrainOnce(c, s, now, n);
      DrainOnceMode(c, s, now);
      var one := DrainOnce(c, s, now);
      if one.out != [] {
        if one.state.mode == Failed {
          FailedDrain(c, one.state, now, fuel - 1, n);
        } else {
          DrainLossless(c, one.state, now, fuel - 1, n);
          var rest := DrainUpTo(c, one.state, now, fuel - 1);
          if rest.state.mode != Failed {
            LosslessThen(s, one.out, one.state, rest.out, rest.state);
          }
        }
      }
    }
  }

  lemma LosesThen(c: Config, s: State, now: i64, out: seq<Output>, d: State, r: State)
    requires Lossless(s, out, d) && Loses(c, d, now, [], r) && Longest(d) == Longest(s)
    ensures Loses(c, s, now, out, r)
  {
    hide Held, HandedOut;
    assert forall x :: !HandedOut([], x) by { NothingOut(); }
  }

  lemma NothingOut()
    ensures forall x :: !HandedOut([], x)
  {
  }

  lemma LosesLossless(c: Config, s: State, now: i64, out: seq<Output>, r: State)
    requires Lossless(s, out, r)
    ensures Loses(c, s, now, out, r)
  {
    hide Held, HandedOut;
  }

  lemma LosesFirst(c: Config, s: State, now: i64, d: State, out: seq<Output>, r: State)
    requires Loses(c, s, now, [], d) && Loses(c, d, now, out, r) && Longest(d) == Longest(s)
    ensures Loses(c, s, now, out, r)
  {
    hide Held, HandedOut;
    assert forall x :: !HandedOut([], x) by { NothingOut(); }
  }

  lemma LongestSame(s: State, r: State)
    requires SameReturn(s, r)
    ensures Longest(r) == Longest(s)
  {
  }

  lemma DrainLoses(c: Config, s: State, now: i64, n: nat)
    requires c.Valid() && Ok(c, s, n) && !s.returnCommitted
    ensures var r := Drain(c, s, now); r.state.mode == Failed || Loses(c, s, now, r.out, r.state)
    ensures var r := DrainAndPrune(c, s, now); r.state.mode == Failed || Loses(c, s, now, r.out, r.state)
  {
    hide Ok, DrainUpTo, Lossless, Loses, Prune, Packets;
    DrainLossless(c, s, now, Packets(s) + 1, n);
    DrainMode(c, s, now, Packets(s) + 1);
    var d := Drain(c, s, now);
    if d.state.mode != Failed {
      LosesLossless(c, s, now, d.out, d.state);
      PruneLoses(c, d.state, now);
      LongestSame(s, d.state);
      LosesThen(c, s, now, d.out, d.state, Prune(c, d.state, now));
    }
  }

  // ---------------------------------------------------------------------
  // A packet that comes in

  lemma AppendHolds(c: Config, s: State, p: Packet, now: i64, n: nat, dts: Horizon)
    ensures var r := Append(c, s, p, now, n, dts); Lossless(s, [], r) && NewItem(c, p, now, n) in Held(r)
  {
    hide EpochActive, Cmp, HandedOut;
    var r := Append(c, s, p, now, n, dts);
    var item := NewItem(c, p, now, n);
    forall x | x in Held(s) ensures x in Held(r) {
      if x !in s.pending {
        var k :| k in s.queues && x in s.queues[k];
        assert x in r.queues[k];
        assert InLane(r.queues, x);
      }
    }
    assert item in r.queues[p.stream];
    assert InLane(r.queues, item);
  }

  lemma PlaceLoses(c: Config, s: State, p: Packet, now: i64, n: nat)
    requires Place(c, s, p, now, n).ok
    ensures var r := Place(c, s, p, now, n).state;
            Loses(c, s, now, [], r) && NewItem(c, p, now, n) in Held(r) && Longest(r) == Longest(s)
  {
    hide EpochOffset, Ordering, Prune, OverCapacity, EnterError, EpochActive, Append, Loses, Lossless, Held, WithOffset, Longest;
    var based := WithOffset(s, p).value;
    OffsetCourse(s, p);
    OffsetQueues(s, p);
    PruneReturn(c, based, now);
    var room := if s.mode == Returning then based else Prune(c, based, now);
    AppendHolds(c, room, p, now, n, Ordering(based, p).value);
    AppendCourse(c, room, p, now, n, Ordering(based, p).value);
    SameHeld(s, based);
    LosesLossless(c, s, now, [], based);
    PruneLoses(c, based, now);
    LongestSame(s, based);
    LongestSame(based, Prune(c, based, now));
    LosesFirst(c, s, now, based, [], Prune(c, based, now));
    var r := Append(c, room, p, now, n, Ordering(based, p).value);
    LongestSame(room, r);
    LosesLossless(c, room, now, [], r);
    LosesFirst(c, s, now, room, [], r);
  }

  lemma OffsetQueues(s: State, p: Packet)
    requires WithOffset(s, p).Some?
    ensures WithOffset(s, p).value.queues == s.queues && WithOffset(s, p).value.pending == s.pending
  {
    hide EpochOffset, EpochActive;
  }

  lemma EnqueueLoses(c: Config, s: State, p: Packet, now: i64, n: nat)
    requires Enqueue(c, s, p, now, n).ok
    ensures var r := Enqueue(c, s, p, now, n).state;
            Loses(c, s, now, [], r) && NewItem(c, p, now, n) in Held(r) && Longest(r) == Longest(s)
  {
    hide PrepareStream, Place, EnterError, Loses, Held, Longest;
    PrepareReturn(c, s, p.stream);
    var b := PrepareStream(c, s, p.stream).state;
    PreparedQueues(c, s, p.stream);
    SameHeld(s, b);
    LosesLossless(c, s, now, [], b);
    LongestSame(s, b);
    PlaceLoses(c, b, p, now, n);
    LosesFirst(c, s, now, b, [], Place(c, b, p, now, n).state);
  }

  lemma PreparedQueues(c: Config, s: State, stream: StreamKey)
    requires PrepareStream(c, s, stream).ok
    ensures var b := PrepareStream(c, s, stream).state; b.queues == s.queues && b.pending == s.pending
  {
    hide HasOldGeneration, Keep, Stay, Awaited, EnterError;
  }

  // ---------------------------------------------------------------------
  // One call

  /** Still buffered, handed out, or spent. */
  ghost predicate Accounted(c: Config, s: State, now: i64, x: Queued, r: Drained) {
    x in Held(r.state) || HandedOut(r.out, x) || Spent(c, s, now, x)
  }

  ghost predicate AllAccounted(c: Config, s: State, now: i64, from: iset<Queued>, r: Drained) {
    forall x :: x in from ==> Accounted(c, s, now, x, r)
  }

  lemma LosesAccounts(c: Config, s: State, now: i64, d: State, x: Queued, r: Drained)
    requires Loses(c, s, now, [], d) && x in Held(d) && Loses(c, d, now, r.out, r.state) && Longest(d) == Longest(s)
    ensures AllAccounted(c, s, now, Held(s) + iset{x}, r)
  {
    hide Held, HandedOut;
    assert forall y :: !HandedOut([], y) by { NothingOut(); }
  }

  lemma LosesAll(c: Config, s: State, now: i64, r: Drained)
    requires Loses(c, s, now, r.out, r.state)
    ensures AllAccounted(c, s, now, Held(s), r)
  {
    hide Held, HandedOut;
  }

  lemma BufferedLoses(c: Config, s: State, p: Packet, now: i64, n: nat)
    requires c.Valid() && Ok(c, s, n) && Buffering(s) && !s.returnCommitted && s.lastObserved == Some(now)
    ensures var r := PushBuffered(c, s, p, now, n);
            r.state.mode == Failed || AllAccounted(c, s, now, Held(s) + iset{NewItem(c, p, now, n)}, r)
  {
    hide Ok, Enqueue, Drain, DrainAndPrune, Prune, Bypassed, ObserveReturnKey, Loses, Held, AllAccounted, Longest;
    var q := Enqueue(c, s, p, now, n);
    var x := NewItem(c, p, now, n);
    OkEnqueue(c, s, p, now, n);
    if !q.ok {
      RejectFails(c, s, p, now, n);
      LiveCourse(c, q.state, p, now, n, FailOpenTimestamps);
    } else {
      EnqueueLoses(c, s, p, now, n);
      EnqueueCourse(c, s, p, now, n);
      SameStages(s, q.state);
      var r := PushBuffered(c, s, p, now, n);
      if s.mode == Delayed {
        DrainLoses(c, q.state, now, n + 1);
        if r.state.mode != Failed {
          LosesAccounts(c, s, now, q.state, x, r);
        }
      } else if s.mode == Returning {
        ReturnLoses(c, s, p, now, n);
      } else {
        PrunedLoses(c, s, p, now, n);
      }
    }
  }

  lemma SameStages(s: State, r: State)
    requires SameReturn(s, r)
    ensures r.mode == s.mode && r.returnCommitted == s.returnCommitted && r.returnFromDelayed == s.returnFromDelayed
  {
  }

  lemma HeldLoses(c: Config, s: State, now: i64, r: State)
    requires Held(s) <= Held(r)
    ensures Loses(c, s, now, [], r)
  {
  }

  lemma ReturnLoses(c: Config, s: State, p: Packet, now: i64, n: nat)
    requires c.Valid() && Ok(c, s, n) && s.mode == Returning && !s.returnCommitted && Enqueue(c, s, p, now, n).ok
    requires Ok(c, Enqueue(c, s, p, now, n).state, n + 1)
    ensures var r := PushBuffered(c, s, p, now, n);
            r.state.mode == Failed || AllAccounted(c, s, now, Held(s) + iset{NewItem(c, p, now, n)}, r)
  {
    hide Ok, Enqueue, Drain, Prune, Bypassed, ObserveReturnKey, Loses, Held, AllAccounted, Longest, PushBuffered;
    var q, x := Enqueue(c, s, p, now, n).state, NewItem(c, p, now, n);
    EnqueueLoses(c, s, p, now, n);
    EnqueueCourse(c, s, p, now, n);
    SameStages(s, q);
    var observed := ObserveReturnKey(c, q, x);
    ObservedHeld(c, q, x);
    ObservedCourse(c, q, x);
    SameStages(q, observed);
    LongestSame(q, observed);
    HeldLoses(c, q, now, observed);
    LosesFirst(c, s, now, q, [], observed);
    QuietObserveKey(c, q, x, n + 1);
    DrainLoses(c, observed, now, n + 1);
    var r := PushBuffered(c, s, p, now, n);
    ReturnPush(c, s, p, now, n);
    if r.state.mode != Failed {
      HeldLoses(c, observed, now, observed);
      LosesAccounts(c, s, now, observed, x, r);
    }
  }

  lemma ReturnPush(c: Config, s: State, p: Packet, now: i64, n: nat)
    requires s.mode == Returning && Enqueue(c, s, p, now, n).ok
    ensures var observed := ObserveReturnKey(c, Enqueue(c, s, p, now, n).state, NewItem(c, p, now, n));
            PushBuffered(c, s, p, now, n) == if s.returnFromDelayed then Drain(c, observed, now) else Drained(observed, [])
  {
    hide Enqueue, Drain, ObserveReturnKey;
  }

  lemma ObservedHeld(c: Config, s: State, item: Queued)
    ensures Held(ObserveReturnKey(c, s, item)) == Held(s)
  {
    var r := ObserveReturnKey(c, s, item);
    assert r.queues == s.queues && r.pending == s.pending;
  }

  lemma PrunedLoses(c: Config, s: State, p: Packet, now: i64, n: nat)
    requires c.Valid() && (s.mode == Preparing || s.mode == Filling) && !s.returnCommitted && Enqueue(c, s, p, now, n).ok
    requires Ok(c, Enqueue(c, s, p, now, n).state, n + 1) && Enqueue(c, s, p, now, n).state.mode == s.mode
    requires !Enqueue(c, s, p, now, n).state.returnCommitted
    ensures var r := PushBuffered(c, s, p, now, n);
            r.state.mode == Failed || AllAccounted(c, s, now, Held(s) + iset{NewItem(c, p, now, n)}, r)
  {
    hide Ok, Enqueue, DrainUpTo, Packets, Prune, Loses, Held, AllAccounted, Longest;
    var q, x := Enqueue(c, s, p, now, n).state, NewItem(c, p, now, n);
    EnqueueLoses(c, s, p, now, n);
    var pruned := Prune(c, q, now);
    PruneReturn(c, q, now);
    SameStages(q, pruned);
    PruneLoses(c, q, now);
    LongestSame(q, pruned);
    OkPrune(c, q, now, n + 1);
    DrainLoses(c, pruned, now, n + 1);
    var r := PushBuffered(c, s, p, now, n);
    if s.mode == Preparing && r.state.mode != Failed {
      LosesFirst(c, q, now, pruned, r.out, r.state);
    }
    if r.state.mode != Failed {
      LosesAccounts(c, s, now, q, x, r);
    }
  }

  lemma NoneHeld(c: Config, s: State, n: nat)
    requires Ok(c, s, n) && !Buffering(s)
    ensures Held(s) == iset{}
  {
    hide LanesOk, DistinctLanes, OneGeneration, DistinctPending, HorizonsOk, CapsOk;
  }

  lemma LiveAccounts(c: Config, s: State, p: Packet, now: i64, n: nat, fault: Fault, from: iset<Queued>)
    requires from == iset{NewItem(c, p, now, n)}
    ensures AllAccounted(c, s, now, from, Bypassed(c, s, p, now, n, fault))
  {
    hide RetimestampLive, Held, Released;
    BypassedLive(c, s, p, now, n, fault);
    LiveShift(c, s, p, now, n);
    var r := Bypassed(c, s, p, now, n, fault);
    assert Released(NewItem(c, p, now, n), r.out[0]);
  }

  lemma ClockHeld(s: State, now: i64)
    requires !Regresses(s, now)
    ensures var r := Observe(s, now); r == s.(lastObserved := Some(now)) && Held(r) == Held(s) && Longest(r) == Longest(s)
  {
    var r := Observe(s, now);
    assert r.queues == s.queues && r.pending == s.pending;
  }

  lemma AccountsClock(c: Config, s: State, now: i64, from: iset<Queued>, r: Drained)
    requires AllAccounted(c, s.(lastObserved := Some(now)), now, from, r)
    ensures AllAccounted(c, s, now, from, r)
  {
    hide Held, HandedOut;
  }

  lemma {:induction false} PendingLossless(s: State, now: i64)
    ensures var r := DrainPending(s, now); r.state.mode == Failed || Lossless(s, r.out, r.state)
    decreases |s.pending|
  {
    hide Emit, Lossless, Held;
    if s.pending == [] {
      SameHeld(s, s);
    } else {
      var rest := s.(pending := s.pending[1..]);
      var one := Emit(rest, s.pending[0], now, false, ReturnRegression, ReturnRegression);
      EmitFate(rest, s.pending[0], now, false, ReturnRegression, ReturnRegression);
      if one.out != [] {
        PendingOut(s, one.out[0], one.state);
        assert one.out == [one.out[0]];
        PendingLossless(one.state, now);
        var more := DrainPending(one.state, now);
        if more.state.mode != Failed {
          LosslessThen(s, one.out, one.state, more.out, more.state);
        }
      }
    }
  }

  lemma EmitFate(s: State, x: Queued, now: i64, delayed: bool, overflow: Fault, regress: Fault)
    ensures var r := Emit(s, x, now, delayed, overflow, regress);
            if r.out == [] then r.state.mode == Failed
            else |r.out| == 1 && Released(x, r.out[0]) && r.state.queues == s.queues && r.state.pending == s.pending
  {
    hide EnterError, RegressesOutput;
    ErrorHolds(s, overflow);
    ErrorHolds(s, regress);
  }

  lemma PendingOut(s: State, o: Output, r: State)
    requires s.pending != [] && Released(s.pending[0], o) && r.queues == s.queues && r.pending == s.pending[1..]
    ensures Lossless(s, [o], r)
  {
    hide Released;
    forall x | x in Held(s) && x !in Held(r) ensures HandedOut([o], x) {
      assert x == s.pending[0];
      assert [o][0] == o;
    }
  }

  lemma CommittedAccounts(c: Config, s: State, p: Packet, now: i64, n: nat)
    requires s.mode == Returning && s.returnCommitted
    ensures var r := PushCommitted(c, s, p, now, n);
            r.state.mode == Failed || AllAccounted(c, s, now, Held(s) + iset{NewItem(c, p, now, n)}, r)
  {
    hide DrainPending, Held, Released, Lossless, RetimestampLive;
    PendingLossless(s, now);
    PendingMode(s, now);
    var d := DrainPending(s, now);
    BypassedLive(c, d.state, p, now, n, LiveTimestamps);
    LiveShift(c, d.state, p, now, n);
    BypassedStays(c, d.state, p, now, n);
    LiveCourse(c, d.state, p, now, n, LiveTimestamps);
    var r := PushCommitted(c, s, p, now, n);
    if r.state.mode != Failed {
      assert r.out[|d.out|..] == Bypassed(c, d.state, p, now, n, LiveTimestamps).out;
      assert r.out == d.out + r.out[|d.out|..];
      LosslessThen(s, d.out, d.state, r.out[|d.out|..], r.state);
      LosesLossless(c, s, now, r.out, r.state);
      assert Released(NewItem(c, p, now, n), r.out[|d.out|]);
      JoinAccounts(c, s, now, NewItem(c, p, now, n), r);
    }
  }

  lemma JoinAccounts(c: Config, s: State, now: i64, x: Queued, r: Drained)
    requires Loses(c, s, now, r.out, r.state) && HandedOut(r.out, x)
    ensures AllAccounted(c, s, now, Held(s) + iset{x}, r)
  {
    hide Held, HandedOut;
  }

  /** Passing a packet live leaves what is buffered, unless it fails. */
  lemma BypassedStays(c: Config, s: State, p: Packet, now: i64, n: nat)
    ensures var r := Bypassed(c, s, p, now, n, LiveTimestamps);
            r.state.mode == Failed || (Held(r.state) == Held(s) && Lossless(s, r.out, r.state))
  {
    hide EpochOffset, PrepareStream, Retimestamp, Note, HandedOut;
    var live := RetimestampLive(c, s, p);
    ErrorHolds(live.state, LiveTimestamps);
    if live.ok {
      PreparedQueues(c, s, p.stream);
      LiveQueues(PrepareStream(c, s, p.stream).state, p);
      assert live.state.queues == s.queues && live.state.pending == s.pending;
    }
  }

  lemma LiveQueues(s: State, p: Packet)
    requires LiveFrom(s, p).ok
    ensures LiveFrom(s, p).state.queues == s.queues && LiveFrom(s, p).state.pending == s.pending
  {
    hide EpochOffset, RegressesOutput;
  }

  lemma PushAccounts(c: Config, s: State, p: Packet, now: i64, n: nat)
    requires c.Valid() && Ok(c, s, n)
    ensures var r := DoPush(c, s, p, now, n);
            r.state.mode == Failed || AllAccounted(c, s, now, Held(s) + iset{NewItem(c, p, now, n)}, r)
  {
    hide Ok, PushBuffered, PushCommitted, Bypassed, Held, AllAccounted, RetimestampLive, Longest, Regresses, Observe, EpochActive;
    if Regresses(s, now) {
      RegressedFails(c, s, p, now, n);
    } else {
      OkClock(c, s, now, n);
      ClockHeld(s, now);
      var s1 := Observe(s, now);
      if PassesLive(s1) {
        PassesUnheld(c, s1, n);
        LiveAccounts(c, s1, p, now, n, FailOpenTimestamps, iset{NewItem(c, p, now, n)});
        assert Held(s) + iset{NewItem(c, p, now, n)} == iset{NewItem(c, p, now, n)};
      } else if s1.mode == Returning && s1.returnCommitted {
        CommittedAccounts(c, s1, p, now, n);
      } else {
        StartModes(s1);
        StillBuffers(c, s1, n);
        BufferedLoses(c, s1, p, now, n);
      }
      if DoPush(c, s, p, now, n).state.mode != Failed {
        AccountsClock(c, s, now, Held(s) + iset{NewItem(c, p, now, n)}, DoPush(c, s, p, now, n));
      }
    }
  }

  lemma PassesUnheld(c: Config, s: State, n: nat)
    requires Ok(c, s, n) && PassesLive(s)
    ensures Held(s) == iset{}
  {
    hide Ok, Held;
    NoneHeld(c, s, n);
  }

  lemma StillBuffers(c: Config, s: State, n: nat)
    requires Ok(c, s, n) && !PassesLive(s) && !(s.mode == Returning && s.returnCommitted)
    ensures Buffering(s) && !s.returnCommitted
  {
    hide LanesOk, DistinctLanes, OneGeneration, DistinctPending, HorizonsOk, CapsOk;
  }

  lemma PollAccounts(c: Config, s: State, now: i64, n: nat)
    requires c.Valid() && Ok(c, s, n)
    ensures var r := DoPoll(c, s, now); r.state.mode == Failed || AllAccounted(c, s, now, Held(s), r)
  {
    hide Ok, Drain, DrainAndPrune, DrainPending, Prune, Held, AllAccounted, Longest, Loses, Lossless;
    if !Regresses(s, now) {
      OkClock(c, s, now, n);
      ClockHeld(s, now);
      var s1 := Observe(s, now);
      PruneLoses(c, s1, now);
      SameHeld(s1, s1);
      LosesLossless(c, s1, now, [], s1);
      if s1.mode == Returning && s1.returnCommitted {
        PendingLossless(s1, now);
      } else {
        NotCommitted(c, s1, n);
        DrainLoses(c, s1, now, n);
      }
      var r := DoPoll(c, s, now);
      if r.state.mode != Failed {
        if s1.mode == Returning && s1.returnCommitted {
          LosesLossless(c, s1, now, r.out, r.state);
        }
        LosesAll(c, s1, now, r);
        AccountsClock(c, s, now, Held(s), r);
      }
    }
  }

  lemma NotCommitted(c: Config, s: State, n: nat)
    requires Ok(c, s, n) && !(s.mode == Returning && s.returnCommitted)
    ensures !s.returnCommitted
  {
    hide LanesOk, DistinctLanes, OneGeneration, DistinctPending, HorizonsOk, CapsOk;
  }

  // ---------------------------------------------------------------------
  // Every call and every run

  /** Whether a call may give packets up: a cut to the delay or to live, or a packet call to what is spent. */
  predicate Cuts(op: Op) {
    op.CommitDelayed? || op.CommitReturn?
  }

  lemma RequestLossless(c: Config, s: State, op: Op, n: nat)
    requires c.Valid() && Ok(c, s, n) && Request(op) && !Cuts(op)
    ensures var r := Step(c, s, op, n); r.state.mode == Failed || Lossless(s, r.out, r.state)
  {
    hide Ok, Held, Lossless, DoActivate, DoBeginFilling, DoChangeDelay, DoCancel, DoDeactivate, DoFinishReturn, DoRecover;
    match op
    case Activate(delay, now) => ActivateLossless(c, s, delay, now, n);
    case BeginFilling(now) => BeginLossless(c, s, now, n);
    case ChangeDelay(delay, now) => ChangeLossless(c, s, delay, now, n);
    case Cancel(now) => CancelLossless(c, s, now);
    case Deactivate(now) => DeactivateLossless(c, s, now);
    case FinishReturn(now) => FinishLossless(c, s, now, n);
    case Recover(now) => RecoverLossless(c, s, now, n);
  }

  predicate SameBuffer(s: State, r: State) { r.queues == s.queues && r.pending == s.pending }

  lemma HeldLossless(s: State, r: State)
    requires SameBuffer(s, r) || Held(s) == iset{}
    ensures Lossless(s, [], r)
  {
    if SameBuffer(s, r) {
      assert Held(r) == Held(s);
    }
  }

  lemma ClockBuffer(s: State, now: i64)
    ensures var r := Observe(s, now);
            if Regresses(s, now) then r.mode == Failed
            else SameBuffer(s, r) && r.mode == s.mode && r.preparingChange == s.preparingChange
  {
  }

  lemma ActivateLossless(c: Config, s: State, delay: int, now: i64, n: nat)
    requires Ok(c, s, n)
    ensures var r := DoActivate(c, s, delay, now); r.mode == Failed || Lossless(s, [], r)
  {
    hide Ok, Held, Lossless, Observe, Regresses, ClearAll;
    ClockBuffer(s, now);
    if !Regresses(s, now) {
      if s.mode == Bypass {
        NoneHeld(c, s, n);
      }
      HeldLossless(s, DoActivate(c, s, delay, now));
    }
  }

  lemma BeginLossless(c: Config, s: State, now: i64, n: nat)
    requires Ok(c, s, n)
    ensures var r := DoBeginFilling(s, now); r.mode == Failed || Lossless(s, [], r)
  {
    hide Ok, Held, Lossless, Observe, Regresses, ClearQueues;
    ClockBuffer(s, now);
    var s1 := Observe(s, now);
    if !Regresses(s, now) {
      if s.mode == Preparing && !s.preparingChange {
        NoneHeld(c, s, n);
      } else if s1.mode == Preparing && s1.preparingChange {
        assert SameBuffer(s1, DoBeginFilling(s, now));
      }
      HeldLossless(s, DoBeginFilling(s, now));
    }
  }

  lemma ChangeLossless(c: Config, s: State, delay: int, now: i64, n: nat)
    requires Ok(c, s, n)
    ensures var r := DoChangeDelay(c, s, delay, now); r.mode == Failed || Lossless(s, [], r)
  {
    hide Ok, Held, Lossless, Retarget, Observe, Regresses, ClearAll;
    ClockBuffer(s, now);
    if !Regresses(s, now) {
      if s.mode == Bypass {
        NoneHeld(c, s, n);
      } else if ValidDelay(c, delay) {
        RetargetQueues(Observe(s, now), delay);
      }
      HeldLossless(s, DoChangeDelay(c, s, delay, now));
    }
  }

  lemma RetargetQueues(s: State, delay: nat)
    ensures SameBuffer(s, Retarget(s, delay))
  {
    hide Retarget;
    RetargetLanes(s, delay);
    RetargetPending(s, delay);
  }

  lemma RetargetLanes(s: State, delay: nat)
    ensures Retarget(s, delay).queues == s.queues
  {
    if s.mode == Preparing {
    } else if s.mode == Filling {
    } else if s.mode == Delayed {
    } else {
      assert Retarget(s, delay) == s;
    }
  }

  lemma RetargetPending(s: State, delay: nat)
    ensures Retarget(s, delay).pending == s.pending
  {
    if s.mode == Preparing {
    } else if s.mode == Filling {
    } else if s.mode == Delayed {
    } else {
      assert Retarget(s, delay) == s;
    }
  }

  lemma CancelLossless(c: Config, s: State, now: i64)
    ensures var r := DoCancel(c, s, now); r.mode == Failed || Lossless(s, [], r)
  {
    hide Held, Lossless, Cancelled, Observe, Regresses;
    ClockBuffer(s, now);
    if !Regresses(s, now) {
      CancelledQueues(c, Observe(s, now), now);
      HeldLossless(s, DoCancel(c, s, now));
    }
  }

  lemma CancelledQueues(c: Config, s: State, now: i64)
    ensures SameBuffer(s, Cancelled(c, s, now))
  {
    hide ReturnLanes;
    if s.mode == Preparing && s.preparingChange {
    } else if s.mode == Filling && s.originDelayed {
    } else if s.mode == Preparing || s.mode == Filling {
    } else {
      assert Cancelled(c, s, now) == s;
    }
  }

  lemma DeactivateLossless(c: Config, s: State, now: i64)
    ensures var r := DoDeactivate(c, s, now); r.mode == Failed || Lossless(s, [], r)
  {
    hide Held, Lossless, StartReturn, Observe, Regresses;
    ClockBuffer(s, now);
    var s1 := Observe(s, now);
    if !Regresses(s, now) {
      StartedQueues(c, s1, true, now);
      StartedQueues(c, s1, false, now);
      HeldLossless(s, DoDeactivate(c, s, now));
    }
  }

  lemma StartedQueues(c: Config, s: State, fromDelayed: bool, now: i64)
    ensures SameBuffer(s, StartReturn(c, s, fromDelayed, now))
  {
    hide ReturnLanes;
  }

  lemma FinishLossless(c: Config, s: State, now: i64, n: nat)
    requires Ok(c, s, n)
    ensures var r := DoFinishReturn(s, now); r.mode == Failed || Lossless(s, [], r)
  {
    hide Held, Lossless, LanesOk, DistinctLanes, OneGeneration, DistinctPending, HorizonsOk, CapsOk;
    if Regresses(s, now) {
      RegressFails(s, now);
    } else {
      if s.mode == Returning && s.returnCommitted && s.pending == [] {
        assert Held(s) == iset{} by { EmptyHeld(s); }
      }
      HeldLossless(s, DoFinishReturn(s, now));
    }
  }

  lemma EmptyHeld(s: State)
    requires s.queues == map[] && s.pending == []
    ensures Held(s) == iset{}
  {
  }

  lemma RecoverLossless(c: Config, s: State, now: i64, n: nat)
    requires Ok(c, s, n)
    ensures var r := DoRecover(s, now); r.mode == Failed || Lossless(s, [], r)
  {
    hide Ok, Held, Lossless;
    if Regresses(s, now) {
      RegressFails(s, now);
    } else {
      if s.mode == Failed {
        NoneHeld(c, s, n);
      }
      HeldLossless(s, DoRecover(s, now));
    }
  }

  lemma ExternalLossless(c: Config, s: State, p: Packet)
    ensures var r := DoExternal(c, s, p); r.mode == Failed || Lossless(s, [], r)
  {
    hide Held, Lossless, RegressesOutput;
    ErrorHolds(s, TooManyTimelines);
    ErrorHolds(s.(known := s.known + {Timeline(p.stream)}), ExternalOutput);
    if DoExternal(c, s, p).mode != Failed {
      HeldLossless(s, DoExternal(c, s, p));
    }
  }

  lemma PruneNowLoses(c: Config, s: State, now: i64)
    requires !Regresses(s, now)
    ensures Loses(c, s, now, [], Prune(c, Observe(s, now), now))
  {
    hide Prune, Held, HandedOut, Longest;
    ClockHeld(s, now);
    PruneLoses(c, Observe(s, now), now);
  }

  /** What a call may do with a packet that it finds in the buffer or brings along, unless the engine ends up failed. */
  ghost predicate Fate(c: Config, s: State, op: Op, x: Queued, r: Drained) {
    || x in Held(r.state) || HandedOut(r.out, x)
    || ((op.Push? || op.Poll? || op.PruneNow?) && Spent(c, s, op.now, x))
    || (Cuts(op) && Result(c, s, op) == Accepted)
  }

  /** No call loses a packet: it stays buffered, or is handed out, or is spent, or falls to an accepted cut. */
  lemma StepLoses(c: Config, s: State, op: Op, n: nat, x: Queued)
    requires c.Valid() && Ok(c, s, n) && x in Sources(c, s, op, n)
    ensures var r := Step(c, s, op, n); r.state.mode == Failed || Fate(c, s, op, x, r)
  {
    hide Ok, Held, DoPush, DoPoll, DoExternal, Prune, Result, HandedOut, DoCommitDelayed, DoCommitReturn, Spent, Observe;
    if op.Push? {
      PushAccounts(c, s, op.packet, op.now, n);
    } else if op.Poll? {
      PollAccounts(c, s, op.now, n);
    } else if op.PruneNow? {
      if Regresses(s, op.now) {
        RegressFails(s, op.now);
      } else {
        PruneNowLoses(c, s, op.now);
      }
    } else if op.External? {
      ExternalLossless(c, s, op.packet);
    } else if op.ReportError? {
      ErrorHolds(s, Reported);
    } else if Cuts(op) {
      if Result(c, s, op) != Accepted {
        RefusedOnlyTellsTime(c, s, op, n);
        RefusedHolds(c, s, op, n);
      }
    } else {
      RequestLossless(c, s, op, n);
    }
  }

  lemma RefusedHolds(c: Config, s: State, op: Op, n: nat)
    requires Request(op)
    requires Step(c, s, op, n).state == Observe(s, op.now) || Step(c, s, op, n).state.mode == Failed
    ensures var r := Step(c, s, op, n).state; r.mode == Failed || Held(r) == Held(s)
  {
    hide Step, Held;
    if Regresses(s, op.now) {
      RegressFails(s, op.now);
    } else {
      ClockHeld(s, op.now);
    }
  }

  /** The call at which a packet is given up: the engine fails, or the packet is spent, or a cut is accepted. */
  ghost predicate GoneAt(c: Config, ops: seq<Op>, j: nat, x: Queued) {
    j < |ops| &&
    var before, op := Play(c, ops[..j]), ops[j];
    && x in Sources(c, before.state, op, before.next)
    && (|| Play(c, ops[..j + 1]).state.mode == Failed
        || ((op.Push? || op.Poll? || op.PruneNow?) && Spent(c, before.state, op.now, x))
        || (Cuts(op) && Result(c, before.state, op) == Accepted))
  }

  /** Over every run, each packet pushed so far is still buffered, or was handed out, or was given up at a call that may
      give it up. */
  lemma {:induction false} EveryPacketAccounted(c: Config, ops: seq<Op>, x: Queued)
    requires c.Valid() && x in Play(c, ops).pushed
    ensures || x in Held(Play(c, ops).state) || HandedOut(Play(c, ops).emitted, x)
            || exists j: nat :: GoneAt(c, ops, j, x)
  {
    hide Ok, Step, Held, Spent, HandedOut, Conserved, Sources, Result, GoneAt, Fate, Cuts;
    if ops != [] {
      var less, op := ops[..|ops| - 1], ops[|ops| - 1];
      var before := Play(c, less);
      EveryRunConserves(c, less);
      ConservedOk(c, before);
      PushedBefore(c, before, op, x);
      if x in before.pushed {
        EveryPacketAccounted(c, less, x);
      }
      if x in Sources(c, before.state, op, before.next) {
        StepLoses(c, before.state, op, before.next, x);
        FateGone(c, ops, x);
      } else if HandedOut(before.emitted, x) {
        HandedMore(before.emitted, Step(c, before.state, op, before.next).out, x);
      } else {
        assert x !in Held(before.state) by { HeldSources(c, before.state, op, before.next); }
        var j: nat :| GoneAt(c, less, j, x);
        GoneMore(c, ops, j, x);
      }
    }
  }

  lemma PushedBefore(c: Config, before: Run, op: Op, x: Queued)
    requires x in Played(c, before, op).pushed
    ensures x in before.pushed || x in Sources(c, before.state, op, before.next)
  {
    hide Step, Held;
  }

  lemma HeldSources(c: Config, s: State, op: Op, n: nat)
    ensures forall x :: x in Held(s) ==> x in Sources(c, s, op, n)
  {
    hide Held;
  }

  lemma HandedMore(out: seq<Output>, more: seq<Output>, x: Queued)
    requires HandedOut(out, x) || HandedOut(more, x)
    ensures HandedOut(out + more, x)
  {
    hide Released;
    if i :| 0 <= i < |out| && Released(x, out[i]) {
      assert (out + more)[i] == out[i];
    } else {
      var i :| 0 <= i < |more| && Released(x, more[i]);
      assert (out + more)[|out| + i] == more[i];
    }
  }

  lemma FateGone(c: Config, ops: seq<Op>, x: Queued)
    requires ops != []
    requires var before, op := Play(c, ops[..|ops| - 1]), ops[|ops| - 1]; var r := Step(c, before.state, op, before.next);
             x in Sources(c, before.state, op, before.next) && (r.state.mode == Failed || Fate(c, before.state, op, x, r))
    ensures x in Held(Play(c, ops).state) || HandedOut(Play(c, ops).emitted, x) || GoneAt(c, ops, |ops| - 1, x)
  {
    hide Step, Held, HandedOut, Sources, Result, Spent;
    var before, op := Play(c, ops[..|ops| - 1]), ops[|ops| - 1];
    var r := Step(c, before.state, op, before.next);
    assert ops[..|ops|] == ops;
    if HandedOut(r.out, x) {
      HandedMore(before.emitted, r.out, x);
    }
  }

  lemma GoneMore(c: Config, ops: seq<Op>, j: nat, x: Queued)
    requires ops != [] && GoneAt(c, ops[..|ops| - 1], j, x)
    ensures GoneAt(c, ops, j, x)
  {
    hide Play, Held, Sources, Result, Spent;
    var less := ops[..|ops| - 1];
    assert ops[..j] == less[..j] && ops[..j + 1] == less[..j + 1];
  }
}
