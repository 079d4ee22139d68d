/** Every operation that releases packets keeps the invariant and moves each packet at most once: what is
    emitted was held before and is not held after. */
module PacketDelayKeep {
  import opened Options
  import opened Timestamps
  import opened PacketTypes
  import opened PacketDelaySpec
  import opened PacketDelayStep
  import opened PacketDelayInvariant
  import opened PacketDelayMerge

  // ---------------------------------------------------------------------
  // The ledger: where the packets of one state go

  ghost predicate Holds(s: State, x: Queued) {
    InLane(s.queues, x) || x in s.pending
  }

  ghost function Held(s: State): iset<Queued> {
    iset x: Queued | Holds(s, x)
  }

  /** The output is the queued packet with PTS and DTS moved by the same amount. */
  predicate Released(x: Queued, o: Output) {
    && o.sequence == x.sequence && o.receivedAt == x.receivedAt
    && o.packet == x.packet.(pts := o.packet.pts, dts := o.packet.dts)
    && o.packet.pts as int - o.packet.dts as int == x.packet.pts as int - x.packet.dts as int
  }

  ghost predicate Unheld(after: iset<Queued>, sequence: nat) {
    forall y :: y in after ==> y.sequence != sequence
  }

  ghost predicate From(before: iset<Queued>, o: Output) {
    exists x :: x in before && Released(x, o)
  }

  /** Outputs come from what was held before, once each, and are no longer held. */
  ghost predicate Ledger(before: iset<Queued>, out: seq<Output>, after: iset<Queued>) {
    && after <= before
    && (forall i :: 0 <= i < |out| ==> From(before, out[i]))
    && (forall i :: 0 <= i < |out| ==> Unheld(after, out[i].sequence))
    && (forall i, j :: 0 <= i < j < |out| ==> out[i].sequence != out[j].sequence)
  }

  lemma LedgerNone(before: iset<Queued>, after: iset<Queued>)
    requires after <= before
    ensures Ledger(before, [], after)
  {
  }

  lemma LedgerThen(a: iset<Queued>, out1: seq<Output>, b: iset<Queued>, out2: seq<Output>, c: iset<Queued>)
    requires Ledger(a, out1, b) && Ledger(b, out2, c)
    ensures Ledger(a, out1 + out2, c)
  {
    var out := out1 + out2;
    forall i | 0 <= i < |out| ensures From(a, out[i]) && Unheld(c, out[i].sequence) {
      if i < |out1| {
        assert out[i] == out1[i] && Unheld(b, out1[i].sequence);
      } else {
        assert out[i] == out2[i - |out1|];
        FromMore(b, a, out[i]);
      }
    }
    forall i, j | 0 <= i < j < |out| ensures out[i].sequence != out[j].sequence {
      if i < |out1| <= j {
        assert Unheld(b, out1[i].sequence) && From(b, out2[j - |out1|]);
      }
    }
  }

  lemma FromMore(a: iset<Queued>, larger: iset<Queued>, o: Output)
    requires From(a, o) && a <= larger
    ensures From(larger, o)
  {
    var x :| x in a && Released(x, o);
    assert x in larger;
  }

  lemma LedgerMore(a: iset<Queued>, larger: iset<Queued>, out: seq<Output>, b: iset<Queued>)
    requires Ledger(a, out, b) && a <= larger
    ensures Ledger(larger, out, b)
  {
    forall i | 0 <= i < |out| ensures From(larger, out[i]) {
      FromMore(a, larger, out[i]);
    }
  }

  // ---------------------------------------------------------------------
  // Draining

  /** One drained packet comes from the front of a lane and leaves no copy behind. */
  lemma PopLedger(c: Config, s: State, k: StreamKey, bound: nat)
    requires Ok(c, s, bound) && k in s.queues
    ensures s.queues[k] != []
    ensures Ok(c, PopFront(s, k), bound) && Held(PopFront(s, k)) <= Held(s)
    ensures s.queues[k][0] in Held(s) && Unheld(Held(PopFront(s, k)), s.queues[k][0].sequence)
  {
    assert LaneOk(c, k, s.queues[k], bound, s.lastObserved);
    forall j | j in s.queues ensures s.queues[j] != [] {
      assert LaneOk(c, j, s.queues[j], bound, s.lastObserved);
    }
    PopSuffixes(s, k);
    var r := PopFront(s, k);
    OkSuffixes(c, s, r.queues, bound);
    assert s.queues[k][0] in s.queues[k];
    SuffixesHeld(s, r.queues);
    forall y | y in Held(r) ensures y.sequence != s.queues[k][0].sequence {
      PopGone(c, s, k, bound, y);
    }
  }

  lemma SuffixesHeld(s: State, m: Queues)
    requires Suffixes(m, s.queues)
    ensures Held(s.(queues := m)) <= Held(s)
  {
    forall y | y in Held(s.(queues := m)) ensures y in Held(s) {
      if y !in s.pending {
        var j :| j in m && y in m[j];
        assert SuffixOf(m[j], s.queues[j]);
        assert y in s.queues[j];
      }
    }
  }

  lemma PopGone(c: Config, s: State, k: StreamKey, bound: nat, y: Queued)
    requires Ok(c, s, bound) && k in s.queues && s.queues[k] != [] && Holds(PopFront(s, k), y)
    ensures y.sequence != s.queues[k][0].sequence
  {
    var r := PopFront(s, k);
    assert s.pending == [];
    var j :| j in r.queues && y in r.queues[j];
    if j == k {
      assert LaneOk(c, k, s.queues[k], bound, s.lastObserved);
      assert y in s.queues[k][1..];
    } else {
      assert Apart(s.queues[j], s.queues[k]);
    }
  }

  /** Recording an output changes horizons only. */
  lemma OkNote(c: Config, s: State, p: Packet, bound: nat)
    requires Ok(c, s, bound) && Note(s, p).Some?
    ensures Ok(c, Note(s, p).value, bound) && Held(Note(s, p).value) == Held(s)
  {
    var r := Note(s, p).value;
    assert r.queues == s.queues && r.pending == s.pending;
  }

  lemma ErrorHolds(s: State, fault: Fault)
    ensures Held(EnterError(s, fault)) == iset{} && EnterError(s, fault).mode == Failed
  {
  }

  lemma OkEmit(c: Config, s: State, x: Queued, now: i64, delayed: bool, overflow: Fault, regress: Fault, bound: nat)
    requires c.Valid() && Ok(c, s, bound) && Unheld(Held(s), x.sequence)
    ensures var r := Emit(s, x, now, delayed, overflow, regress);
            && Ok(c, r.state, bound) && |r.out| <= 1 && Held(r.state) <= Held(s)
            && Ledger(Held(s) + iset{x}, r.out, Held(r.state))
            && (r.out != [] ==> r.out[0].delayed == delayed && Held(r.state) == Held(s))
  {
    var r := Emit(s, x, now, delayed, overflow, regress);
    if r.out == [] {
      OkError(c, s, bound, overflow);
      OkError(c, s, bound, regress);
      ErrorHolds(s, overflow);
      ErrorHolds(s, regress);
    } else {
      var shifted := Retimestamp(x.packet, s.offsets[x.packet.stream]).value;
      OkNote(c, s, shifted, bound);
      assert Released(x, r.out[0]);
      assert x in Held(s) + iset{x};
    }
  }

  /** Every emission of a step says whether it left the delay line. */
  ghost predicate AllDelayed(out: seq<Output>, delayed: bool) {
    forall i :: 0 <= i < |out| ==> out[i].delayed == delayed
  }

  ghost predicate Moves(c: Config, s: State, r: Drained, bound: nat) {
    Ok(c, r.state, bound) && Ledger(Held(s), r.out, Held(r.state))
  }

  lemma OkErase(c: Config, s: State, k: StreamKey, bound: nat)
    requires Ok(c, s, bound) && k in s.queues && s.queues[k] != []
    ensures var r := GateErases(s, k);
            Ok(c, r, bound) && Held(r) == Held(s) && r.queues == s.queues && r.pending == s.pending
  {
    var r := GateErases(s, k);
    assert r.queues == s.queues && r.pending == s.pending;
    assert s.returnKeys == map[] ==> r.returnKeys == map[];
  }

  lemma OkPopEmit(c: Config, s: State, k: StreamKey, now: i64, bound: nat)
    requires c.Valid() && Ok(c, s, bound) && k in s.queues && s.queues[k] != []
    ensures var r := Emit(PopFront(s, k), s.queues[k][0], now, true, RetimestampOverflow, LatePacket);
            Moves(c, s, r, bound)
  {
    hide Ok, Held, Emit, Ledger, Unheld;
    PopLedger(c, s, k, bound);
    var x := s.queues[k][0];
    OkEmit(c, PopFront(s, k), x, now, true, RetimestampOverflow, LatePacket, bound);
    var one := Emit(PopFront(s, k), x, now, true, RetimestampOverflow, LatePacket);
    LedgerMore(Held(PopFront(s, k)) + iset{x}, Held(s), one.out, Held(one.state));
  }

  lemma MovesNowhere(c: Config, s: State, bound: nat)
    requires Ok(c, s, bound)
    ensures Moves(c, s, Drained(s, []), bound)
  {
    LedgerNone(Held(s), Held(s));
  }

  lemma MovesToError(c: Config, s: State, before: State, fault: Fault, bound: nat)
    requires c.Valid() && Ok(c, s, bound)
    ensures Moves(c, before, Drained(EnterError(s, fault), []), bound)
  {
    OkError(c, s, bound, fault);
    ErrorHolds(s, fault);
    LedgerNone(Held(before), iset{});
  }

  lemma MovesThen(c: Config, s: State, one: Drained, rest: Drained, bound: nat)
    requires Moves(c, s, one, bound) && Moves(c, one.state, rest, bound)
    ensures Moves(c, s, Drained(rest.state, one.out + rest.out), bound)
  {
    LedgerThen(Held(s), one.out, Held(one.state), rest.out, Held(rest.state));
  }

  lemma OkDrainLane(c: Config, s: State, now: i64, k: StreamKey, bound: nat)
    requires c.Valid() && Ok(c, s, bound)
    requires k in s.queues && s.queues[k] != [] && Ordering(s, s.queues[k][0].packet).Some?
    ensures Moves(c, s, DrainLane(c, s, now, k), bound)
  {
    if GateStops(c, s, now, k) {
      MovesNowhere(c, s, bound);
    } else {
      var s1 := GateErases(s, k);
      OkErase(c, s, k, bound);
      match Watermark(c, s1, now, Ordering(s, s.queues[k][0].packet).value)
      case Unrepresentable => MovesToError(c, s1, s, ReorderWindow, bound);
      case Hold => LedgerNone(Held(s), Held(s1));
      case Pass => OkPopEmit(c, s1, k, now, bound);
    }
  }

  lemma OkDrainOnce(c: Config, s: State, now: i64, bound: nat)
    requires c.Valid() && Ok(c, s, bound)
    ensures Moves(c, s, DrainOnce(c, s, now), bound)
  {
    if (exists k :: k in s.active && Watching(c, s, now, k) && k !in s.latest) ||
       forall k :: k in s.queues ==> !DueFront(s, now, k) {
      MovesNowhere(c, s, bound);
    } else if !Ordered(s, now) {
      MovesToError(c, s, s, InvalidQueuedTimeBase, bound);
    } else {
      OkDrainLane(c, s, now, NextLane(s, now), bound);
    }
  }

  lemma {:induction false} OkDrainUpTo(c: Config, s: State, now: i64, fuel: nat, bound: nat)
    requires c.Valid() && Ok(c, s, bound)
    ensures Moves(c, s, DrainUpTo(c, s, now, fuel), bound)
    decreases fuel
  {
    hide DrainOnce;
    if fuel == 0 {
      MovesNowhere(c, s, bound);
    } else {
      OkDrainOnce(c, s, now, bound);
      var one := DrainOnce(c, s, now);
      if one.out != [] {
        OkDrainUpTo(c, one.state, now, fuel - 1, bound);
        MovesThen(c, s, one, DrainUpTo(c, one.state, now, fuel - 1), bound);
      }
    }
  }

  lemma DrainOnceDelays(c: Config, s: State, now: i64)
    ensures AllDelayed(DrainOnce(c, s, now).out, true)
  {
  }

  lemma {:induction false} DrainedAreDelayed(c: Config, s: State, now: i64, fuel: nat)
    ensures AllDelayed(DrainUpTo(c, s, now, fuel).out, true)
    decreases fuel
  {
    hide DrainOnce;
    DrainOnceDelays(c, s, now);
    if fuel != 0 && DrainOnce(c, s, now).out != [] {
      DrainedAreDelayed(c, DrainOnce(c, s, now).state, now, fuel - 1);
    }
  }

  lemma OkDrain(c: Config, s: State, now: i64, bound: nat)
    requires c.Valid() && Ok(c, s, bound)
    ensures Moves(c, s, Drain(c, s, now), bound) && AllDelayed(Drain(c, s, now).out, true)
  {
    hide DrainUpTo, Ok, Ledger, Packets, AllDelayed;
    OkDrainUpTo(c, s, now, Packets(s) + 1, bound);
    DrainedAreDelayed(c, s, now, Packets(s) + 1);
  }

  lemma PendingRest(c: Config, s: State, bound: nat)
    requires Ok(c, s, bound) && s.pending != []
    ensures var r := s.(pending := s.pending[1..]);
            && Ok(c, r, bound) && Unheld(Held(r), s.pending[0].sequence)
            && Held(r) + iset{s.pending[0]} <= Held(s)
  {
    var r := s.(pending := s.pending[1..]);
    SeqWeightOne(s.pending);
    assert s.queues == map[];
    assert s.pending[0] in s.pending;
    forall y | y in r.pending ensures y in s.pending && y.sequence != s.pending[0].sequence {
      var i :| 0 <= i < |r.pending| && r.pending[i] == y;
      assert s.pending[i + 1] == y;
    }
  }

  lemma OkEmitPending(c: Config, s: State, now: i64, bound: nat)
    requires c.Valid() && Ok(c, s, bound) && s.pending != []
    ensures var r := Emit(s.(pending := s.pending[1..]), s.pending[0], now, false, ReturnRegression, ReturnRegression);
            Moves(c, s, r, bound) && AllDelayed(r.out, false)
  {
    PendingRest(c, s, bound);
    var s1 := s.(pending := s.pending[1..]);
    OkEmit(c, s1, s.pending[0], now, false, ReturnRegression, ReturnRegression, bound);
    var one := Emit(s1, s.pending[0], now, false, ReturnRegression, ReturnRegression);
    LedgerMore(Held(s1) + iset{s.pending[0]}, Held(s), one.out, Held(one.state));
  }

  lemma {:induction false} OkDrainPending(c: Config, s: State, now: i64, bound: nat)
    requires c.Valid() && Ok(c, s, bound)
    ensures Moves(c, s, DrainPending(s, now), bound) && AllDelayed(DrainPending(s, now).out, false)
    decreases |s.pending|
  {
    if s.pending == [] {
      MovesNowhere(c, s, bound);
    } else {
      OkEmitPending(c, s, now, bound);
      var one := Emit(s.(pending := s.pending[1..]), s.pending[0], now, false, ReturnRegression, ReturnRegression);
      if one.out != [] {
        OkDrainPending(c, one.state, now, bound);
        MovesThen(c, s, one, DrainPending(one.state, now), bound);
      }
    }
  }
}
