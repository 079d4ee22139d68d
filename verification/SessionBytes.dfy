/** Byte counters are exact. */
module SessionBytes {
  // Over every run they are the sums over their queues.

  import opened Options
  import opened SessionSpec
  import opened SessionSearch

  predicate Counted(s: State)
    requires s.Shaped()
  {
    s.buffered == TotalSize(s.primary) <= MAX_PRIMARY_BYTES && s.holdBuffered == TotalSize(s.hold) <= MAX_HOLD_BYTES
  }

  predicate SameBytes(s: State, r: State) {
    r.primary == s.primary && r.buffered == s.buffered && r.hold == s.hold && r.holdBuffered == s.holdBuffered
  }

  lemma {:induction false} SnocSize(q: Queue, x: Packet)
    ensures SizeOf(q + [x]) == SizeOf(q) + x.size
  {
    if q != [] {
      assert (q + [x])[1..] == q[1..] + [x];
      SnocSize(q[1..], x);
    } else {
      assert q + [x] == [x];
    }
  }

  lemma {:induction false} EmptyTotal(lanes: seq<Queue>)
    requires forall l :: 0 <= l < |lanes| ==> lanes[l] == []
    ensures TotalSize(lanes) == 0
  {
    if lanes != [] {
      EmptyTotal(lanes[1..]);
    }
  }

  lemma {:induction false} FromSize(q: Queue, at: int)
    ensures SizeOf(From(q, at)) <= SizeOf(q)
  {
    if q != [] && q[0].usec < at {
      FromSize(q[1..], at);
    }
  }

  lemma {:induction false} FromTotal(r: seq<Queue>, lanes: seq<Queue>)
    requires |r| == |lanes| && forall l :: 0 <= l < |r| ==> SizeOf(r[l]) <= SizeOf(lanes[l])
    ensures TotalSize(r) <= TotalSize(lanes)
  {
    if r != [] {
      FromTotal(r[1..], lanes[1..]);
    }
  }

  lemma EpochBytes(s: State, c: Packet, payload: Packet)
    ensures SameBytes(s, BeginEpoch(s, c, payload).state)
  {
    hide Presented, NextSafe;
  }

  lemma BufferCounted(s: State, p: Packet, raw: int)
    requires s.Shaped() && Counted(s) && Fits(MAX_PRIMARY_BYTES, s.buffered, p.size)
    ensures Counted(Buffer(s, p, raw))
  {
    hide TotalSize, SizeOf;
    var l := LaneFor(p);
    SnocSize(s.primary[l], p.(usec := raw));
    TotalUpdate(s.primary, l, s.primary[l] + [p.(usec := raw)]);
  }

  lemma TakePrimaryCounted(s: State, c: Packet)
    requires s.Shaped() && Counted(s)
    ensures Counted(TakePrimary(s, c).state)
  {
    hide TotalSize, SizeOf, Hole;
    var l := LaneFor(c);
    if s.primary[l] != [] {
      FrontSize(s.primary[l]);
      TotalUpdate(s.primary, l, s.primary[l][1..]);
    }
  }

  lemma FrontSize(q: Queue)
    requires q != []
    ensures SizeOf(q) == q[0].size + SizeOf(q[1..])
  {
  }

  lemma TakeHoldCounted(s: State, c: Packet)
    requires s.Shaped() && Counted(s)
    ensures Counted(TakeHold(s, c).state)
  {
    hide TotalSize, SizeOf;
    var l := LaneFor(c);
    if s.hold[l] != [] {
      FrontSize(s.hold[l]);
      TotalUpdate(s.hold, l, s.hold[l][1..]);
    }
  }

  lemma CutCounted(s: State, origin: int)
    requires s.Shaped() && Counted(s)
    ensures Counted(CutAt(s, origin))
  {
    hide TotalSize, SizeOf, From;
    var r := CutAt(s, origin);
    forall l | 0 <= l < LANES ensures SizeOf(r.primary[l]) <= SizeOf(s.primary[l]) {
      FromSize(s.primary[l], origin);
    }
    FromTotal(r.primary, s.primary);
  }

  lemma RealignCounted(s: State, c: Packet, raw: int)
    requires s.Shaped() && Counted(s)
    ensures Counted(Realign(s, c, raw).state)
  {
    hide Scan, Skewed, LowerBound, Covered, BeginEpoch, CutAt;
    if c.video && s.primary[0] != [] {
      var s1 := HeadChecked(s);
      if s1.realign && LanesReady(s1) && Skewed(s1, raw - s1.primary[0][0].usec) {
        var pick := Pick(s1, raw - s1.target * 1_000_000);
        if pick.Some? {
          var origin := s1.primary[0][pick.value].usec;
          CutCounted(s1, origin);
          var s2 := CutAt(s1, origin);
          if s2.primary[0] != [] {
            EpochBytes(s2, c, s2.primary[0][0]);
          }
        }
      }
    }
  }

  lemma UnderrunCounted(t: Taken, fromFilling: bool)
    requires t.state.Shaped() && Counted(t.state)
    ensures Counted(Underrun(t, fromFilling).state)
  {
    hide BeginEpoch;
    EpochBytes(t.state, t.carrier, t.carrier);
  }

  lemma DrainCounted(s: State, c: Packet)
    requires s.Shaped() && Counted(s)
    ensures Counted(DrainDelayed(s, c).state)
  {
    hide TakePrimary, Underrun;
    TakePrimaryCounted(s, c);
    UnderrunCounted(TakePrimary(s, c), false);
  }

  lemma HoldCounted(s: State, c: Packet, starting: bool)
    requires s.Shaped() && Counted(s)
    ensures var b := StartHold(s, c, starting); Counted(TakeHold(b.state, b.carrier).state)
  {
    hide BeginEpoch, TakeHold;
    if starting && s.hold[0] != [] {
      EpochBytes(s, c, s.hold[0][0]);
    }
    var b := StartHold(s, c, starting);
    TakeHoldCounted(b.state, b.carrier);
  }

  lemma EnterCounted(s: State, c: Packet)
    requires s.Shaped() && Counted(s) && s.primary[0] != []
    ensures Counted(EnterDelayed(s, c).state)
  {
    hide BeginEpoch, TakePrimary, TakeFallback;
    var b := BeginEpoch(s, c, s.primary[0][0]);
    EpochBytes(s, c, s.primary[0][0]);
    var s1 := b.state.(mode := Delayed, lastEmitted := Nothing());
    TakePrimaryCounted(s1, b.carrier);
    var t := TakePrimary(s1, b.carrier);
    var kept := TakeFallback(t.state.holdFallback, t.carrier);
    EpochBytes(t.state, kept.carrier, kept.carrier);
  }

  lemma FillCounted(s: State, c: Packet, raw: int, starting: bool)
    requires s.Shaped() && Counted(s)
    ensures Counted(FillStep(s, c, raw, starting).state)
  {
    hide StartHold, TakeHold, Underrun, EnterDelayed, Buffer, Fits;
    if !Fits(MAX_PRIMARY_BYTES, s.buffered, c.size) {
      HoldCounted(s.(fromFilling := true, mode := Returning), c, starting);
    } else {
      var s1 := Buffer(s, c, raw);
      BufferCounted(s, c, raw);
      if FillReady(s1, c, raw) {
        EnterCounted(s1, c);
      } else {
        HoldCounted(s1, c, starting);
        var b := StartHold(s1, c, starting);
        UnderrunCounted(TakeHold(b.state, b.carrier), true);
      }
    }
  }

  lemma DelayCounted(s: State, c: Packet, raw: int)
    requires s.Shaped() && Counted(s)
    ensures Counted(DelayStep(s, c, raw).state)
  {
    hide Realign, DrainDelayed, BeginEpoch, Buffer, Fits;
    if !Fits(MAX_PRIMARY_BYTES, s.buffered, c.size) {
      var s1 := s.(fromFilling := false, drain := true, mode := Returning);
      EpochBytes(s1, c, c);
      DrainCounted(s1, c);
    } else {
      BufferCounted(s, c, raw);
      RealignCounted(Buffer(s, c, raw), c, raw);
      var a := Realign(Buffer(s, c, raw), c, raw);
      DrainCounted(a.state, a.carrier);
    }
  }

  lemma ReturnCounted(s: State, c: Packet, raw: int)
    requires s.Shaped() && Counted(s)
    ensures Counted(ReturnStep(s, c, raw).state)
  {
    hide TakeHold, DrainDelayed, Buffer, Fits;
    TakeHoldCounted(s, c);
    DrainCounted(s, c);
    DrainCounted(s.(drain := true), c);
    if Fits(MAX_PRIMARY_BYTES, s.buffered, c.size) {
      BufferCounted(s, c, raw);
      DrainCounted(Buffer(s, c, raw), c);
    }
  }

  lemma LiveCounted(s: State, p: Packet, audioStep: nat)
    requires s.Shaped() && Counted(s)
    ensures Counted(Process(s, p, audioStep).state)
  {
    hide NoteCadence, NoteEmitted, FillStep, DelayStep, ReturnStep, BeginEpoch, PrerollReady, Shift;
    var s1 := NoteCadence(s, p, audioStep);
    CadenceBytes(s, p, audioStep);
    var c := Shift(p, s.offset);
    FillCounted(s1, c, p.usec, false);
    FillCounted(s1.(fillStart := p.usec, mode := Filling), c, p.usec, true);
    DelayCounted(s1, c, p.usec);
    ReturnCounted(s1, c, p.usec);
    EpochBytes(s1, c, c);
    var routed := Route(s1, c, p.usec);
    NotedBytes(routed.state, routed.carrier);
  }

  lemma CadenceBytes(s: State, p: Packet, audioStep: nat)
    requires s.Shaped()
    ensures SameBytes(s, NoteCadence(s, p, audioStep))
  {
    hide StepAfter, Hole;
  }

  lemma NotedBytes(s: State, p: Packet)
    ensures SameBytes(s, NoteEmitted(s, p))
  {
    hide Presented;
  }

  lemma RestartCounted(s: State, p: Packet)
    requires s.Shaped() && Counted(s)
    ensures Counted(RestartHold(s, p))
  {
    hide TotalSize, From;
    var r := RestartHold(s, p);
    forall l | 0 <= l < LANES ensures SizeOf(r.hold[l]) <= SizeOf(s.hold[l]) {
      FromSize(s.hold[l], p.usec);
    }
    FromTotal(r.hold, s.hold);
  }

  lemma {:induction false} TrimCounted(s: State, l: nat)
    requires s.Shaped() && l < LANES && Counted(s)
    ensures Counted(TrimHold(s, l))
    decreases |s.hold[l]|
  {
    hide TotalSize, SizeOf;
    if s.mode == Preparing && l != 0 && |s.hold[l]| > MAX_HOLD_LANE_PACKETS {
      FrontSize(s.hold[l]);
      TotalUpdate(s.hold, l, s.hold[l][1..]);
      TrimCounted(s.(hold := s.hold[l := s.hold[l][1..]], holdBuffered := Less(s.holdBuffered, s.hold[l][0].size)), l);
    }
  }

  lemma HoldPacketCounted(s: State, p: Packet, compatible: bool)
    requires s.Shaped() && Counted(s)
    ensures Counted(ReceiveHold(s, p, compatible))
  {
    hide TotalSize, SizeOf, TrimHold, FormatClash, RestartHold, StoreHold;
    if TakesHold(s) {
      var s0 := s.(holdFormats := s.holdFormats[LaneFor(p) := Some(FormatOf(p))]);
      RestartCounted(s0, p);
      var s1 := NoteHold(s, p);
      if Fits(MAX_HOLD_BYTES, s1.holdBuffered, p.size) {
        StoreCounted(s1, p);
        StoredCounted(StoreHold(s1, p), LaneFor(p));
      }
    }
  }

  lemma StoredCounted(s: State, l: nat)
    requires s.Shaped() && Counted(s) && l < LANES
    ensures Counted(s.(mode := Error)) && Counted(TrimHold(s, l))
    ensures Counted(TrimHold(s.(holdReady := true), l)) && Counted(TrimHold(s.(mode := Error), l))
  {
    hide TotalSize, TrimHold;
    TrimCounted(s, l);
    TrimCounted(s.(holdReady := true), l);
    TrimCounted(s.(mode := Error), l);
  }

  lemma StoreCounted(s: State, p: Packet)
    requires s.Shaped() && Counted(s) && Fits(MAX_HOLD_BYTES, s.holdBuffered, p.size)
    ensures Counted(StoreHold(s, p))
  {
    hide TotalSize, SizeOf;
    var l := LaneFor(p);
    SnocSize(s.hold[l], p);
    TotalUpdate(s.hold, l, s.hold[l] + [p]);
  }

  lemma RequestCounted(s: State, op: Op)
    requires s.Shaped() && Counted(s) && !op.Live? && !op.HoldPacket?
    ensures Counted(Step(s, op))
  {
    hide TotalSize;
    EmptyTotal(NoQueues());
  }

  lemma {:induction false} EveryRunCounted(ops: seq<Op>)
    ensures Counted(Reached(ops))
  {
    hide Process, ReceiveHold, Counted;
    if ops == [] {
      StartCounted();
    } else {
      var s, op := Reached(ops[..|ops| - 1]), ops[|ops| - 1];
      EveryRunCounted(ops[..|ops| - 1]);
      match op {
        case Live(p, audioStep) => LiveCounted(s, p, audioStep);
        case HoldPacket(p, compatible) => HoldPacketCounted(s, p, compatible);
        case _ => RequestCounted(s, op);
      }
    }
  }

  lemma StartCounted()
    ensures Counted(Initial())
  {
    EmptyTotal(NoQueues());
  }
}
