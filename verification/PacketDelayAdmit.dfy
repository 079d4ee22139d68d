/** Which packets are let into the buffer. A packet is buffered exactly when its lane is free for it, it can be
    dated on the timeline in force, and the limits hold with it; and nothing of an earlier generation of its lane is
    left behind. */
module PacketDelayAdmit {
  import opened Options
  import opened Timestamps
  import opened PacketTypes
  import opened PacketDelaySpec
  import opened PacketDelayStep
  import opened PacketDelayInvariant
  import opened PacketDelayKeep
  import opened PacketDelayRun
  import opened PacketDelayCounts
  import opened PacketDelayReturn
  import opened PacketDelayEpoch
  import opened PacketDelayOffsets
  import opened PacketDelayAge
  import opened PacketDelayCut
  import opened PacketDelayLoss

  // ---------------------------------------------------------------------
  // Lanes and their generations

  /** The lane is known or one more may be, and no packet of another generation of it is buffered. */
  predicate LaneFree(c: Config, s: State, stream: StreamKey) {
    && (Timeline(stream) in s.known || |s.known| < c.maxStreams)
    && (forall k :: k in s.queues && s.queues[k] != [] && Timeline(k) == Timeline(stream) ==> k == stream)
  }

  /** Only this generation of the lane is remembered anywhere. */
  ghost predicate OnlyGeneration(s: State, stream: StreamKey) {
    forall k :: Timeline(k) == Timeline(stream) && k != stream ==>
      k !in s.active && k !in s.latest && k !in s.seen && k !in s.offsets && k !in s.returnKeys && k !in s.returnVideo
  }

  ghost predicate OthersKept(s: State, r: State, stream: StreamKey) {
    forall k :: Timeline(k) != Timeline(stream) || k == stream ==>
      && (k in r.active <==> k in s.active) && Find(r.latest, k) == Find(s.latest, k) && Find(r.seen, k) == Find(s.seen, k)
      && Find(r.offsets, k) == Find(s.offsets, k)
  }

  /** A packet is prepared for exactly when its lane is free; its generation then replaces every other of the lane. */
  lemma GenerationReplaces(c: Config, s: State, stream: StreamKey)
    ensures var r := PrepareStream(c, s, stream);
            && (r.ok <==> LaneFree(c, s, stream))
            && (r.ok ==> OnlyGeneration(r.state, stream) && OthersKept(s, r.state, stream)
                         && r.state.queues == s.queues && Timeline(stream) in r.state.known)
            && (!r.ok ==> r.state.mode == Failed)
  {
    hide EnterError, DropReplaced, OnlyGeneration, OthersKept;
    var s1 := s.(known := s.known + {Timeline(stream)});
    ErrorHolds(s, TooManyTimelines);
    ErrorHolds(s1, GenerationChanged);
    DroppedOnly(s, s1, stream);
    OldIsBuffered(s1, stream);
  }

  lemma OldIsBuffered(s: State, stream: StreamKey)
    ensures HasOldGeneration(s, stream)
            <==> exists k :: k in s.queues && s.queues[k] != [] && Timeline(k) == Timeline(stream) && k != stream
  {
  }

  lemma DroppedOnly(s: State, s1: State, stream: StreamKey)
    requires s1 == s.(known := s1.known)
    ensures var r := DropReplaced(s1, stream);
            && OnlyGeneration(r, stream) && OthersKept(s, r, stream) && r.queues == s.queues && r.known == s1.known
  {
    DroppedLanes(s1, stream);
    DroppedOthers(s1, stream);
  }

  lemma DroppedLanes(s: State, stream: StreamKey)
    ensures OnlyGeneration(DropReplaced(s, stream), stream)
  {
  }

  lemma DroppedOthers(s: State, stream: StreamKey)
    ensures OthersKept(s, DropReplaced(s, stream), stream)
  {
    hide Awaited;
  }

  /** What is shown outside the engine takes a lane of it as well, and fails it where there is none left. */
  lemma ExternalKnown(c: Config, s: State, p: Packet)
    ensures var r := DoExternal(c, s, p);
            if Timeline(p.stream) in s.known || |s.known| < c.maxStreams then r.known == s.known + {Timeline(p.stream)}
            else r.mode == Failed
  {
    hide EnterError, Note;
    var s1 := s.(known := s.known + {Timeline(p.stream)});
    ErrorHolds(s, TooManyTimelines);
    ErrorKnown(s1, ExternalOutput);
    NotedKnown(s1, p);
  }

  lemma ErrorKnown(s: State, fault: Fault)
    ensures EnterError(s, fault).known == s.known
  {
  }

  lemma NotedKnown(s: State, p: Packet)
    ensures Note(s, p).Some? ==> Note(s, p).value.known == s.known
  {
    hide RegressesOutput;
  }

  // ---------------------------------------------------------------------
  // Dates and limits

  /** The packet can be shown at an offset: its lane's own, or one that respects the delay and what was shown before. */
  ghost predicate Datable(s: State, p: Packet) {
    if EpochActive(s) && p.stream !in s.offsets then
      DelayTicks(s.target, p.tb).Some? && exists offset :: Acceptable(s, p, DelayTicks(s.target, p.tb).value, offset)
    else MIN64 <= p.dts as int + (if p.stream in s.offsets then s.offsets[p.stream] as int else 0) <= MAX64
  }

  /** With one more packet everything buffered is within the limits. */
  ghost predicate Roomy(c: Config, s: State, p: Packet) {
    var payload, retained := PayloadBytes(s) + p.retained, RetainedBytes(s) + p.retained + c.metadataBytes;
    && Packets(s) + 1 <= c.maxPackets && payload <= SIZE_MAX && retained <= SIZE_MAX
    && (c.maxPayload != 0 ==> payload <= c.maxPayload) && (c.maxRetained != 0 ==> retained <= c.maxRetained)
  }

  lemma RoomyExactly(c: Config, s: State, p: Packet)
    ensures OverCapacity(c, s, p) <==> !Roomy(c, s, p)
  {
    hide Weight, SeqWeight;
  }

  lemma DatableExactly(s: State, p: Packet)
    requires HorizonsOk(s) && p.tb.Valid()
    ensures Datable(s, p) <==> WithOffset(s, p).Some? && Ordering(WithOffset(s, p).value, p).Some?
  {
    hide EpochOffset, DelayTicks, Acceptable, EpochActive, HorizonsOk;
    if EpochActive(s) && p.stream !in s.offsets {
      AcceptableExists(s, p);
      if EpochOffset(s, p, s.target).Some? {
        OffsetFits(s, p, s.target);
        OffsetNonnegative(s, p);
      }
    }
  }

  lemma AcceptableExists(s: State, p: Packet)
    requires HorizonsOk(s) && p.tb.Valid()
    ensures EpochOffset(s, p, s.target).Some?
            <==> DelayTicks(s.target, p.tb).Some? && exists offset :: Acceptable(s, p, DelayTicks(s.target, p.tb).value, offset)
  {
    hide EpochOffset, DelayTicks, Acceptable, HorizonsOk;
    if DelayTicks(s.target, p.tb).Some? {
      var base := DelayTicks(s.target, p.tb).value;
      if offset: int :| Acceptable(s, p, base, offset) {
        EpochOffsetOptimal(s, p, s.target, base, offset);
      }
      if EpochOffset(s, p, s.target).Some? {
        OffsetFits(s, p, s.target);
        EpochOffsetOptimal(s, p, s.target, base, EpochOffset(s, p, s.target).value);
      }
    } else if EpochOffset(s, p, s.target).Some? {
      OffsetHasBase(s, p, s.target);
      assert false;
    }
  }

  lemma OffsetNonnegative(s: State, p: Packet)
    requires EpochOffset(s, p, s.target).Some?
    ensures EpochOffset(s, p, s.target).value >= 0
  {
    hide EpochOffset;
    ShiftNonnegative(s, p, s.target);
  }

  lemma PlacedExactly(c: Config, s: State, p: Packet, now: i64, n: nat)
    requires HorizonsOk(s) && p.tb.Valid()
    ensures Place(c, s, p, now, n).ok <==> Datable(s, p) && Roomy(c, if s.mode == Returning then s else Prune(c, s, now), p)
  {
    hide WithOffset, Ordering, Prune, OverCapacity, Append, EnterError, Datable, Roomy, HorizonsOk;
    DatableExactly(s, p);
    if WithOffset(s, p).Some? {
      var based := WithOffset(s, p).value;
      RoomyExactly(c, if s.mode == Returning then based else Prune(c, based, now), p);
      OffsetCourse(s, p);
      BasedRoom(c, s, p, now);
    }
  }

  lemma BasedRoom(c: Config, s: State, p: Packet, now: i64)
    requires WithOffset(s, p).Some?
    ensures var based := WithOffset(s, p).value;
            && based.mode == s.mode && Roomy(c, based, p) == Roomy(c, s, p)
            && Roomy(c, Prune(c, based, now), p) == Roomy(c, Prune(c, s, now), p)
  {
    hide Weight, SeqWeight, PruneQueue, EpochOffset, EpochActive, Roomy;
    var based := WithOffset(s, p).value;
    OffsetCourse(s, p);
    OffsetQueues(s, p);
    SameRoom(c, s, based, p);
    assert Prune(c, based, now).queues == Prune(c, s, now).queues by { SamePrune(c, s, based, now); }
    SameRoom(c, Prune(c, s, now), Prune(c, based, now), p);
  }

  lemma SamePrune(c: Config, s: State, r: State, now: i64)
    requires r.queues == s.queues && SameReturn(s, r)
    ensures Prune(c, r, now).queues == Prune(c, s, now).queues
  {
    hide PruneQueue;
  }

  lemma SameRoom(c: Config, s: State, r: State, p: Packet)
    requires r.queues == s.queues && r.pending == s.pending
    ensures Roomy(c, r, p) == Roomy(c, s, p)
  {
  }

  /** A packet is buffered exactly when its lane is free, its time base is valid, it can be dated, and there is room for
      it beside what pruning leaves; while returning nothing is pruned for it. */
  lemma AdmittedExactly(c: Config, s: State, p: Packet, now: i64, n: nat)
    requires HorizonsOk(s)
    ensures Enqueue(c, s, p, now, n).ok
            <==> LaneFree(c, s, p.stream) && p.tb.Valid() && Datable(s, p)
                 && Roomy(c, if s.mode == Returning then s else Prune(c, s, now), p)
  {
    hide PrepareStream, Place, EnterError, LaneFree, Datable, Roomy, HorizonsOk, OnlyGeneration;
    GenerationReplaces(c, s, p.stream);
    if LaneFree(c, s, p.stream) && p.tb.Valid() {
      var b := PrepareStream(c, s, p.stream).state;
      PreparedHorizons(c, s, p.stream);
      PlacedExactly(c, b, p, now, n);
      PreparedSame(c, s, p, now);
    }
  }

  lemma PreparedSame(c: Config, s: State, p: Packet, now: i64)
    requires PrepareStream(c, s, p.stream).ok
    ensures var b := PrepareStream(c, s, p.stream).state;
            && b.mode == s.mode && Datable(b, p) == Datable(s, p) && Roomy(c, b, p) == Roomy(c, s, p)
            && Roomy(c, Prune(c, b, now), p) == Roomy(c, Prune(c, s, now), p)
  {
    hide PrepareStream, PruneQueue, Roomy;
    var b := PrepareStream(c, s, p.stream).state;
    PrepareReturn(c, s, p.stream);
    PreparedQueues(c, s, p.stream);
    GenerationReplaces(c, s, p.stream);
    PreparedHistory(c, s, p.stream);
    SameRoom(c, s, b, p);
    SamePrune(c, s, b, now);
    SameRoom(c, Prune(c, s, now), Prune(c, b, now), p);
    SameDates(s, b, p);
  }

  lemma PreparedHistory(c: Config, s: State, stream: StreamKey)
    requires PrepareStream(c, s, stream).ok
    ensures var b := PrepareStream(c, s, stream).state;
            b.outputDts == s.outputDts && b.outputPts == s.outputPts && b.emitted == s.emitted
  {
    hide HasOldGeneration, Keep, Stay, Awaited, EnterError;
  }

  lemma SameDates(s: State, b: State, p: Packet)
    requires SameReturn(s, b) && Find(b.offsets, p.stream) == Find(s.offsets, p.stream)
    requires b.outputDts == s.outputDts && b.outputPts == s.outputPts && b.emitted == s.emitted
    ensures Datable(b, p) == Datable(s, p)
  {
    hide DelayTicks, Above, Shiftable;
    assert forall base, offset :: Acceptable(b, p, base, offset) == Acceptable(s, p, base, offset);
  }
}
