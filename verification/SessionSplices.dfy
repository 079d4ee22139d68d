/** Every epoch start of every run clears what was presented before it. */
module SessionSplices {
  // Which live packets start an epoch follows from the state and the packet alone. Each of them presents its
  // payload at least one frame after all video of the connection, and the timeline moves at no other packet.

  import opened Options
  import opened SessionSpec
  import opened SessionRealign
  import opened SessionTimeline
  import opened SessionEpoch

  /** A packet that starts an epoch: with the payload it is about to take over, or with the one it carries. */
  datatype Start = NoStart | Onto(carrier: Packet, payload: Packet) | Bridge(carrier: Packet)

  /** A repeated payload is bridged to. */
  function RepeatStart(q: Queue, fallback: Option<Packet>, c: Packet): Start {
    if Choose(q, fallback, c).FromFallback? then Bridge(Replace(c, fallback.value)) else NoStart
  }

  function DrainStart(s: State, c: Packet): Start
    requires s.Shaped()
  {
    RepeatStart(s.primary[0], s.primaryFallback[0], c)
  }

  /** The hold stream takes over on its head; a head in another format leaves the fallback to bridge to. */
  function TakeoverStart(s: State, c: Packet, full: bool): Start
    requires s.Shaped() && s.hold[0] != []
  {
    if Choose(s.hold[0], s.holdFallback[0], c).FromFallback? && !full then
      Bridge(Replace(BeginEpoch(s, c, s.hold[0][0]).carrier, s.holdFallback[0].value))
    else Onto(c, s.hold[0][0])
  }

  /** The delay line takes over on its head; without any usable packet of it the hold fallback is bridged to. */
  function DelayedStart(s: State, c: Packet): Start
    requires s.Shaped() && s.primary[0] != []
  {
    var b := BeginEpoch(s, c, s.primary[0][0]).carrier;
    var kept := TakeFallback(s.holdFallback, b);
    if Choose(s.primary[0], s.primaryFallback[0], c).Unavailable? && kept.ok then Bridge(kept.carrier)
    else Onto(c, s.primary[0][0])
  }

  function FillStart(s: State, c: Packet, raw: int, starting: bool): Start
    requires s.Shaped()
  {
    if !Fits(MAX_PRIMARY_BYTES, s.buffered, c.size) then
      if starting && s.hold[0] != [] then TakeoverStart(s, c, true) else NoStart
    else
      var s1 := Buffer(s, c, raw);
      if FillReady(s1, c, raw) then DelayedStart(s1, c)
      else if starting && s.hold[0] != [] then TakeoverStart(s1, c, false)
      else RepeatStart(s.hold[0], s.holdFallback[0], c)
  }

  /** A cut realigns onto its new head; the head is taken over at once, so a repeat is never due then. */
  function DelayStart(s: State, c: Packet, raw: int): Start
    requires s.Shaped()
  {
    if !Fits(MAX_PRIMARY_BYTES, s.buffered, c.size) then
      if c.keyframe then Bridge(c) else DrainStart(s, c)
    else
      var s1 := Buffer(s, c, raw);
      var origin := CutOrigin(s1, c, raw);
      if origin.None? then DrainStart(s1, c)
      else
        var cut := CutAt(HeadChecked(s1), origin.value);
        if cut.primary[0] == [] then NoStart else Onto(c, cut.primary[0][0])
  }

  function ReturnStart(s: State, c: Packet, raw: int): Start
    requires s.Shaped()
  {
    if c.keyframe then Bridge(c)
    else if s.errorReturn || s.fromFilling then NoStart
    else if s.drain || !Fits(MAX_PRIMARY_BYTES, s.buffered, c.size) then DrainStart(s, c)
    else DrainStart(Buffer(s, c, raw), c)
  }

  function RouteStart(s: State, c: Packet, raw: int): Start
    requires s.Shaped()
  {
    if !c.video then NoStart
    else
      match s.mode
      case Bypass => NoStart
      case Error => NoStart
      case Preparing =>
        if c.keyframe && PrerollReady(s) then FillStart(s.(fillStart := raw, mode := Filling), c, raw, true) else NoStart
      case Filling => FillStart(s, c, raw, false)
      case Delayed => DelayStart(s, c, raw)
      case Returning => ReturnStart(s, c, raw)
  }

  /** How one live packet starts an epoch, if it does. */
  function StartOf(s: State, p: Packet, audioStep: nat): Start
    requires s.Shaped()
  {
    if Idle(s) then NoStart else RouteStart(NoteCadence(s, p, audioStep), Shift(p, s.offset), p.usec)
  }

  /** Lanes keep their format and no time leaves 64 bits. */
  predicate Roomy(s: State, start: Start) {
    match start
    case NoStart => true
    case Onto(c, payload) => Modest(s, c, payload) && Compatible(c, payload)
    case Bridge(c) => Modest(s, c, c) && Room(c, Gap(s, c, c))
  }

  /** The composition offset that the epoch's payload has. */
  function PayloadComposition(start: Start): int
    requires !start.NoStart?
  {
    if start.Onto? then Composition(start.payload) else Composition(start.carrier)
  }

  /** The packet handed out clears everything noted, with the payload's own composition offset. */
  predicate Begins(s: State, start: Start, out: Packet) {
    !start.NoStart? ==> out.video && Clears(s, out) && Composition(out) == PayloadComposition(start)
  }

  // ---------------------------------------------------------------------
  // Each way to start

  /** What a route must come to: the packet begins as said, and without a start the timeline stays. */
  predicate Comes(s: State, start: Start, r: Flow) {
    && (Roomy(s, start) ==> Begins(s, start, r.carrier))
    && (start.NoStart? ==> r.state.offset == s.offset)
  }

  lemma NothingComes(s: State, r: Flow)
    requires r.state.offset == s.offset
    ensures Comes(s, NoStart, r)
  {
  }

  lemma ComesMode(s: State, start: Start, r: Flow, state: State)
    requires Comes(s, start, r) && state.offset == r.state.offset
    ensures Comes(s, start, Flow(state, r.carrier))
  {
    hide Begins, Roomy;
  }

  lemma BridgeComes(s: State, s1: State, c: Packet)
    requires c.video && s1.maxPts == s.maxPts && s1.frame == s.frame
    ensures Comes(s, Bridge(c), BeginEpoch(s1, c, c))
  {
    hide BeginEpoch, Room;
    if Roomy(s, Bridge(c)) {
      BridgedClears(s1, c);
      EpochClears(s1, c, c);
    }
  }

  lemma OntoComes(s: State, s1: State, c: Packet, payload: Packet, state: State)
    requires c.video && s1.maxPts == s.maxPts && s1.frame == s.frame
    ensures Comes(s, Onto(c, payload), Flow(state, Replace(BeginEpoch(s1, c, payload).carrier, payload)))
  {
    hide BeginEpoch, Replace, TicksToUsec;
    if Roomy(s, Onto(c, payload)) {
      EpochClears(s1, c, payload);
      ReplacePresents(BeginEpoch(s1, c, payload).carrier, payload);
      ReplaceVideo(BeginEpoch(s1, c, payload).carrier, payload);
    }
  }

  lemma ReplaceVideo(c: Packet, payload: Packet)
    ensures Replace(c, payload).video == c.video && FormatOf(Replace(c, payload)) == FormatOf(c)
  {
  }

  lemma MismatchComes(s: State, c: Packet, payload: Packet, r: Flow)
    requires !Compatible(c, payload)
    ensures Comes(s, Onto(c, payload), r)
  {
  }

  lemma EpochFormat(s: State, c: Packet, payload: Packet)
    ensures var r := BeginEpoch(s, c, payload);
            FormatOf(r.carrier) == FormatOf(c) && r.carrier.video == c.video && r.state.maxPts == s.maxPts && r.state.frame == s.frame
  {
    hide Presented, NextSafe;
  }

  lemma PopKeeps(s: State, c: Packet)
    requires s.Shaped()
    ensures var t := TakePrimary(s, c).state; t.maxPts == s.maxPts && t.frame == s.frame && t.offset == s.offset && t.holdFallback == s.holdFallback
    ensures var t := TakeHold(s, c).state; t.maxPts == s.maxPts && t.frame == s.frame && t.offset == s.offset
  {
    hide TakePrimary;
    PrimaryKeeps(s, c);
  }

  lemma PrimaryKeeps(s: State, c: Packet)
    requires s.Shaped()
    ensures var t := TakePrimary(s, c).state; t.maxPts == s.maxPts && t.frame == s.frame && t.offset == s.offset && t.holdFallback == s.holdFallback
  {
    hide Replace, Hole;
  }

  lemma UnderrunComes(s: State, t: Taken, fromFilling: bool)
    requires t.carrier.video && t.state.maxPts == s.maxPts && t.state.frame == s.frame
    ensures Comes(s, Bridge(t.carrier), Underrun(t, fromFilling))
  {
    hide BeginEpoch, Comes;
    var bridged := BeginEpoch(t.state, t.carrier, t.carrier);
    BridgeComes(s, t.state, t.carrier);
    ComesMode(s, Bridge(t.carrier), bridged, Underrun(t, fromFilling).state);
  }

  lemma DrainComes(s: State, s1: State, c: Packet)
    requires s1.Shaped() && c.video && s1.maxPts == s.maxPts && s1.frame == s.frame && s1.offset == s.offset
    ensures Comes(s, DrainStart(s1, c), DrainDelayed(s1, c))
  {
    hide TakePrimary, Underrun, Replace, Roomy, Begins;
    PopKeeps(s1, c);
    PrimaryTaken(s1, c);
    var t := TakePrimary(s1, c);
    if t.ok && t.fallback {
      ReplaceVideo(c, s1.primaryFallback[0].value);
      UnderrunComes(s, t, false);
    } else {
      NothingComes(s, DrainDelayed(s1, c));
    }
  }

  lemma PrimaryTaken(s: State, c: Packet)
    requires s.Shaped() && c.video
    ensures var t := TakePrimary(s, c);
            match Choose(s.primary[0], s.primaryFallback[0], c)
            case FromQueue => t.ok && !t.fallback && t.carrier == Replace(c, s.primary[0][0])
            case FromFallback => t.ok && t.fallback && t.carrier == Replace(c, s.primaryFallback[0].value)
            case Unavailable => !t.ok && t.carrier == c
  {
    hide Replace, Hole, Compatible;
  }

  lemma HoldTaken(s: State, c: Packet)
    requires s.Shaped() && c.video
    ensures var t := TakeHold(s, c);
            match Choose(s.hold[0], s.holdFallback[0], c)
            case FromQueue => t.ok && !t.fallback && t.carrier == Replace(c, s.hold[0][0])
            case FromFallback => t.ok && t.fallback && t.carrier == Replace(c, s.holdFallback[0].value)
            case Unavailable => !t.ok && t.carrier == c
  {
    hide Replace, Compatible;
  }

  lemma SameChoice(q: Queue, fallback: Option<Packet>, c: Packet, d: Packet)
    requires FormatOf(c) == FormatOf(d)
    ensures Choose(q, fallback, c) == Choose(q, fallback, d)
  {
  }

  /** A hold payload without a takeover. */
  lemma HoldComes(s: State, s1: State, c: Packet)
    requires s1.Shaped() && c.video && s1.maxPts == s.maxPts && s1.frame == s.frame && s1.offset == s.offset
    ensures var t := TakeHold(s1, c);
            Comes(s, RepeatStart(s1.hold[0], s1.holdFallback[0], c),
                  if !t.ok then Flow(ReturnWithError(t.state, true), t.carrier)
                  else if t.fallback then Underrun(t, true) else Flow(t.state, t.carrier))
  {
    hide TakeHold, Underrun, Replace, Roomy, Begins;
    PopKeeps(s1, c);
    HoldTaken(s1, c);
    var t := TakeHold(s1, c);
    if t.ok && t.fallback {
      ReplaceVideo(c, s1.holdFallback[0].value);
      UnderrunComes(s, t, true);
    } else {
      NothingComes(s, if !t.ok then Flow(ReturnWithError(t.state, true), t.carrier) else Flow(t.state, t.carrier));
    }
  }

  lemma TakeoverComes(s: State, s1: State, c: Packet)
    requires s1.Shaped() && s1.hold[0] != [] && c.video && s1.maxPts == s.maxPts && s1.frame == s.frame
    ensures var b := BeginEpoch(s1, c, s1.hold[0][0]); var t := TakeHold(b.state, b.carrier);
            && Comes(s, TakeoverStart(s1, c, true), Flow(if t.ok then t.state else ReturnWithError(t.state, true), t.carrier))
            && Comes(s, TakeoverStart(s1, c, false),
                     if !t.ok then Flow(ReturnWithError(t.state, true), t.carrier)
                     else if t.fallback then Underrun(t, true) else Flow(t.state, t.carrier))
  {
    hide TakeHold, Underrun, Replace, Comes, BeginEpoch;
    var head := s1.hold[0][0];
    var b := BeginEpoch(s1, c, head);
    EpochFormat(s1, c, head);
    EpochSame(s1, c, head);
    SameChoice(s1.hold[0], s1.holdFallback[0], c, b.carrier);
    HoldTaken(b.state, b.carrier);
    PopKeeps(b.state, b.carrier);
    var t := TakeHold(b.state, b.carrier);
    if Choose(s1.hold[0], s1.holdFallback[0], c).FromQueue? {
      OntoComes(s, s1, c, head, t.state);
    } else {
      MismatchComes(s, c, head, Flow(if t.ok then t.state else ReturnWithError(t.state, true), t.carrier));
      MismatchComes(s, c, head, Flow(ReturnWithError(t.state, true), t.carrier));
      if t.ok && t.fallback {
        ReplaceVideo(b.carrier, s1.holdFallback[0].value);
        UnderrunComes(s, t, true);
      }
    }
  }

  lemma DelayedComes(s: State, s1: State, c: Packet)
    requires s1.Shaped() && s1.primary[0] != [] && c.video && s1.maxPts == s.maxPts && s1.frame == s.frame
    ensures Comes(s, DelayedStart(s1, c), EnterDelayed(s1, c))
  {
    hide TakePrimary, TakeFallback, Replace, Comes, BeginEpoch;
    var head := s1.primary[0][0];
    var b := BeginEpoch(s1, c, head);
    EpochFormat(s1, c, head);
    EpochSame(s1, c, head);
    var s2 := b.state.(mode := Delayed, lastEmitted := Nothing());
    SameChoice(s1.primary[0], s1.primaryFallback[0], c, b.carrier);
    PrimaryTaken(s2, b.carrier);
    PopKeeps(s2, b.carrier);
    var t := TakePrimary(s2, b.carrier);
    var r := EnterDelayed(s1, c);
    if Choose(s1.primary[0], s1.primaryFallback[0], c).FromQueue? {
      OntoComes(s, s1, c, head, t.state);
    } else {
      MismatchComes(s, c, head, r);
      var kept := TakeFallback(s1.holdFallback, b.carrier);
      if !t.ok && kept.ok {
        FallbackVideo(s1.holdFallback, b.carrier);
        BridgeComes(s, t.state, kept.carrier);
        ComesMode(s, Bridge(kept.carrier), BeginEpoch(t.state, kept.carrier, kept.carrier), r.state);
      }
    }
  }

  lemma FallbackVideo(fallback: seq<Option<Packet>>, c: Packet)
    requires |fallback| == LANES
    ensures TakeFallback(fallback, c).carrier.video == c.video
  {
  }

  lemma FillComes(s: State, s1: State, c: Packet, raw: int, starting: bool)
    requires s1.Shaped() && c.video && s1.maxPts == s.maxPts && s1.frame == s.frame && s1.offset == s.offset
    ensures Comes(s, FillStart(s1, c, raw, starting), FillStep(s1, c, raw, starting))
  {
    hide TakeHold, Underrun, Replace, Comes, BeginEpoch, EnterDelayed, DelayedStart, FillReady, RepeatStart, TakeoverStart;
    if !Fits(MAX_PRIMARY_BYTES, s1.buffered, c.size) {
      FullComes(s, s1, c, starting);
    } else {
      var s2 := Buffer(s1, c, raw);
      if FillReady(s2, c, raw) {
        BufferedHead(s1, c, raw);
        DelayedComes(s, s2, c);
      } else if starting && s1.hold[0] != [] {
        TakeoverComes(s, s2, c);
      } else {
        HoldComes(s, s2, c);
      }
    }
  }

  lemma BufferedHead(s: State, c: Packet, raw: int)
    requires s.Shaped()
    ensures FillReady(Buffer(s, c, raw), c, raw) ==> Buffer(s, c, raw).primary[0] != []
  {
  }

  lemma FullComes(s: State, s1: State, c: Packet, starting: bool)
    requires s1.Shaped() && c.video && s1.maxPts == s.maxPts && s1.frame == s.frame && s1.offset == s.offset
    ensures Comes(s, if starting && s1.hold[0] != [] then TakeoverStart(s1, c, true) else NoStart, FillFull(s1, c, starting))
  {
    hide TakeHold, BeginEpoch, Replace, Roomy, Begins;
    var s2 := s1.(fromFilling := true, mode := Returning);
    if starting && s1.hold[0] != [] {
      TakeoverComes(s, s2, c);
      SameTakeover(s1, s2, c);
    } else {
      PopKeeps(s2, c);
      NothingComes(s, FillFull(s1, c, starting));
    }
  }

  lemma SameTakeover(s: State, r: State, c: Packet)
    requires s.Shaped() && s.hold[0] != [] && r == s.(fromFilling := true, mode := Returning)
    ensures TakeoverStart(s, c, true) == TakeoverStart(r, c, true)
  {
  }

  lemma DelayComes(s: State, s1: State, c: Packet, raw: int)
    requires s1.Shaped() && c.video && s1.maxPts == s.maxPts && s1.frame == s.frame && s1.offset == s.offset
    ensures Comes(s, DelayStart(s1, c, raw), DelayStep(s1, c, raw))
  {
    hide Comes, BeginEpoch, DrainDelayed, DrainStart, Realign, CutOrigin, CutAt;
    if !Fits(MAX_PRIMARY_BYTES, s1.buffered, c.size) {
      var s2 := s1.(fromFilling := false, drain := true, mode := Returning);
      if c.keyframe {
        BridgeComes(s, s2, c);
        ComesMode(s, Bridge(c), BeginEpoch(s2, c, c), DelayStep(s1, c, raw).state);
      } else {
        DrainComes(s, s2, c);
        SameDrain(s1, s2, c);
      }
    } else {
      AlignedComes(s, Buffer(s1, c, raw), c, raw);
    }
  }

  lemma SameDrain(s: State, r: State, c: Packet)
    requires s.Shaped() && r.Shaped() && r.primary == s.primary && r.primaryFallback == s.primaryFallback
    ensures DrainStart(s, c) == DrainStart(r, c)
  {
  }

  lemma AlignedComes(s: State, s1: State, c: Packet, raw: int)
    requires s1.Shaped() && c.video && s1.maxPts == s.maxPts && s1.frame == s.frame && s1.offset == s.offset
    ensures var a := Realign(s1, c, raw); var origin := CutOrigin(s1, c, raw);
            Comes(s, if origin.None? then DrainStart(s1, c)
                     else
                       var cut := CutAt(HeadChecked(s1), origin.value);
                       if cut.primary[0] == [] then NoStart else Onto(c, cut.primary[0][0]),
                  DrainDelayed(a.state, a.carrier))
  {
    hide Comes, BeginEpoch, DrainDelayed, DrainStart, Realign, CutOrigin, CutAt;
    RealignIs(s1, c, raw);
    var a := Realign(s1, c, raw);
    var origin := CutOrigin(s1, c, raw);
    if origin.None? {
      DrainComes(s, a.state, c);
      SameDrain(s1, a.state, c);
    } else {
      CutComes(s, HeadChecked(s1), c, origin.value);
    }
  }

  lemma CutComes(s: State, s1: State, c: Packet, origin: int)
    requires s1.Shaped() && c.video && s1.maxPts == s.maxPts && s1.frame == s.frame && s1.offset == s.offset
    ensures var cut := CutAt(s1, origin);
            if cut.primary[0] == [] then Comes(s, NoStart, DrainDelayed(cut, c))
            else
              var b := BeginEpoch(cut, c, cut.primary[0][0]);
              Comes(s, Onto(c, cut.primary[0][0]), DrainDelayed(b.state, b.carrier))
  {
    hide BeginEpoch, TakePrimary, Replace, Roomy, Begins, Underrun;
    CutRest(s1, origin);
    var cut := CutAt(s1, origin);
    if cut.primary[0] == [] {
      PrimaryTaken(cut, c);
      PopKeeps(cut, c);
      NothingComes(s, DrainDelayed(cut, c));
    } else {
      var head := cut.primary[0][0];
      var b := BeginEpoch(cut, c, head);
      EpochFormat(cut, c, head);
      EpochSame(cut, c, head);
      SameChoice(cut.primary[0], None, c, b.carrier);
      PrimaryTaken(b.state, b.carrier);
      if Compatible(c, head) {
        OntoComes(s, cut, c, head, TakePrimary(b.state, b.carrier).state);
      } else {
        MismatchComes(s, c, head, DrainDelayed(b.state, b.carrier));
      }
    }
  }

  lemma CutRest(s: State, origin: int)
    requires s.Shaped()
    ensures var r := CutAt(s, origin);
            r.maxPts == s.maxPts && r.frame == s.frame && r.offset == s.offset && r.primaryFallback == Nothing()
  {
    hide From, TotalSize;
  }

  lemma ReturnComes(s: State, c: Packet, raw: int)
    requires s.Shaped() && c.video && s.mode == Returning
    ensures Comes(s, ReturnStart(s, c, raw), if c.keyframe then GoLive(s, c) else ReturnStep(s, c, raw))
  {
    hide BeginEpoch, DrainDelayed, DrainStart, TakeHold, TakeFallback, Roomy, Begins;
    if c.keyframe {
      BridgeComes(s, s, c);
    } else if s.errorReturn || s.fromFilling {
      PopKeeps(s, c);
      NothingComes(s, ReturnStep(s, c, raw));
    } else if s.drain {
      DrainComes(s, s, c);
    } else if Fits(MAX_PRIMARY_BYTES, s.buffered, c.size) {
      DrainComes(s, Buffer(s, c, raw), c);
    } else {
      DrainComes(s, s.(drain := true), c);
      SameDrain(s, s.(drain := true), c);
    }
  }

  lemma RouteComes(s: State, c: Packet, raw: int)
    requires s.Shaped() && c.video
    ensures Comes(s, RouteStart(s, c, raw), Route(s, c, raw))
  {
    hide FillStep, DelayStep, ReturnStep, GoLive, FillStart, DelayStart, ReturnStart, PrerollReady, Roomy, Begins;
    match s.mode
    case Bypass => NothingComes(s, Flow(s, c));
    case Error => NothingComes(s, Flow(s, c));
    case Preparing =>
      if c.keyframe && PrerollReady(s) {
        FillComes(s, s.(fillStart := raw, mode := Filling), c, raw, true);
      } else {
        NothingComes(s, Flow(s, c));
      }
    case Filling => FillComes(s, s, c, raw, false);
    case Delayed => DelayComes(s, s, c, raw);
    case Returning => ReturnComes(s, c, raw);
  }

  // ---------------------------------------------------------------------
  // Whole packets and whole runs

  lemma NoteKeeps(s: State, p: Packet, audioStep: nat)
    requires s.Shaped()
    ensures var r := NoteCadence(s, p, audioStep); r.maxPts == s.maxPts && r.offset == s.offset
  {
    hide StepAfter, Hole;
  }

  lemma ShiftVideo(p: Packet, offset: int)
    ensures Shift(p, offset).video == p.video
  {
  }

  lemma EmittedKeeps(s: State, p: Packet)
    ensures NoteEmitted(s, p).offset == s.offset
  {
    hide Presented;
  }

  /** A live packet that starts an epoch presents its payload, composition offset and all, at least one frame after
      everything noted; one that starts none leaves the timeline where it is. */
  lemma StartClears(s: State, p: Packet, audioStep: nat)
    requires s.Shaped() && p.video
    ensures var noted, start, r := NoteCadence(s, p, audioStep), StartOf(s, p, audioStep), Process(s, p, audioStep);
            && (Roomy(noted, start) ==> Begins(noted, start, r.carrier))
            && (start.NoStart? ==> r.state.offset == s.offset)
  {
    hide NoteCadence, RouteStart, Route, NoteEmitted, Roomy, Begins, Shift;
    NoteKeeps(s, p, audioStep);
    ShiftVideo(p, s.offset);
    if Idle(s) {
      NothingComes(NoteCadence(s, p, audioStep), Flow(NoteCadence(s, p, audioStep), p));
    } else {
      var noted, c := NoteCadence(s, p, audioStep), Shift(p, s.offset);
      RouteComes(noted, c, p.usec);
      EmittedKeeps(Route(noted, c, p.usec).state, Route(noted, c, p.usec).carrier);
    }
  }

  /** Every epoch start of every run clears all noted video of its connection by a frame. */
  lemma EveryStartClears(ops: seq<Op>, p: Packet, audioStep: nat, i: nat)
    requires p.video && i < |Play(ops).out| && Play(ops).out[i].noted && Play(ops).out[i].out.video
    requires var s := Play(ops).state; var start := StartOf(s, p, audioStep);
             !start.NoStart? && Roomy(NoteCadence(s, p, audioStep), start)
    ensures var s := Play(ops).state; var earlier, out := Play(ops).out[i].out, Process(s, p, audioStep).carrier;
            Presented(out, out) >= Presented(earlier, earlier) + Max(1, NoteCadence(s, p, audioStep).frame)
  {
    hide Play, Process, NoteCadence, StartOf, Roomy, Presented;
    EveryRunOrdered(ops);
    var s := Play(ops).state;
    StartClears(s, p, audioStep);
    NoteKeeps(s, p, audioStep);
  }
}
