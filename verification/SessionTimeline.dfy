/** The session's shared timeline. */
module SessionTimeline {
  // The offset only grows between reconnects, so order on a lane survives every splice.

  import opened Options
  import opened SessionSpec

  predicate InRange(a: int) { LOWEST <= a <= HIGHEST }

  /** Ticks for a move of so many microseconds, made in so many roundings: never back, and half a tick too far for
      each rounding. */
  predicate Rounds(ticks: int, usec: int, den: int, roundings: nat) {
    0 <= ticks && 0 <= usec && (usec == 0 ==> ticks == 0) && if den > 0 then 2_000_000 * ticks <= 2 * usec * den + roundings * 1_000_000 else ticks == 0
  }

  /** The carrier moved exactly as far as the timeline did, in ticks with so many roundings, unless 64 bits ran out. */
  predicate Tracks(s: State, c: Packet, r: Flow, roundings: nat) {
    && 0 <= s.offset <= r.state.offset <= HIGHEST && r.state.maxPts == s.maxPts
    && r.carrier.video == c.video && r.carrier.track == c.track && r.carrier.den == c.den && r.carrier.num == c.num
    && (r.state.offset < HIGHEST && InRange(c.usec) && InRange(c.usec + r.state.offset - s.offset) ==>
          r.carrier.usec == c.usec + r.state.offset - s.offset)
    && (r.state.offset < HIGHEST && InRange(c.dts) ==>
          InRange(r.carrier.dts) && Rounds(r.carrier.dts - c.dts, r.state.offset - s.offset, c.den, roundings))
  }

  lemma TracksThen(s: State, c: Packet, f: Flow, i: nat, g: Flow, j: nat)
    requires Tracks(s, c, f, i) && Tracks(f.state, f.carrier, g, j)
    ensures Tracks(s, c, g, i + j)
  {
    hide Rounds;
    RoundsThen(f.carrier.dts - c.dts, f.state.offset - s.offset, i, g.carrier.dts - f.carrier.dts, g.state.offset - f.state.offset, j, c.den);
  }

  lemma RoundsThen(t: int, a: int, i: nat, u: int, b: int, j: nat, den: int)
    ensures Rounds(t, a, den, i) && Rounds(u, b, den, j) ==> Rounds(t + u, a + b, den, i + j)
  {
    assert 2 * (a + b) * den == 2 * a * den + 2 * b * den;
  }

  lemma TracksMore(s: State, c: Packet, r: Flow, i: nat, j: nat)
    requires Tracks(s, c, r, i) && i <= j
    ensures Tracks(s, c, r, j)
  {
  }

  /** Only the offset matters to the timeline. */
  lemma TracksFrom(s: State, s1: State, c: Packet, r: Flow, r1: Flow, k: nat)
    requires Tracks(s1, c, r1, k) && s.offset == s1.offset && r.state.offset == r1.state.offset
    requires s.maxPts == s1.maxPts && r.state.maxPts == r1.state.maxPts
    requires r.carrier.usec == r1.carrier.usec && r.carrier.dts == r1.carrier.dts && FormatOf(r.carrier) == FormatOf(r1.carrier)
    ensures Tracks(s, c, r, k)
  {
    hide Rounds;
  }

  /** Moving a packet rounds once. */
  lemma ShiftRounds(p: Packet, usec: int)
    requires InRange(p.dts) && usec >= 0
    ensures InRange(Shift(p, usec).dts) && Rounds(Shift(p, usec).dts - p.dts, usec, p.den, 1)
  {
    hide Rounded;
    if usec > 0 && p.den > 0 {
      TicksRound(usec, p.den);
    }
  }

  lemma TicksRound(usec: int, den: int)
    requires usec > 0 && den > 0
    ensures 0 <= Rounded(usec * den, 1_000_000) && 2_000_000 * Rounded(usec * den, 1_000_000) <= 2 * usec * den + 1_000_000
    ensures 2 * usec * den - 1_000_000 < 2_000_000 * Rounded(usec * den, 1_000_000)
  {
    PositiveProduct(usec, den);
    HalfUp(usec * den);
  }

  lemma PositiveProduct(a: int, b: int)
    requires a > 0 && b > 0
    ensures a * b > 0 && 2 * a * b == 2 * (a * b)
  {
  }

  lemma HalfUp(x: int)
    requires x > 0
    ensures var r := Rounded(x, 1_000_000); 0 <= r && 2 * x - 1_000_000 < 2_000_000 * r <= 2 * x + 1_000_000
  {
  }

  lemma EpochTracks(s: State, c: Packet, payload: Packet)
    requires 0 <= s.offset <= HIGHEST
    ensures Tracks(s, c, BeginEpoch(s, c, payload), 1)
  {
    hide TicksToUsec, UsecToTicks, Rounds;
    NoneRound(c.den);
    if c.video && s.maxPts.Some? && Presented(c, payload) < NextSafe(s) {
      var additional := NextSafe(s) - Presented(c, payload);
      if InRange(c.dts) {
        ShiftRounds(c, additional);
      }
    }
  }

  lemma NoneRound(den: int)
    ensures Rounds(0, 0, den, 0) && Rounds(0, 0, den, 1)
  {
  }

  lemma ReplaceTracks(s: State, r: State, c: Packet, payload: Packet)
    requires 0 <= s.offset == r.offset <= HIGHEST && r.maxPts == s.maxPts
    ensures Tracks(s, c, Flow(r, Replace(c, payload)), 0) && Tracks(s, c, Flow(r, c), 0)
  {
    hide Rounds;
    NoneRound(c.den);
  }

  lemma PrimaryPts(s: State, c: Packet)
    requires s.Shaped()
    ensures TakePrimary(s, c).state.maxPts == s.maxPts
  {
  }

  lemma PrimaryTracks(s: State, c: Packet)
    requires s.Shaped() && 0 <= s.offset <= HIGHEST
    ensures var t := TakePrimary(s, c); Tracks(s, c, Flow(t.state, t.carrier), 0) && t.state.offset == s.offset
  {
    hide Tracks, Replace, Compatible;
    var l := LaneFor(c);
    var t := TakePrimary(s, c);
    PrimaryPts(s, c);
    match Choose(s.primary[l], s.primaryFallback[l], c)
    case FromQueue => ReplaceTracks(s, t.state, c, s.primary[l][0]);
    case FromFallback => ReplaceTracks(s, t.state, c, s.primaryFallback[l].value);
    case Unavailable => TracksSelf(s, c);
  }

  lemma TakesTrack(s: State, c: Packet)
    requires s.Shaped() && 0 <= s.offset <= HIGHEST
    ensures var t := TakePrimary(s, c); Tracks(s, c, Flow(t.state, t.carrier), 0) && t.state.offset == s.offset
    ensures var t := TakeHold(s, c); Tracks(s, c, Flow(t.state, t.carrier), 0) && t.state.offset == s.offset
    ensures forall f: seq<Option<Packet>> :: |f| == LANES ==> Tracks(s, c, Flow(s, TakeFallback(f, c).carrier), 0)
  {
    hide Tracks, TakePrimary, Replace, Compatible;
    PrimaryTracks(s, c);
    TracksSelf(s, c);
    var l := LaneFor(c);
    var t := TakeHold(s, c);
    match Choose(s.hold[l], s.holdFallback[l], c) {
      case FromQueue => ReplaceTracks(s, t.state, c, s.hold[l][0]);
      case FromFallback => ReplaceTracks(s, t.state, c, s.holdFallback[l].value);
      case Unavailable =>
    }
    forall f: seq<Option<Packet>> | |f| == LANES ensures Tracks(s, c, Flow(s, TakeFallback(f, c).carrier), 0) {
      if f[l].Some? {
        ReplaceTracks(s, s, c, f[l].value);
      }
    }
  }

  lemma UnderrunTracks(s: State, c: Packet, t: Taken, fromFilling: bool, k: nat)
    requires Tracks(s, c, Flow(t.state, t.carrier), k)
    ensures Tracks(s, c, Underrun(t, fromFilling), k + 1)
  {
    hide BeginEpoch;
    var bridged := BeginEpoch(t.state, t.carrier, t.carrier);
    EpochTracks(t.state, t.carrier, t.carrier);
    TracksThen(s, c, Flow(t.state, t.carrier), k, bridged, 1);
  }

  lemma DrainTracks(s: State, c: Packet)
    requires s.Shaped() && 0 <= s.offset <= HIGHEST
    ensures Tracks(s, c, DrainDelayed(s, c), 1)
  {
    hide TakePrimary, Underrun, Tracks;
    TakesTrack(s, c);
    var t := TakePrimary(s, c);
    UnderrunTracks(s, c, t, false, 0);
    TracksMore(s, c, Flow(t.state, t.carrier), 0, 1);
    if !t.ok { TracksFrom(s, s, c, DrainDelayed(s, c), Flow(t.state, t.carrier), 1); }
  }

  lemma HoldTracks(s: State, c: Packet, starting: bool)
    requires s.Shaped() && 0 <= s.offset <= HIGHEST
    ensures var b := StartHold(s, c, starting); var t := TakeHold(b.state, b.carrier);
            Tracks(s, c, Flow(t.state, t.carrier), 1)
  {
    hide TakeHold, BeginEpoch, Tracks;
    var b := StartHold(s, c, starting);
    if starting && s.hold[0] != [] {
      EpochTracks(s, c, s.hold[0][0]);
    } else {
      TracksSelf(s, c);
    }
    TracksBounds(s, c, b);
    TakesTrack(b.state, b.carrier);
    var t := TakeHold(b.state, b.carrier);
    TracksThen(s, c, b, 1, Flow(t.state, t.carrier), 0);
  }

  lemma TracksSelf(s: State, c: Packet)
    requires 0 <= s.offset <= HIGHEST
    ensures Tracks(s, c, Flow(s, c), 0) && Tracks(s, c, Flow(s, c), 1)
  {
    hide Rounds;
    NoneRound(c.den);
  }

  lemma TracksBounds(s: State, c: Packet, r: Flow)
    requires Tracks(s, c, r, 1)
    ensures 0 <= r.state.offset <= HIGHEST
  {
  }

  lemma EnterTracks(s: State, c: Packet)
    requires s.Shaped() && s.primary[0] != [] && 0 <= s.offset <= HIGHEST
    ensures Tracks(s, c, EnterDelayed(s, c), 2)
  {
    hide TakePrimary, TakeFallback, BeginEpoch, Tracks;
    var b := BeginEpoch(s, c, s.primary[0][0]);
    EpochTracks(s, c, s.primary[0][0]);
    TracksBounds(s, c, b);
    var s1 := b.state.(mode := Delayed, lastEmitted := Nothing());
    TakesTrack(s1, b.carrier);
    var t := TakePrimary(s1, b.carrier);
    TracksFrom(b.state, s1, b.carrier, Flow(t.state, t.carrier), Flow(t.state, t.carrier), 0);
    TracksThen(s, c, b, 1, Flow(t.state, t.carrier), 0);
    TracksMore(s, c, Flow(t.state, t.carrier), 1, 2);
    if !t.ok {
      TakesTrack(t.state, t.carrier);
      var kept := TakeFallback(t.state.holdFallback, t.carrier);
      TracksThen(s, c, Flow(t.state, t.carrier), 1, Flow(t.state, kept.carrier), 0);
      EpochTracks(t.state, kept.carrier, kept.carrier);
      TracksThen(s, c, Flow(t.state, kept.carrier), 1, BeginEpoch(t.state, kept.carrier, kept.carrier), 1);
      TracksMore(s, c, Flow(t.state, kept.carrier), 1, 2);
      var bridged := if kept.ok then BeginEpoch(t.state, kept.carrier, kept.carrier) else Flow(t.state, kept.carrier);
      TracksFrom(s, s, c, EnterDelayed(s, c), bridged, 2);
    }
  }

  lemma FillTracks(s: State, c: Packet, raw: int, starting: bool)
    requires s.Shaped() && 0 <= s.offset <= HIGHEST
    ensures Tracks(s, c, FillStep(s, c, raw, starting), 2)
  {
    hide TakeHold, Underrun, Tracks, EnterDelayed, StartHold;
    var r := FillStep(s, c, raw, starting);
    if !Fits(MAX_PRIMARY_BYTES, s.buffered, c.size) {
      var s1 := s.(fromFilling := true, mode := Returning);
      HoldTracks(s1, c, starting);
      var b := StartHold(s1, c, starting);
      var t := TakeHold(b.state, b.carrier);
      TracksFrom(s, s1, c, r, Flow(t.state, t.carrier), 1);
      TracksMore(s, c, r, 1, 2);
    } else {
      var s1 := Buffer(s, c, raw);
      if FillReady(s1, c, raw) {
        EnterTracks(s1, c);
        TracksFrom(s, s1, c, r, EnterDelayed(s1, c), 2);
      } else {
        HoldTracks(s1, c, starting);
        var b := StartHold(s1, c, starting);
        var t := TakeHold(b.state, b.carrier);
        UnderrunTracks(s1, c, t, true, 1);
        TracksMore(s1, c, Flow(t.state, t.carrier), 1, 2);
        TracksFrom(s, s1, c, r, if t.ok && t.fallback then Underrun(t, true) else Flow(t.state, t.carrier), 2);
      }
    }
  }

  lemma RealignTracks(s: State, c: Packet, raw: int)
    requires s.Shaped() && 0 <= s.offset <= HIGHEST
    ensures Tracks(s, c, Realign(s, c, raw), 1)
  {
    hide Tracks, Pick, Skewed, BeginEpoch, Covered;
    TracksSelf(s, c);
    var r := Realign(s, c, raw);
    if c.video && s.primary[0] != [] {
      var s1 := HeadChecked(s);
      if s1.realign && LanesReady(s1) && Skewed(s1, raw - s1.primary[0][0].usec) {
        var pick := Pick(s1, raw - s1.target * 1_000_000);
        if pick.Some? && Covered(s1, s1.primary[0][pick.value].usec) {
          var s2 := CutAt(s1, s1.primary[0][pick.value].usec);
          if s2.primary[0] == [] {
            TracksFrom(s, s, c, r, Flow(s, c), 1);
          } else {
            EpochTracks(s2, c, s2.primary[0][0]);
            TracksFrom(s, s2, c, r, r, 1);
          }
        } else {
          TracksFrom(s, s, c, r, Flow(s, c), 1);
        }
      } else {
        TracksFrom(s, s, c, r, Flow(s, c), 1);
      }
    }
  }

  lemma DelayTracks(s: State, c: Packet, raw: int)
    requires s.Shaped() && 0 <= s.offset <= HIGHEST
    ensures Tracks(s, c, DelayStep(s, c, raw), 2)
  {
    hide Tracks, Realign, DrainDelayed, BeginEpoch;
    var r := DelayStep(s, c, raw);
    if !Fits(MAX_PRIMARY_BYTES, s.buffered, c.size) {
      var s1 := s.(fromFilling := false, drain := true, mode := Returning);
      EpochTracks(s1, c, c);
      DrainTracks(s1, c);
      TracksFrom(s, s1, c, r, if c.video && c.keyframe then BeginEpoch(s1, c, c) else DrainDelayed(s1, c), 1);
      TracksMore(s, c, r, 1, 2);
    } else {
      var s1 := Buffer(s, c, raw);
      RealignTracks(s1, c, raw);
      var a := Realign(s1, c, raw);
      TracksBounds(s1, c, a);
      DrainTracks(a.state, a.carrier);
      TracksThen(s1, c, a, 1, r, 1);
      TracksFrom(s, s1, c, r, r, 2);
    }
  }

  lemma ReturnTracks(s: State, c: Packet, raw: int)
    requires s.Shaped() && 0 <= s.offset <= HIGHEST
    ensures Tracks(s, c, ReturnStep(s, c, raw), 1)
  {
    hide Tracks, TakeHold, TakeFallback, DrainDelayed;
    TakesTrack(s, c);
    var r := ReturnStep(s, c, raw);
    if s.errorReturn {
      TracksMore(s, c, r, 0, 1);
    } else if s.fromFilling {
      var t := TakeHold(s, c);
      TracksFrom(s, s, c, r, Flow(t.state, t.carrier), 0);
      TracksMore(s, c, r, 0, 1);
    } else {
      var s1 := if s.drain then s
                else if Fits(MAX_PRIMARY_BYTES, s.buffered, c.size) then Buffer(s, c, raw) else s.(drain := true);
      DrainTracks(s1, c);
      TracksFrom(s, s1, c, r, DrainDelayed(s1, c), 1);
    }
  }

  lemma RouteTracks(s: State, c: Packet, raw: int)
    requires s.Shaped() && 0 <= s.offset <= HIGHEST
    ensures Tracks(s, c, Route(s, c, raw), 2)
  {
    hide Tracks, FillStep, DelayStep, ReturnStep, BeginEpoch, PrerollReady;
    TracksSelf(s, c);
    TracksMore(s, c, Flow(s, c), 0, 2);
    var r := Route(s, c, raw);
    if s.mode == Preparing && c.video && c.keyframe && PrerollReady(s) {
      var s1 := s.(fillStart := raw, mode := Filling);
      FillTracks(s1, c, raw, true);
      TracksFrom(s, s1, c, r, r, 2);
    } else if s.mode == Filling {
      FillTracks(s, c, raw, false);
    } else if s.mode == Delayed {
      DelayTracks(s, c, raw);
    } else if s.mode == Returning {
      if c.video && c.keyframe {
        EpochTracks(s, c, c);
        TracksFrom(s, s, c, r, BeginEpoch(s, c, c), 1);
        TracksMore(s, c, r, 1, 2);
      } else {
        ReturnTracks(s, c, raw);
        TracksMore(s, c, r, 1, 2);
      }
    }
  }

  // ---------------------------------------------------------------------
  // What the muxer sees

  /** A packet handed out, the raw time and tick it arrived under, the offset before it and the one then in force, and
      whether the session looked at it. */
  datatype Emission = Emission(raw: int, tick: int, out: Packet, from: int, offset: int, noted: bool)

  predicate Unsaturated(e: Emission) {
    e.offset < HIGHEST && InRange(e.raw) && InRange(e.raw + e.offset)
  }

  predicate OnTimeline(e: Emission) {
    Unsaturated(e) ==> e.out.usec == e.raw + e.offset
  }

  function Ticks(usec: int, den: int): int { UsecToTicks(usec, den) }

  /** The tick moved by the whole offset stays within 64 bits. */
  predicate TickRoom(e: Emission) {
    && 0 <= e.from <= e.offset < HIGHEST && InRange(e.tick)
    && (e.out.den > 0 ==>
          var ticks := Rounded(e.offset * e.out.den, 1_000_000); ticks <= HIGHEST && e.tick + ticks <= HIGHEST)
  }

  /** The tick moved by the offset it was handed, and by at most one more than the offset that it left. */
  predicate OnTicks(e: Emission) {
    TickRoom(e) ==>
      && Ticks(e.from, e.out.den) <= e.out.dts - e.tick <= Ticks(e.offset, e.out.den) + 1
      && (e.from == e.offset ==> e.out.dts - e.tick == Ticks(e.offset, e.out.den))
  }

  /** Nothing noted is presented after the highest presentation time. */
  predicate Covers(maxPts: Option<int>, e: Emission) {
    e.noted && e.out.video ==> maxPts.Some? && Presented(e.out, e.out) <= maxPts.value
  }

  predicate NotLower(before: Option<int>, after: Option<int>) {
    before.Some? ==> after.Some? && after.value >= before.value
  }

  lemma ProcessTracks(s: State, p: Packet, audioStep: nat)
    requires s.Shaped() && 0 <= s.offset <= HIGHEST
    ensures var r := Process(s, p, audioStep);
            && s.offset <= r.state.offset <= HIGHEST && LaneFor(r.carrier) == LaneFor(p)
            && OnTimeline(Emission(p.usec, p.dts, r.carrier, s.offset, r.state.offset, !Idle(s)))
            && OnTicks(Emission(p.usec, p.dts, r.carrier, s.offset, r.state.offset, !Idle(s)))
            && NotLower(s.maxPts, r.state.maxPts) && Covers(r.state.maxPts, Emission(p.usec, p.dts, r.carrier, s.offset, r.state.offset, !Idle(s)))
  {
    hide Route, NoteEmitted, Tracks, OnTicks;
    if Idle(s) {
      IdleTicks(s, p);
    } else {
      var s1 := NoteCadence(s, p, audioStep);
      var c := Shift(p, s.offset);
      var routed := Route(s1, c, p.usec);
      RouteTracks(s1, c, p.usec);
      NotedOffset(routed.state, routed.carrier);
      TracksOut(s1, p, c, routed);
    }
  }

  lemma NotedOffset(s: State, p: Packet)
    ensures NoteEmitted(s, p).offset == s.offset && NotLower(s.maxPts, NoteEmitted(s, p).maxPts)
    ensures p.video ==> NoteEmitted(s, p).maxPts.Some? && Presented(p, p) <= NoteEmitted(s, p).maxPts.value
  {
    hide Presented;
  }

  lemma TracksOut(s: State, p: Packet, c: Packet, r: Flow)
    requires Tracks(s, c, r, 2) && c == Shift(p, s.offset)
    ensures s.offset <= r.state.offset <= HIGHEST && LaneFor(r.carrier) == LaneFor(p)
    ensures OnTimeline(Emission(p.usec, p.dts, r.carrier, s.offset, r.state.offset, true)) && r.state.maxPts == s.maxPts
    ensures OnTicks(Emission(p.usec, p.dts, r.carrier, s.offset, r.state.offset, true))
  {
    hide UsecToTicks, Rounds, OnTicks, Rounded;
    TicksOut(p, c, r, s.offset);
  }

  lemma IdleTicks(s: State, p: Packet)
    requires Idle(s)
    ensures OnTicks(Emission(p.usec, p.dts, p, s.offset, s.offset, false))
  {
  }

  /** The offset's own rounding and those of at most two epochs make at most one tick more than rounding once. */
  lemma TicksOut(p: Packet, c: Packet, r: Flow, offset: int)
    requires 0 <= offset <= r.state.offset && c == Shift(p, offset) && r.carrier.den == c.den
    requires r.state.offset < HIGHEST && InRange(c.dts) ==>
               InRange(r.carrier.dts) && Rounds(r.carrier.dts - c.dts, r.state.offset - offset, c.den, 2)
    ensures OnTicks(Emission(p.usec, p.dts, r.carrier, offset, r.state.offset, true))
  {
    hide Rounded, Rounds;
    var e := Emission(p.usec, p.dts, r.carrier, offset, r.state.offset, true);
    if TickRoom(e) {
      if p.den > 0 {
        TickParts(offset, e.offset, p.den, r.carrier.dts - c.dts);
        NoTicks();
        assert c.dts == p.dts + Ticks(offset, p.den) && InRange(c.dts);
      } else {
        assert c.dts == p.dts;
      }
      RoundsMeans(r.carrier.dts - c.dts, e.offset - offset, c.den);
    }
  }

  lemma RoundsMeans(ticks: int, usec: int, den: int)
    requires Rounds(ticks, usec, den, 2)
    ensures 0 <= ticks && (den <= 0 ==> ticks == 0) && (usec == 0 ==> ticks == 0)
  {
  }

  lemma NoTicks()
    ensures Rounded(0, 1_000_000) == 0
  {
  }

  lemma TickParts(from: int, to: int, den: int, more: int)
    requires 0 <= from <= to && den > 0
    ensures 0 <= Rounded(from * den, 1_000_000) <= Rounded(to * den, 1_000_000)
    ensures Rounds(more, to - from, den, 2) ==> Rounded(from * den, 1_000_000) + more <= Rounded(to * den, 1_000_000) + 1
  {
    hide Rounded;
    Scaled(from, to, den);
    NearHalf(from * den);
    NearHalf(to * den);
    Later(from * den, to * den);
  }

  lemma Scaled(from: int, to: int, den: int)
    requires 0 <= from <= to && den > 0
    ensures 0 <= from * den <= to * den && 2 * (to - from) * den == 2 * (to * den) - 2 * (from * den)
  {
  }

  lemma NearHalf(x: int)
    requires x >= 0
    ensures var r := Rounded(x, 1_000_000); 0 <= r && 2 * x - 1_000_000 < 2_000_000 * r <= 2 * x + 1_000_000
  {
  }

  lemma Later(x: int, y: int)
    requires 0 <= x <= y
    ensures Rounded(x, 1_000_000) <= Rounded(y, 1_000_000)
  {
  }

  lemma OffsetKept(s: State, op: Op)
    requires s.Shaped() && !op.Live? && !op.Activate?
    ensures Step(s, op).offset == s.offset && Step(s, op).maxPts == s.maxPts
  {
    if op.HoldPacket? {
      HoldOffset(s, op.packet, op.compatible);
    }
  }

  lemma HoldOffset(s: State, p: Packet, compatible: bool)
    requires s.Shaped()
    ensures ReceiveHold(s, p, compatible).offset == s.offset && ReceiveHold(s, p, compatible).maxPts == s.maxPts
  {
    hide FormatClash, NoteHold, StoreHold, Fits, TrimHold;
    if TakesHold(s) {
      var s1 := NoteHold(s, p);
      NoteOffset(s, p);
      StoreOffset(s1, p);
      var s2 := StoreHold(s1, p);
      TrimOffset(s2.(holdReady := true), LaneFor(p));
      TrimOffset(s2.(mode := Error), LaneFor(p));
      TrimOffset(s2, LaneFor(p));
    }
  }

  lemma NoteOffset(s: State, p: Packet)
    requires s.Shaped()
    ensures NoteHold(s, p).offset == s.offset && NoteHold(s, p).maxPts == s.maxPts
  {
    hide From, SizeOf, TotalSize;
  }

  lemma StoreOffset(s: State, p: Packet)
    requires s.Shaped()
    ensures StoreHold(s, p).offset == s.offset && StoreHold(s, p).maxPts == s.maxPts
  {
  }

  lemma {:induction false} TrimOffset(s: State, l: nat)
    requires s.Shaped() && l < LANES
    ensures TrimHold(s, l).offset == s.offset && TrimHold(s, l).maxPts == s.maxPts
    decreases |s.hold[l]|
  {
    if s.mode == Preparing && l != 0 && |s.hold[l]| > MAX_HOLD_LANE_PACKETS {
      TrimOffset(s.(hold := s.hold[l := s.hold[l][1..]], holdBuffered := Less(s.holdBuffered, s.hold[l][0].size)), l);
    }
  }

  /** Everything handed out since the last reconnect. */
  datatype Run = Run(state: State, out: seq<Emission>)

  function Played(before: Run, op: Op): (r: Run)
    requires before.state.Shaped()
    ensures r.state.Shaped()
  {
    match op
    case Live(p, audioStep) =>
      var flow := Process(before.state, p, audioStep);
      var e := Emission(p.usec, p.dts, flow.carrier, before.state.offset, flow.state.offset, !Idle(before.state));
      Run(flow.state, before.out + [e])
    case Activate => Run(Step(before.state, op), [])
    case _ => Run(Step(before.state, op), before.out)
  }

  function Play(ops: seq<Op>): (r: Run)
    ensures r.state.Shaped()
  {
    if ops == [] then Run(Initial(), []) else Played(Play(ops[..|ops| - 1]), ops[|ops| - 1])
  }

  predicate Ordered(r: Run) {
    && 0 <= r.state.offset <= HIGHEST
    && (forall i :: 0 <= i < |r.out| ==> OnTimeline(r.out[i]) && OnTicks(r.out[i]) && r.out[i].offset <= r.state.offset)
    && (forall i :: 0 <= i < |r.out| ==> Covers(r.state.maxPts, r.out[i]))
    && (forall i, j :: 0 <= i < j < |r.out| ==> r.out[i].offset <= r.out[j].from && r.out[i].offset <= r.out[j].offset)
  }

  lemma {:induction false} EveryRunOrdered(ops: seq<Op>)
    ensures Ordered(Play(ops))
  {
    hide Process, Step, OnTicks, OnTimeline;
    if ops != [] {
      var op := ops[|ops| - 1];
      var before := Play(ops[..|ops| - 1]);
      EveryRunOrdered(ops[..|ops| - 1]);
      match op {
        case Live(p, audioStep) => ProcessTracks(before.state, p, audioStep);
        case Activate => ReconnectedOffset(before.state);
        case _ => OffsetKept(before.state, op);
      }
    }
  }

  lemma ReconnectedOffset(s: State)
    requires s.Shaped()
    ensures Step(s, Activate).offset == 0 && Step(s, Activate).maxPts == None
  {
  }

  /** Between reconnects raw order survives every splice, on each lane and across lanes. */
  lemma RawOrderSurvives(ops: seq<Op>, i: nat, j: nat)
    requires i < j < |Play(ops).out| && Play(ops).out[i].raw < Play(ops).out[j].raw
    requires Unsaturated(Play(ops).out[i]) && Unsaturated(Play(ops).out[j])
    ensures Play(ops).out[i].out.usec < Play(ops).out[j].out.usec
  {
    hide Play;
    EveryRunOrdered(ops);
  }

  /** Ticks of one time base that rise before the session never fall behind it. They may meet: exactly when the later
      tick is the next one, the earlier packet started an epoch and came out a tick above the offset it left, and the
      later one moves by no more than that offset. */
  lemma TickOrderSurvives(ops: seq<Op>, i: nat, j: nat)
    requires i < j < |Play(ops).out| && Play(ops).out[i].tick < Play(ops).out[j].tick
    requires Play(ops).out[i].out.den == Play(ops).out[j].out.den
    requires TickRoom(Play(ops).out[i]) && TickRoom(Play(ops).out[j])
    ensures var d, e := Play(ops).out[i], Play(ops).out[j];
            var ticks := Ticks(d.offset, d.out.den);
            && d.out.dts <= e.out.dts
            && (d.out.dts == e.out.dts <==>
                  e.tick == d.tick + 1 && d.from < d.offset && d.out.dts == d.tick + ticks + 1 && e.out.dts == e.tick + ticks)
  {
    hide Play, Rounded;
    EveryRunOrdered(ops);
    var d, e := Play(ops).out[i], Play(ops).out[j];
    if d.out.den > 0 {
      TickParts(d.offset, e.from, d.out.den, 0);
      TickParts(e.from, e.offset, d.out.den, 0);
    }
  }

  /** Two moves of 20 ms at 30 ticks a second round up twice; the next packet, moved by 40 ms at once, meets the first. */
  lemma TicksMeet(p: Packet, next: Packet)
    requires p.den == next.den == 30 && next.dts == p.dts + 1 && 0 <= p.dts <= 1_000_000
    ensures Shift(Shift(p, 20_000), 20_000).dts == Shift(next, 40_000).dts == p.dts + 2
  {
    hide UsecToTicks;
    RoundedUp();
  }

  lemma RoundedUp()
    ensures UsecToTicks(20_000, 30) == UsecToTicks(40_000, 30) == 1
  {
  }
}
