/** Every splice starts at least a frame after everything presented before it. */
module SessionEpoch {
  import opened Options
  import opened SessionSpec

  /** About 36 000 years in microseconds: sums of a few such times never saturate. */
  const FAR: int := 0x1000_0000_0000_0000

  predicate Near(a: int) { -FAR <= a <= FAR }

  function Composition(p: Packet): int { p.pts - p.dts }

  /** Times far from the limits of 64 bits. */
  predicate Modest(s: State, carrier: Packet, payload: Packet) {
    && -2 * FAR <= carrier.usec <= 2 * FAR && Near(TicksToUsec(Composition(payload), carrier.den))
    && (s.maxPts.Some? ==> Near(s.maxPts.value)) && 0 <= s.frame <= FAR
  }

  /** The packet is presented at least one frame after all video noted so far. */
  predicate Clears(s: State, out: Packet) {
    s.maxPts.Some? ==> Presented(out, out) >= s.maxPts.value + Max(1, s.frame)
  }

  lemma EpochClears(s: State, c: Packet, payload: Packet)
    requires c.video && Modest(s, c, payload)
    ensures var r := BeginEpoch(s, c, payload);
            && r.carrier.den == c.den && r.carrier.video && FormatOf(r.carrier) == FormatOf(c)
            && (s.maxPts.Some? ==> Presented(r.carrier, payload) >= s.maxPts.value + Max(1, s.frame))
  {
    hide TicksToUsec, UsecToTicks;
  }

  /** The carrier presents a payload with the payload's own composition offset. */
  lemma ReplacePresents(c: Packet, payload: Packet)
    ensures var out := Replace(c, payload);
            && Composition(out) == Composition(payload) && out.dts == c.dts && out.usec == c.usec
            && Presented(out, out) == Presented(c, payload)
  {
  }

  lemma TakenHoldClears(s: State, c: Packet, starting: bool)
    requires s.Shaped() && c.video && s.hold[0] != [] && starting && Compatible(c, s.hold[0][0]) && Modest(s, c, s.hold[0][0])
    ensures var b := StartHold(s, c, starting); var t := TakeHold(b.state, b.carrier);
            t.ok && !t.fallback && Clears(s, t.carrier) && t.carrier.id == s.hold[0][0].id
  {
    hide Presented, TicksToUsec;
    var b := BeginEpoch(s, c, s.hold[0][0]);
    EpochClears(s, c, s.hold[0][0]);
    EpochSame(s, c, s.hold[0][0]);
    ReplacePresents(b.carrier, s.hold[0][0]);
  }

  lemma EpochSame(s: State, c: Packet, payload: Packet)
    ensures var r := BeginEpoch(s, c, payload).state;
            && r == s.(offset := r.offset)
  {
    hide Presented, NextSafe;
  }

  lemma TakenPrimaryClears(s: State, s1: State, c: Packet)
    requires s.Shaped() && s1.Shaped() && c.video && s1.primary[0] != [] && Compatible(c, s1.primary[0][0])
    requires s.maxPts.Some? ==> Presented(c, s1.primary[0][0]) >= s.maxPts.value + Max(1, s.frame)
    ensures var t := TakePrimary(s1, c); t.ok && !t.fallback && Clears(s, t.carrier) && t.carrier.id == s1.primary[0][0].id
  {
    hide Presented;
    ReplacePresents(c, s1.primary[0][0]);
  }

  /** Moving a packet that far clips neither of its timestamps. */
  predicate Room(p: Packet, usec: int) {
    var ticks := if usec <= 0 then 0 else UsecToTicks(usec, p.den);
    LOWEST <= p.pts + ticks <= HIGHEST && LOWEST <= p.dts + ticks <= HIGHEST
  }

  /** How far the timeline has to move for a payload to clear everything noted. */
  function Gap(s: State, carrier: Packet, payload: Packet): int {
    if s.maxPts.None? || Presented(carrier, payload) >= NextSafe(s) then 0 else NextSafe(s) - Presented(carrier, payload)
  }

  lemma RoomComposes(p: Packet, usec: int)
    requires Room(p, usec)
    ensures Composition(Shift(p, usec)) == Composition(p)
  {
    hide UsecToTicks;
  }

  /** A carrier that is bridged to its own payload. */
  lemma BridgedClears(s: State, c: Packet)
    requires c.video && Modest(s, c, c) && Room(c, Gap(s, c, c))
    ensures var r := BeginEpoch(s, c, c); Composition(r.carrier) == Composition(c) && Clears(s, r.carrier)
  {
    hide TicksToUsec, Room;
    EpochClears(s, c, c);
    RoomComposes(c, Gap(s, c, c));
  }

  /** Tick counts of at most a quarter of the range leave room for a shift of as much. */
  lemma PlainRoom(p: Packet, usec: int)
    requires -HIGHEST / 4 <= p.pts <= HIGHEST / 4 && -HIGHEST / 4 <= p.dts <= HIGHEST / 4
    requires usec <= 0 || usec * p.den <= 1_000_000 * (HIGHEST / 4)
    ensures Room(p, usec)
  {
    if usec > 0 && p.den > 0 {
      PositiveProduct(usec, p.den);
      RoundedBelow(usec * p.den, HIGHEST / 4);
    }
  }

  lemma PositiveProduct(a: int, b: int)
    requires a > 0 && b > 0
    ensures a * b > 0
  {
  }

  lemma RoundedBelow(x: int, limit: int)
    requires 0 <= x <= 1_000_000 * limit
    ensures 0 <= Rounded(x, 1_000_000) <= limit
  {
  }

  lemma UnderrunClears(t: Taken, fromFilling: bool)
    requires t.carrier.video && Modest(t.state, t.carrier, t.carrier) && Room(t.carrier, Gap(t.state, t.carrier, t.carrier))
    ensures var out := Underrun(t, fromFilling).carrier;
            Composition(out) == Composition(t.carrier) && Clears(t.state, out)
  {
    hide BeginEpoch, Clears, TicksToUsec, Room;
    BridgedClears(t.state, t.carrier);
  }

  // ---------------------------------------------------------------------
  // The splices of a whole live packet

  lemma CadenceKeeps(s: State, p: Packet, audioStep: nat)
    requires s.Shaped()
    ensures var r := NoteCadence(s, p, audioStep);
            && r.maxPts == s.maxPts && r.hold == s.hold && r.primary == s.primary && r.mode == s.mode && r.offset == s.offset
            && r.target == s.target && r.errorReturn == s.errorReturn && r.buffered == s.buffered && r.fillStart == s.fillStart
  {
    hide StepAfter, Hole;
  }

  /** The state and the carrier that routing starts from. */
  function Noted(s: State, p: Packet, audioStep: nat): State
    requires s.Shaped()
  {
    NoteCadence(s, p, audioStep)
  }

  /** The hold stream takes over on a keyframe. */
  lemma HoldSplice(s: State, p: Packet, audioStep: nat)
    requires s.Shaped() && s.mode == Preparing && p.video && p.keyframe && PrerollReady(Noted(s, p, audioStep))
    requires s.target > 0 && Compatible(p, s.hold[0][0])
    requires Modest(Noted(s, p, audioStep), Shift(p, s.offset), s.hold[0][0])
    ensures var out := Process(s, p, audioStep).carrier;
            out.id == s.hold[0][0].id && Clears(Noted(s, p, audioStep), out)
  {
    hide NoteCadence, PrerollReady, StartHold, TakeHold, Clears, NoteEmitted, Underrun, TicksToUsec, UsecToTicks;
    var s1 := Noted(s, p, audioStep);
    CadenceKeeps(s, p, audioStep);
    PrerollHead(s1);
    var c := Shift(p, s.offset);
    var s2 := s1.(fillStart := p.usec, mode := Filling);
    if Fits(MAX_PRIMARY_BYTES, s2.buffered, c.size) {
      var s3 := Buffer(s2, c, p.usec);
      TakenHoldClears(s3, c, true);
      ClearsSame(s1, s3, TakeHold(StartHold(s3, c, true).state, StartHold(s3, c, true).carrier).carrier);
    } else {
      var s3 := s2.(fromFilling := true, mode := Returning);
      TakenHoldClears(s3, c, true);
      ClearsSame(s1, s3, TakeHold(StartHold(s3, c, true).state, StartHold(s3, c, true).carrier).carrier);
    }
  }

  lemma PrerollHead(s: State)
    requires s.Shaped() && PrerollReady(s)
    ensures s.hold[0] != []
  {
  }

  lemma ClearsSame(s: State, r: State, out: Packet)
    requires r.maxPts == s.maxPts && r.frame == s.frame
    ensures Clears(s, out) <==> Clears(r, out)
  {
  }

  /** The delay line takes over from the hold stream. */
  lemma DelaySplice(s: State, p: Packet, audioStep: nat)
    requires s.Shaped() && s.mode == Filling && p.video && Fits(MAX_PRIMARY_BYTES, s.buffered, p.size)
    requires var s2 := Buffer(Noted(s, p, audioStep), Shift(p, s.offset), p.usec);
             && FillReady(s2, Shift(p, s.offset), p.usec) && Compatible(p, s2.primary[0][0])
             && Modest(Noted(s, p, audioStep), Shift(p, s.offset), s2.primary[0][0])
    ensures var s2 := Buffer(Noted(s, p, audioStep), Shift(p, s.offset), p.usec);
            var r := Process(s, p, audioStep);
            r.state.mode == Delayed && r.carrier.id == s2.primary[0][0].id && Clears(Noted(s, p, audioStep), r.carrier)
  {
    hide NoteCadence, TakePrimary, Clears, NoteEmitted, BeginEpoch, TicksToUsec, UsecToTicks;
    var s1 := Noted(s, p, audioStep);
    CadenceKeeps(s, p, audioStep);
    var c := Shift(p, s.offset);
    var s2 := Buffer(s1, c, p.usec);
    EpochClears(s2, c, s2.primary[0][0]);
    EpochSame(s2, c, s2.primary[0][0]);
    var b := BeginEpoch(s2, c, s2.primary[0][0]);
    var s3 := b.state.(mode := Delayed, lastEmitted := Nothing());
    TakenPrimaryClears(s1, s3, b.carrier);
    TakenMode(s3, b.carrier);
    NotedMode(TakePrimary(s3, b.carrier).state, TakePrimary(s3, b.carrier).carrier);
  }

  lemma TakenMode(s: State, c: Packet)
    requires s.Shaped()
    ensures TakePrimary(s, c).state.mode == s.mode && TakePrimary(s, c).state.maxPts == s.maxPts
    ensures TakePrimary(s, c).state.frame == s.frame
  {
  }

  lemma NotedMode(s: State, c: Packet)
    ensures NoteEmitted(s, c).mode == s.mode
  {
    hide Presented;
  }

  /** Live output resumes on a live keyframe. */
  lemma LiveSplice(s: State, p: Packet, audioStep: nat)
    requires s.Shaped() && s.mode == Returning && p.video && p.keyframe
    requires var s1, c := Noted(s, p, audioStep), Shift(p, s.offset); Modest(s1, c, c) && Room(p, s.offset) && Room(c, Gap(s1, c, c))
    ensures var r := Process(s, p, audioStep);
            && (r.state.mode == Bypass || r.state.mode == Error) && r.carrier.id == p.id
            && Composition(r.carrier) == Composition(p) && Clears(Noted(s, p, audioStep), r.carrier)
  {
    hide NoteCadence, Clears, NoteEmitted, BeginEpoch, TicksToUsec, UsecToTicks, Room, Gap;
    RoomComposes(p, s.offset);
    CadenceKeeps(s, p, audioStep);
    var s1 := Noted(s, p, audioStep);
    var c := Shift(p, s.offset);
    BridgedClears(s1, c);
    EpochSame(s1, c, c);
    EpochId(s1, c, c);
    NotedMode(GoLive(s1, c).state, GoLive(s1, c).carrier);
  }

  lemma EpochId(s: State, c: Packet, payload: Packet)
    ensures BeginEpoch(s, c, payload).carrier.id == c.id
  {
    hide Presented, NextSafe;
  }
}
