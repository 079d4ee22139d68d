/** The output session on values: live packets are carriers whose payload is swapped for a
    hold or a delayed one, on one video lane and six audio lanes. */
module SessionSpec {
  import opened Options

  const LANES: nat := 7
  const MAX_PRIMARY_BYTES: nat := 4 * 1024 * 1024 * 1024
  const MAX_HOLD_BYTES: nat := 128 * 1024 * 1024
  const MAX_HOLD_LANE_PACKETS: nat := 4096
  const HOLD_PREROLL_USEC: int := 500_000
  const LOWEST: int := -0x8000_0000_0000_0000
  const HIGHEST: int := 0x7fff_ffff_ffff_ffff

  datatype Encoder = Primary | Hold

  /** An encoded packet; encoder and id name the payload, everything else is what the muxer sees. */
  datatype Packet = Packet(
    video: bool, track: nat, num: int, den: int, pts: int, dts: int, usec: int, keyframe: bool, size: nat,
    encoder: Encoder, id: nat)

  type Queue = seq<Packet>

  datatype Format = Format(video: bool, track: nat, num: int, den: int)

  datatype Mode = Bypass | Preparing | Filling | Delayed | Returning | Error

  datatype State = State(
    mode: Mode, primary: seq<Queue>, hold: seq<Queue>,
    primaryFallback: seq<Option<Packet>>, holdFallback: seq<Option<Packet>>,
    primaryFormats: seq<Option<Format>>, holdFormats: seq<Option<Format>>,
    lastPrimary: seq<Option<int>>, steps: seq<nat>, lastEmitted: seq<Option<int>>,
    fillStart: int, frame: int, maxPts: Option<int>, buffered: nat, holdBuffered: nat,
    target: nat, active: set<nat>, holdStart: int,
    realign: bool, holdReady: bool, fromFilling: bool, drain: bool, errorReturn: bool, offset: int)
  {
    predicate Shaped() {
      && |primary| == LANES && |hold| == LANES && |primaryFallback| == LANES && |holdFallback| == LANES
      && |primaryFormats| == LANES && |holdFormats| == LANES
      && |lastPrimary| == LANES && |steps| == LANES && |lastEmitted| == LANES
      && forall l :: l in active ==> 1 <= l < LANES
    }
  }

  function Nothing<T>(): seq<Option<T>> { seq(LANES, _ => None) }
  function NoQueues(): seq<Queue> { seq(LANES, _ => []) }
  function NoSteps(): seq<nat> { seq(LANES, _ => 0) }

  function Initial(): State {
    State(Bypass, NoQueues(), NoQueues(), Nothing(), Nothing(), Nothing(), Nothing(), Nothing(), NoSteps(), Nothing(),
          0, 16667, None, 0, 0, 0, {}, 0, false, false, false, false, false, 0)
  }

  function Max(a: int, b: int): int { if a >= b then a else b }
  function Min(a: int, b: int): int { if a <= b then a else b }
  function Abs(a: int): int { if a >= 0 then a else -a }
  function Clamp(a: int): int { if a < LOWEST then LOWEST else if a > HIGHEST then HIGHEST else a }
  function SatAdd(a: int, b: int): int { Clamp(a + b) }

  /** Quotient truncated toward zero. */
  function Truncated(a: int, d: int): int
    requires d > 0
  {
    if a >= 0 then a / d else -((-a) / d)
  }

  /** Quotient rounded to nearest, halves away from zero. */
  function Rounded(a: int, d: int): int
    requires d > 0
  {
    if a >= 0 then (2 * a + d) / (2 * d) else -((-2 * a + d) / (2 * d))
  }

  function TicksToUsec(ticks: int, den: int): int {
    if den <= 0 then 0 else Clamp(Truncated(ticks * 1_000_000, den))
  }

  function UsecToTicks(usec: int, den: int): int {
    if den <= 0 then 0 else Clamp(Rounded(usec * den, 1_000_000))
  }

  function LaneFor(p: Packet): (l: nat)
    ensures l < LANES
  {
    if p.video then 0 else if p.track + 1 < LANES then p.track + 1 else LANES - 1
  }

  function FormatOf(p: Packet): Format { Format(p.video, p.track, p.num, p.den) }

  predicate Compatible(carrier: Packet, replacement: Packet) {
    FormatOf(carrier) == FormatOf(replacement)
  }

  // ---------------------------------------------------------------------
  // The shared timeline

  function Shift(p: Packet, offset: int): Packet {
    if offset <= 0 then p
    else
      var ticks := UsecToTicks(offset, p.den);
      p.(dts := SatAdd(p.dts, ticks), pts := SatAdd(p.pts, ticks), usec := SatAdd(p.usec, offset))
  }

  /** Presentation time of a payload that a carrier takes over. */
  function Presented(carrier: Packet, payload: Packet): int {
    SatAdd(carrier.usec, TicksToUsec(payload.pts - payload.dts, carrier.den))
  }

  function NextSafe(s: State): int
    requires s.maxPts.Some?
  {
    SatAdd(s.maxPts.value, Max(1, s.frame))
  }

  datatype Flow = Flow(state: State, carrier: Packet)

  /** Moves the timeline forward when the next payload would not be presented after all before it. */
  function BeginEpoch(s: State, carrier: Packet, payload: Packet): (r: Flow)
    ensures s.Shaped() ==> r.state.Shaped()
  {
    if !carrier.video || s.maxPts.None? || Presented(carrier, payload) >= NextSafe(s) then Flow(s, carrier)
    else
      var additional := NextSafe(s) - Presented(carrier, payload);
      Flow(s.(offset := SatAdd(s.offset, additional)), Shift(carrier, additional))
  }

  function NoteEmitted(s: State, p: Packet): (r: State)
    ensures s.Shaped() ==> r.Shaped()
  {
    if !p.video then s
    else
      var pts := Presented(p, p);
      s.(maxPts := Some(if s.maxPts.None? || pts > s.maxPts.value then pts else s.maxPts.value))
  }

  // ---------------------------------------------------------------------
  // Cadence

  function Nominal(p: Packet, audioStep: nat): nat {
    if p.video then Max(1, TicksToUsec(p.num, p.den)) else audioStep
  }

  predicate Hole(step: nat, observed: int) {
    step > 0 && observed > step + Max(2_000, step / 2)
  }

  function StepAfter(s: State, p: Packet, audioStep: nat): nat
    requires s.Shaped()
  {
    var l := LaneFor(p);
    var known := if s.steps[l] == 0 then Nominal(p, audioStep) else s.steps[l];
    if known == 0 && s.lastPrimary[l].Some? && p.usec > s.lastPrimary[l].value
    then p.usec - s.lastPrimary[l].value else known
  }

  function NoteCadence(s: State, p: Packet, audioStep: nat): (r: State)
    requires s.Shaped()
    ensures r.Shaped()
  {
    var l := LaneFor(p);
    var step := StepAfter(s, p, audioStep);
    var hole := s.lastPrimary[l].Some? && p.usec > s.lastPrimary[l].value && Hole(step, p.usec - s.lastPrimary[l].value);
    s.(steps := s.steps[l := step], realign := s.realign || hole, lastPrimary := s.lastPrimary[l := Some(p.usec)],
       frame := if p.video && step > 0 then step else s.frame,
       primaryFormats := s.primaryFormats[l := Some(FormatOf(p))])
  }

  /** A hole in the source timestamps handed out on a lane asks for realignment. */
  function NoteSource(s: State, l: nat, usec: int): (r: State)
    requires s.Shaped() && l < LANES
    ensures r.Shaped()
  {
    var hole := s.lastEmitted[l].Some? && Hole(s.steps[l], usec - s.lastEmitted[l].value);
    s.(realign := s.realign || hole, lastEmitted := s.lastEmitted[l := Some(usec)])
  }

  // ---------------------------------------------------------------------
  // Buffers and replacement

  predicate Fits(limit: nat, used: nat, size: nat) {
    size <= limit - Min(used, limit)
  }

  function Less(used: nat, size: nat): nat { if used >= size then used - size else 0 }

  /** Buffers a carrier under its raw media time. */
  function Buffer(s: State, p: Packet, raw: int): (r: State)
    requires s.Shaped()
    ensures r.Shaped()
  {
    var l := LaneFor(p);
    s.(primary := s.primary[l := s.primary[l] + [p.(usec := raw)]], buffered := s.buffered + p.size)
  }

  /** The carrier keeps its place on the timeline and takes over the payload with its composition offset. */
  function Replace(carrier: Packet, payload: Packet): Packet {
    carrier.(pts := carrier.dts + (payload.pts - payload.dts), keyframe := payload.keyframe, size := payload.size,
             encoder := payload.encoder, id := payload.id)
  }

  datatype Choice = FromQueue | FromFallback | Unavailable

  function Choose(q: Queue, fallback: Option<Packet>, carrier: Packet): Choice {
    if q != [] && Compatible(carrier, q[0]) then FromQueue
    else if fallback.Some? && Compatible(carrier, fallback.value) then FromFallback
    else Unavailable
  }

  datatype Taken = Taken(state: State, carrier: Packet, ok: bool, fallback: bool)

  function PopPrimary(s: State, l: nat): (r: State)
    requires s.Shaped() && l < LANES && s.primary[l] != []
    ensures r.Shaped()
  {
    var chosen := s.primary[l][0];
    s.(primary := s.primary[l := s.primary[l][1..]], buffered := Less(s.buffered, chosen.size),
       primaryFallback := if !chosen.video || chosen.keyframe then s.primaryFallback[l := Some(chosen)] else s.primaryFallback)
  }

  function TakePrimary(s: State, carrier: Packet): (r: Taken)
    requires s.Shaped()
    ensures r.state.Shaped()
  {
    var l := LaneFor(carrier);
    match Choose(s.primary[l], s.primaryFallback[l], carrier)
    case FromQueue =>
      Taken(PopPrimary(NoteSource(s, l, s.primary[l][0].usec), l), Replace(carrier, s.primary[l][0]), true, false)
    case FromFallback =>
      Taken(NoteSource(s, l, s.primaryFallback[l].value.usec), Replace(carrier, s.primaryFallback[l].value), true, true)
    case Unavailable => Taken(s, carrier, false, false)
  }

  function TakeHold(s: State, carrier: Packet): (r: Taken)
    requires s.Shaped()
    ensures r.state.Shaped()
  {
    var l := LaneFor(carrier);
    match Choose(s.hold[l], s.holdFallback[l], carrier)
    case FromQueue =>
      Taken(s.(hold := s.hold[l := s.hold[l][1..]], holdBuffered := Less(s.holdBuffered, s.hold[l][0].size)),
            Replace(carrier, s.hold[l][0]), true, false)
    case FromFallback => Taken(s, Replace(carrier, s.holdFallback[l].value), true, true)
    case Unavailable => Taken(s, carrier, false, false)
  }

  datatype Swapped = Swapped(carrier: Packet, ok: bool)

  function TakeFallback(fallback: seq<Option<Packet>>, carrier: Packet): Swapped
    requires |fallback| == LANES
  {
    var f := fallback[LaneFor(carrier)];
    if f.Some? && Compatible(carrier, f.value) then Swapped(Replace(carrier, f.value), true) else Swapped(carrier, false)
  }

  function ReturnWithError(s: State, fromFilling: bool): (r: State)
    ensures s.Shaped() ==> r.Shaped()
  {
    s.(errorReturn := true, fromFilling := fromFilling, mode := Returning)
  }

  // ---------------------------------------------------------------------
  // Hold preroll

  predicate Required(s: State, l: nat) { l == 0 || l in s.active }

  predicate FormatsKnown(s: State)
    requires s.Shaped()
  {
    forall l :: 0 <= l < LANES && Required(s, l) ==> s.primaryFormats[l].Some? && s.holdFormats[l].Some?
  }

  predicate FormatsMatch(s: State)
    requires s.Shaped()
  {
    forall l :: 0 <= l < LANES && Required(s, l) && s.primaryFormats[l].Some? && s.holdFormats[l].Some? ==>
      s.primaryFormats[l] == s.holdFormats[l]
  }

  /** A required lane whose formats differ, all required lanes before it being known. */
  predicate FormatClash(s: State)
    requires s.Shaped()
  {
    exists l :: 0 <= l < LANES && Required(s, l) && s.primaryFormats[l].Some? && s.holdFormats[l].Some? &&
      s.primaryFormats[l] != s.holdFormats[l] && KnownBelow(s, l)
  }

  predicate KnownBelow(s: State, l: nat)
    requires s.Shaped() && l < LANES
  {
    forall j :: 0 <= j < l && Required(s, j) ==> s.primaryFormats[j].Some? && s.holdFormats[j].Some?
  }

  predicate Prerolled(q: Queue, ready: int) { q != [] && q[|q| - 1].usec >= ready }

  predicate PrerollReady(s: State)
    requires s.Shaped()
  {
    && s.holdReady && s.hold[0] != [] && s.hold[0][0].keyframe
    && (forall l :: 0 <= l < LANES && Required(s, l) ==> Prerolled(s.hold[l], s.holdStart + HOLD_PREROLL_USEC))
    && FormatsMatch(s) && FormatsKnown(s)
  }

  // ---------------------------------------------------------------------
  // Realignment

  function Lead(s: State, l: nat): int
    requires s.Shaped() && l < LANES && s.primary[l] != [] && s.lastPrimary[l].Some?
  {
    s.lastPrimary[l].value + s.steps[l] - s.primary[l][0].usec
  }

  predicate LanesReady(s: State)
    requires s.Shaped()
  {
    forall l :: l in s.active ==> s.primary[l] != [] && s.lastPrimary[l].Some?
  }

  predicate Skewed(s: State, age: int)
    requires s.Shaped() && LanesReady(s)
  {
    exists l :: l in s.active && Abs(age - Lead(s, l)) > Max(4_000, 2 * Max(s.steps[0], s.steps[l]))
  }

  /** The latest head of the video lane and the active lanes below l. */
  function LowerBound(s: State, l: nat): int
    requires s.Shaped() && LanesReady(s) && s.primary[0] != [] && l <= LANES
  {
    if l == 0 then s.primary[0][0].usec
    else if l - 1 in s.active then Max(LowerBound(s, l - 1), s.primary[l - 1][0].usec)
    else LowerBound(s, l - 1)
  }

  /** Moves a cursor to the first packet at or after a time. */
  function Advance(q: Queue, cursor: nat, at: int): nat
    decreases |q| - cursor
  {
    if cursor < |q| && q[cursor].usec < at then Advance(q, cursor + 1, at) else cursor
  }

  datatype Probe = Probe(cursors: seq<nat>, aligned: bool, beyond: bool)

  /** Whether lanes l and up can continue at a time, moving their cursors there. */
  function ProbeLanes(s: State, cursors: seq<nat>, at: int, l: nat): (r: Probe)
    requires s.Shaped() && |cursors| == LANES && l <= LANES
    ensures |r.cursors| == LANES
    decreases LANES - l
  {
    if l == LANES then Probe(cursors, true, false)
    else if l !in s.active then ProbeLanes(s, cursors, at, l + 1)
    else
      var q := s.primary[l];
      var c := Advance(q, cursors[l], at);
      if c >= |q| then Probe(cursors[l := c], false, true)
      else if q[c].usec - at > s.steps[l] + 2_000 then Probe(cursors[l := c], false, false)
      else ProbeLanes(s, cursors[l := c], at, l + 1)
  }

  /** The single pass over the buffered video with one cursor for each audio lane. */
  function Scan(s: State, desired: int, lower: int, index: nat, cursors: seq<nat>, chosen: Option<nat>): (r: Option<nat>)
    requires s.Shaped() && |cursors| == LANES && (chosen.Some? ==> chosen.value < |s.primary[0]|)
    ensures r.Some? ==> r.value < |s.primary[0]|
    decreases |s.primary[0]| - index
  {
    if index >= |s.primary[0]| then chosen
    else
      var p := s.primary[0][index];
      if !p.keyframe || p.usec < lower then Scan(s, desired, lower, index + 1, cursors, chosen)
      else
        var probe := ProbeLanes(s, cursors, p.usec, 1);
        if probe.beyond then chosen
        else if !probe.aligned then Scan(s, desired, lower, index + 1, probe.cursors, chosen)
        else
          var next := if chosen.None? || p.usec <= desired then Some(index) else chosen;
          if p.usec >= desired then next else Scan(s, desired, lower, index + 1, probe.cursors, next)
  }

  function Pick(s: State, desired: int): (r: Option<nat>)
    requires s.Shaped() && LanesReady(s) && s.primary[0] != []
    ensures r.Some? ==> r.value < |s.primary[0]|
  {
    Scan(s, desired, LowerBound(s, LANES), 0, seq(LANES, _ => 0), None)
  }

  /** Drops everything before the new origin from one lane. */
  function From(q: Queue, origin: int): Queue
  {
    if q == [] || q[0].usec >= origin then q else From(q[1..], origin)
  }

  function SizeOf(q: Queue): nat {
    if q == [] then 0 else q[0].size + SizeOf(q[1..])
  }

  function TotalSize(lanes: seq<Queue>): nat {
    if lanes == [] then 0 else SizeOf(lanes[0]) + TotalSize(lanes[1..])
  }

  function CutAt(s: State, origin: int): (r: State)
    requires s.Shaped()
    ensures r.Shaped()
  {
    var kept := seq(LANES, l requires 0 <= l < LANES => From(s.primary[l], origin));
    s.(primary := kept, buffered := Less(s.buffered, Max(0, TotalSize(s.primary) - TotalSize(kept))),
       primaryFallback := Nothing(), lastEmitted := Nothing(), realign := false)
  }

  predicate Covered(s: State, origin: int)
    requires s.Shaped() && LanesReady(s)
  {
    forall l :: l in s.active ==> s.primary[l][|s.primary[l]| - 1].usec >= origin
  }

  /** The state once the video head is compared with the last source packet handed out. */
  function HeadChecked(s: State): (r: State)
    requires s.Shaped() && s.primary[0] != []
    ensures r.Shaped()
  {
    var hole := s.lastEmitted[0].Some? && Hole(s.steps[0], s.primary[0][0].usec - s.lastEmitted[0].value);
    s.(realign := s.realign || hole)
  }

  function Realign(s: State, carrier: Packet, raw: int): (r: Flow)
    requires s.Shaped()
    ensures r.state.Shaped()
  {
    if !carrier.video || s.primary[0] == [] then Flow(s, carrier)
    else
      var s1 := HeadChecked(s);
      if !s1.realign || !LanesReady(s1) then Flow(s1, carrier)
      else if !Skewed(s1, raw - s1.primary[0][0].usec) then Flow(s1.(realign := false), carrier)
      else
        var pick := Pick(s1, raw - s1.target * 1_000_000);
        if pick.None? then Flow(s1, carrier)
        else
          var origin := s1.primary[0][pick.value].usec;
          if !Covered(s1, origin) then Flow(s1, carrier)
          else
            var s2 := CutAt(s1, origin);
            if s2.primary[0] == [] then Flow(s2, carrier) else BeginEpoch(s2, carrier, s2.primary[0][0])
  }

  // ---------------------------------------------------------------------
  // One live packet

  predicate FillReady(s: State, carrier: Packet, raw: int)
    requires s.Shaped()
  {
    && raw >= s.fillStart && raw - s.fillStart >= s.target * 1_000_000
    && carrier.video && s.primary[0] != [] && s.primary[0][0].keyframe
  }

  function StartHold(s: State, carrier: Packet, starting: bool): (r: Flow)
    requires s.Shaped()
    ensures r.state.Shaped()
  {
    if starting && s.hold[0] != [] then BeginEpoch(s, carrier, s.hold[0][0]) else Flow(s, carrier)
  }

  /** The payload was repeated: bridge to it and fall back to live at the next keyframe. */
  function Underrun(t: Taken, fromFilling: bool): (r: Flow)
    ensures t.state.Shaped() ==> r.state.Shaped()
  {
    var bridged := BeginEpoch(t.state, t.carrier, t.carrier);
    Flow(ReturnWithError(bridged.state, fromFilling), bridged.carrier)
  }

  function FillFull(s: State, carrier: Packet, starting: bool): (r: Flow)
    requires s.Shaped()
    ensures r.state.Shaped()
  {
    var begun := StartHold(s.(fromFilling := true, mode := Returning), carrier, starting);
    var taken := TakeHold(begun.state, begun.carrier);
    Flow(if taken.ok then taken.state else ReturnWithError(taken.state, true), taken.carrier)
  }

  function EnterDelayed(s: State, carrier: Packet): (r: Flow)
    requires s.Shaped() && s.primary[0] != []
    ensures r.state.Shaped()
  {
    var begun := BeginEpoch(s, carrier, s.primary[0][0]);
    var taken := TakePrimary(begun.state.(mode := Delayed, lastEmitted := Nothing()), begun.carrier);
    if taken.ok then Flow(taken.state, taken.carrier)
    else
      var kept := TakeFallback(taken.state.holdFallback, taken.carrier);
      var bridged := if kept.ok then BeginEpoch(taken.state, kept.carrier, kept.carrier) else Flow(taken.state, kept.carrier);
      Flow(ReturnWithError(bridged.state, kept.ok), bridged.carrier)
  }

  function FillStep(s: State, carrier: Packet, raw: int, starting: bool): (r: Flow)
    requires s.Shaped()
    ensures r.state.Shaped()
  {
    if !Fits(MAX_PRIMARY_BYTES, s.buffered, carrier.size) then FillFull(s, carrier, starting)
    else
      var s1 := Buffer(s, carrier, raw);
      if FillReady(s1, carrier, raw) then EnterDelayed(s1, carrier)
      else
        var begun := StartHold(s1, carrier, starting);
        var taken := TakeHold(begun.state, begun.carrier);
        if !taken.ok then Flow(ReturnWithError(taken.state, true), taken.carrier)
        else if taken.fallback then Underrun(taken, true)
        else Flow(taken.state, taken.carrier)
  }

  /** A delayed packet, or the bridge to the fallback when the delay line runs dry. */
  function DrainDelayed(s: State, carrier: Packet): (r: Flow)
    requires s.Shaped()
    ensures r.state.Shaped()
  {
    var taken := TakePrimary(s, carrier);
    if !taken.ok then Flow(ReturnWithError(taken.state, false), taken.carrier)
    else if taken.fallback then Underrun(taken, false)
    else Flow(taken.state, taken.carrier)
  }

  function DelayFull(s: State, carrier: Packet): (r: Flow)
    requires s.Shaped()
    ensures r.state.Shaped()
  {
    var s1 := s.(fromFilling := false, drain := true, mode := Returning);
    if carrier.video && carrier.keyframe then
      var begun := BeginEpoch(s1, carrier, carrier);
      Flow(begun.state.(mode := Bypass), begun.carrier)
    else DrainDelayed(s1, carrier)
  }

  function DelayStep(s: State, carrier: Packet, raw: int): (r: Flow)
    requires s.Shaped()
    ensures r.state.Shaped()
  {
    if !Fits(MAX_PRIMARY_BYTES, s.buffered, carrier.size) then DelayFull(s, carrier)
    else
      var aligned := Realign(Buffer(s, carrier, raw), carrier, raw);
      DrainDelayed(aligned.state, aligned.carrier)
  }

  function ReturnStep(s: State, carrier: Packet, raw: int): (r: Flow)
    requires s.Shaped()
    ensures r.state.Shaped()
  {
    if s.errorReturn then
      Flow(s, TakeFallback(if s.fromFilling then s.holdFallback else s.primaryFallback, carrier).carrier)
    else if s.fromFilling then
      var taken := TakeHold(s, carrier);
      Flow(if taken.ok then taken.state else ReturnWithError(taken.state, true), taken.carrier)
    else if s.drain then DrainDelayed(s, carrier)
    else if Fits(MAX_PRIMARY_BYTES, s.buffered, carrier.size) then DrainDelayed(Buffer(s, carrier, raw), carrier)
    else DrainDelayed(s.(drain := true), carrier)
  }

  /** A live keyframe ends the return. */
  function GoLive(s: State, carrier: Packet): (r: Flow)
    ensures s.Shaped() ==> r.state.Shaped()
  {
    var begun := BeginEpoch(s, carrier, carrier);
    Flow(begun.state.(mode := if s.errorReturn then Error else Bypass, errorReturn := false), begun.carrier)
  }

  function Route(s: State, carrier: Packet, raw: int): (r: Flow)
    requires s.Shaped()
    ensures r.state.Shaped()
  {
    match s.mode
    case Bypass => Flow(s, carrier)
    case Error => Flow(s, carrier)
    case Preparing =>
      if carrier.video && carrier.keyframe && PrerollReady(s) then
        FillStep(s.(fillStart := raw, mode := Filling), carrier, raw, true)
      else Flow(s, carrier)
    case Filling => FillStep(s, carrier, raw, false)
    case Delayed => DelayStep(s, carrier, raw)
    case Returning => if carrier.video && carrier.keyframe then GoLive(s, carrier) else ReturnStep(s, carrier, raw)
  }

  predicate Idle(s: State) { (s.mode == Bypass || s.mode == Error) && s.offset == 0 }

  function Process(s: State, p: Packet, audioStep: nat): (r: Flow)
    requires s.Shaped()
    ensures r.state.Shaped()
  {
    if Idle(s) then Flow(s, p)
    else
      var routed := Route(NoteCadence(s, p, audioStep), Shift(p, s.offset), p.usec);
      Flow(NoteEmitted(routed.state, routed.carrier), routed.carrier)
  }

  // ---------------------------------------------------------------------
  // One hold packet

  predicate TakesHold(s: State) {
    s.mode == Preparing || s.mode == Filling || (s.mode == Returning && s.fromFilling)
  }

  predicate OpensHold(s: State, p: Packet) {
    s.mode == Preparing && p.video && p.keyframe && !s.holdReady
  }

  /** The first keyframe restarts the hold lanes at its own time. */
  function RestartHold(s: State, p: Packet): (r: State)
    requires s.Shaped()
    ensures r.Shaped()
  {
    var kept := seq(LANES, l requires 0 <= l < LANES => if l == 0 then [] else From(s.hold[l], p.usec));
    s.(hold := kept, holdBuffered := Less(s.holdBuffered, Max(0, TotalSize(s.hold) - TotalSize(kept))), holdStart := p.usec)
  }

  function NoteHold(s: State, p: Packet): (r: State)
    requires s.Shaped()
    ensures r.Shaped()
  {
    var l := LaneFor(p);
    var s1 := s.(holdFormats := s.holdFormats[l := Some(FormatOf(p))]);
    var s2 := if OpensHold(s, p) then RestartHold(s1, p) else s1;
    if !p.video || p.keyframe then s2.(holdFallback := s2.holdFallback[l := Some(p)]) else s2
  }

  function StoreHold(s: State, p: Packet): (r: State)
    requires s.Shaped()
    ensures r.Shaped()
  {
    var l := LaneFor(p);
    s.(hold := s.hold[l := s.hold[l] + [p]], holdBuffered := s.holdBuffered + p.size)
  }

  /** Audio preroll keeps only its newest packets. */
  function TrimHold(s: State, l: nat): (r: State)
    requires s.Shaped() && l < LANES
    decreases |s.hold[l]|
    ensures r.Shaped()
  {
    if s.mode == Preparing && l != 0 && |s.hold[l]| > MAX_HOLD_LANE_PACKETS then
      TrimHold(s.(hold := s.hold[l := s.hold[l][1..]], holdBuffered := Less(s.holdBuffered, s.hold[l][0].size)), l)
    else s
  }

  function ReceiveHold(s: State, p: Packet, compatible: bool): (r: State)
    requires s.Shaped()
    ensures r.Shaped()
  {
    if !TakesHold(s) then s
    else
      var s1 := NoteHold(s, p);
      if !Fits(MAX_HOLD_BYTES, s1.holdBuffered, p.size) then
        if s.mode == Preparing then s1.(mode := Error) else s1.(fromFilling := true, mode := Returning)
      else
        var s2 := StoreHold(s1, p);
        if s.mode == Preparing && FormatClash(s2) then s2.(mode := Error)
        else
          var s3 := if !OpensHold(s, p) then s2 else if compatible then s2.(holdReady := true) else s2.(mode := Error);
          TrimHold(s3, LaneFor(p))
  }

  // ---------------------------------------------------------------------
  // Requests and lifecycle

  function RequestDelay(s: State, seconds: nat, active: set<nat>, started: bool): (r: State)
    ensures s.Shaped() ==> r.Shaped()
  {
    if seconds == 0 || seconds > 300 || (s.mode != Bypass && s.mode != Error) then s
    else
      s.(mode := if started then Preparing else Error, target := seconds, fillStart := 0, holdReady := false,
         fromFilling := false, drain := false, errorReturn := false,
         active := (set l | l in active && 1 <= l < LANES), holdStart := 0,
         primaryFormats := Nothing(), holdFormats := Nothing(), lastPrimary := Nothing(), lastEmitted := Nothing(),
         steps := NoSteps(), realign := false, primary := NoQueues(), primaryFallback := Nothing(), buffered := 0,
         hold := NoQueues(), holdFallback := Nothing(), holdBuffered := 0)
  }

  function ClearBuffers(s: State): (r: State)
    ensures s.Shaped() ==> r.Shaped()
  {
    s.(primary := NoQueues(), primaryFallback := Nothing(), buffered := 0,
       hold := NoQueues(), holdFallback := Nothing(), holdBuffered := 0, holdStart := 0)
  }

  function RequestBypass(s: State): (r: State)
    ensures s.Shaped() ==> r.Shaped()
  {
    match s.mode
    case Bypass => s
    case Returning => s
    case Preparing => ClearBuffers(s.(mode := Bypass, errorReturn := false))
    case Error => ClearBuffers(s.(mode := Bypass, errorReturn := false))
    case _ => s.(fromFilling := s.mode == Filling, drain := false, mode := Returning)
  }

  /** The output reconnected: a new connection starts on a fresh timeline. */
  function Reconnected(s: State): (r: State)
    ensures s.Shaped() ==> r.Shaped()
  {
    s.(mode := Bypass, errorReturn := false, offset := 0, maxPts := None, fillStart := 0, lastPrimary := Nothing(),
       lastEmitted := Nothing(), steps := NoSteps(), realign := false, primaryFormats := Nothing(), holdFormats := Nothing())
  }

  /** Maintenance drops the buffers that the present mode no longer needs. */
  function Retire(s: State): (r: State)
    ensures s.Shaped() ==> r.Shaped()
  {
    if s.mode == Bypass || s.mode == Error then ClearBuffers(s)
    else if s.mode == Delayed then s.(hold := NoQueues(), holdFallback := Nothing(), holdBuffered := 0, holdStart := 0)
    else s
  }

  // ---------------------------------------------------------------------
  // Runs

  datatype Op =
    | Live(packet: Packet, audioStep: nat)
    | HoldPacket(packet: Packet, compatible: bool)
    | Delay(seconds: nat, active: set<nat>, started: bool)
    | Cancel
    | Activate
    | Maintain

  /** One call; only a live packet hands something to the muxer. */
  function Step(s: State, op: Op): (r: State)
    requires s.Shaped()
    ensures r.Shaped()
  {
    match op
    case Live(p, audioStep) => Process(s, p, audioStep).state
    case HoldPacket(p, compatible) => ReceiveHold(s, p, compatible)
    case Delay(seconds, active, started) => RequestDelay(s, seconds, active, started)
    case Cancel => RequestBypass(s)
    case Activate => Reconnected(s)
    case Maintain => Retire(s)
  }

  /** The state that calls lead to, from a new session. */
  function Reached(ops: seq<Op>): (r: State)
    ensures r.Shaped()
  {
    if ops == [] then Initial() else Step(Reached(ops[..|ops| - 1]), ops[|ops| - 1])
  }
}
