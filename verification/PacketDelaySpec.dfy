/** The packet delay engine as a state machine on values: one function for each
    locked operation. Byte and packet counters are sums over the queues here; the
    class keeps them as fields. */
module PacketDelaySpec {
  import opened Options
  import opened Timestamps
  import opened PacketTypes

  type Queue = seq<Queued>
  type Queues = map<StreamKey, Queue>

  datatype State = State(
    mode: Mode, target: nat, pendingTarget: nat, previousTarget: nat,
    lastObserved: Option<i64>, fault: Option<Fault>,
    queues: Queues, pending: Queue, known: set<StreamKey>, active: set<StreamKey>,
    latest: map<StreamKey, Horizon>, seen: map<StreamKey, i64>, offsets: map<StreamKey, i64>,
    outputDts: map<StreamKey, Horizon>, outputPts: map<StreamKey, Horizon>,
    returnKeys: map<StreamKey, nat>, returnVideo: set<StreamKey>, returnRequested: Option<i64>,
    emitted: Option<Horizon>,
    preparingChange: bool, originDelayed: bool, returnFromDelayed: bool, returnCommitted: bool)

  function Initial(c: Config): State {
    State(Bypass, 0, 0, 0, None, None, map[], [], (set k | k in c.required :: Timeline(k)), {},
          map[], map[], map[], map[], map[], map[], {}, None, None, false, false, false, false)
  }

  // ---------------------------------------------------------------------
  // Sums over all queues

  ghost function SeqWeight(q: Queue, w: Queued -> nat): nat {
    if q == [] then 0 else w(q[0]) + SeqWeight(q[1..], w)
  }

  ghost function Weight(m: Queues, w: Queued -> nat): nat {
    if m == map[] then 0
    else
      var k :| k in m;
      SeqWeight(m[k], w) + Weight(m - {k}, w)
  }

  ghost function Packets(s: State): nat { Weight(s.queues, One) + |s.pending| }
  ghost function PayloadBytes(s: State): nat { Weight(s.queues, Payload) + SeqWeight(s.pending, Payload) }
  ghost function RetainedBytes(s: State): nat { Weight(s.queues, Retained) + SeqWeight(s.pending, Retained) }

  function One(q: Queued): nat { 1 }
  function Payload(q: Queued): nat { q.packet.retained }
  function Retained(q: Queued): nat { q.retained }

  // ---------------------------------------------------------------------
  // Clearing, errors, the clock

  function ClearQueues(s: State): State {
    s.(queues := map[], pending := [], active := {}, latest := map[], seen := map[])
  }

  function ResetTransition(s: State): State {
    s.(preparingChange := false, originDelayed := false, returnFromDelayed := false, returnCommitted := false,
       returnKeys := map[], returnVideo := {}, returnRequested := None)
  }

  function ClearAll(s: State): State {
    ResetTransition(ClearQueues(s))
  }

  function EnterError(s: State, fault: Fault): State {
    ClearAll(s).(fault := Some(fault), mode := Failed)
  }

  predicate Regresses(s: State, now: i64) {
    s.lastObserved.Some? && now < s.lastObserved.value
  }

  function Observe(s: State, now: i64): State {
    if Regresses(s, now) then EnterError(s, ClockRegression) else s.(lastObserved := Some(now))
  }

  predicate Stalled(c: Config, s: State, stream: StreamKey, now: i64) {
    c.stallTimeout != 0 && stream in s.seen && Elapsed(now, s.seen[stream]) > c.stallTimeout
  }

  // ---------------------------------------------------------------------
  // Timestamps

  function Ordering(s: State, p: Packet): Option<Horizon> {
    var sum := AddTimestamp(p.dts, if p.stream in s.offsets then s.offsets[p.stream] else 0);
    if sum.None? || !p.tb.Valid() then None else Some(Horizon(sum.value, p.tb))
  }

  function RaisedTo(h: Option<Horizon>, timestamp: int, den: int, strict: bool, floor: int): int {
    if h.Some? && h.value.tb.den > 0 then
      Max(floor, LeastTick(h.value.value, h.value.tb.den, den, strict) - timestamp)
    else floor
  }

  function Max(a: int, b: int): int { if a >= b then a else b }
  function Min(a: int, b: int): int { if a <= b then a else b }

  function Find<V>(m: map<StreamKey, V>, k: StreamKey): Option<V> {
    if k in m then Some(m[k]) else None
  }

  /** Least offset of at least the delay that clears the lane DTS, global DTS and lane PTS horizons. */
  function EpochOffset(s: State, p: Packet, delay: int): Option<i64> {
    match DelayTicks(delay, p.tb)
    case None => None
    case Some(base) =>
      var lane := Timeline(p.stream);
      var byDts := RaisedTo(Find(s.outputDts, lane), p.dts, p.tb.den, true, base);
      var byGlobal := RaisedTo(s.emitted, p.dts, p.tb.den, false, byDts);
      var offset := RaisedTo(Find(s.outputPts, lane), p.pts, p.tb.den, true, byGlobal);
      if offset > MAX64 || p.dts as int + offset > MAX64 || p.pts as int + offset > MAX64 then None
      else Some(offset)
  }

  function Retimestamp(p: Packet, offset: i64): Option<Packet> {
    var pts, dts := AddTimestamp(p.pts, offset), AddTimestamp(p.dts, offset);
    if pts.None? || dts.None? then None else Some(p.(pts := pts.value, dts := dts.value))
  }

  predicate RegressesOutput(s: State, p: Packet) {
    s.emitted.Some? && Cmp(p.dts, p.tb.den, s.emitted.value.value, s.emitted.value.tb.den) < 0
  }

  function Note(s: State, p: Packet): Option<State> {
    if !p.tb.Valid() || RegressesOutput(s, p) then None
    else
      var lane := Timeline(p.stream);
      var dts, pts := Horizon(p.dts, p.tb), Horizon(p.pts, p.tb);
      var highest :=
        if lane in s.outputPts && Cmp(p.pts, p.tb.den, s.outputPts[lane].value, s.outputPts[lane].tb.den) <= 0
        then s.outputPts[lane] else pts;
      Some(s.(emitted := Some(dts), outputDts := s.outputDts[lane := dts],
              outputPts := s.outputPts[lane := highest]))
  }

  // ---------------------------------------------------------------------
  // Lanes and generations

  predicate Replaced(stream: StreamKey, candidate: StreamKey) {
    candidate != stream && Timeline(candidate) == Timeline(stream)
  }

  predicate HasOldGeneration(s: State, stream: StreamKey) {
    exists k :: k in s.queues && Replaced(stream, k) && s.queues[k] != []
  }

  function Keep<V>(m: map<StreamKey, V>, stream: StreamKey): map<StreamKey, V> {
    map k | k in m && !Replaced(stream, k) :: m[k]
  }

  function Stay(s: set<StreamKey>, stream: StreamKey): set<StreamKey> {
    set k | k in s && !Replaced(stream, k)
  }

  /** An older generation of the lane gives way; a video lane the return waits for stays awaited. */
  function Awaited(s: set<StreamKey>, stream: StreamKey): set<StreamKey> {
    if stream.kind == Video && exists k :: k in s && Replaced(stream, k) then Stay(s, stream) + {stream}
    else Stay(s, stream)
  }

  function DropReplaced(s: State, stream: StreamKey): State {
    s.(active := Stay(s.active, stream),
       latest := Keep(s.latest, stream), seen := Keep(s.seen, stream), offsets := Keep(s.offsets, stream),
       returnKeys := Keep(s.returnKeys, stream), returnVideo := Awaited(s.returnVideo, stream))
  }

  datatype Checked = Checked(state: State, ok: bool)

  function PrepareStream(c: Config, s: State, stream: StreamKey): Checked {
    if Timeline(stream) !in s.known && |s.known| >= c.maxStreams then
      Checked(EnterError(s, TooManyTimelines), false)
    else
      var s1 := s.(known := s.known + {Timeline(stream)});
      if HasOldGeneration(s1, stream) then Checked(EnterError(s1, GenerationChanged), false)
      else Checked(DropReplaced(s1, stream), true)
  }

  // ---------------------------------------------------------------------
  // Pruning

  predicate Anchor(c: Config, q: Queued) {
    q.packet.stream.kind != Video || !c.requireKeyframe || q.packet.keyframe
  }

  /** Index of the last anchor in the due prefix of length at most n, 0 when there is none. */
  function KeepIndex(c: Config, q: Queue, now: i64, retention: int, n: nat): (i: nat)
    requires n <= |q|
    ensures i <= n && (n > 0 ==> i < n)
  {
    if n == 0 then 0
    else if DuePrefix(q, now, retention, n) && Anchor(c, q[n - 1]) then n - 1
    else KeepIndex(c, q, now, retention, n - 1)
  }

  predicate DuePrefix(q: Queue, now: i64, retention: int, n: nat)
    requires n <= |q|
  {
    forall i :: 0 <= i < n ==> Due(now, q[i].receivedAt, retention)
  }

  function PruneQueue(c: Config, q: Queue, now: i64, retention: int): Queue {
    q[KeepIndex(c, q, now, retention, |q|)..]
  }

  function Retention(c: Config, s: State): int {
    (if s.mode == Filling && s.originDelayed then Max(s.target, s.previousTarget) else s.target) + c.headroom
  }

  function Prune(c: Config, s: State, now: i64): State {
    s.(queues := map k | k in s.queues :: PruneQueue(c, s.queues[k], now, Retention(c, s)))
  }

  // ---------------------------------------------------------------------
  // Enqueueing

  predicate EpochActive(s: State) {
    s.mode == Delayed || s.mode == Returning || (s.mode == Preparing && s.preparingChange)
  }

  ghost predicate OverCapacity(c: Config, s: State, p: Packet) {
    var retained, payload, total := p.retained + c.metadataBytes, PayloadBytes(s) + p.retained,
                                    RetainedBytes(s) + p.retained + c.metadataBytes;
    || retained > SIZE_MAX || payload > SIZE_MAX || total > SIZE_MAX
    || (c.maxPayload != 0 && payload > c.maxPayload)
    || (c.maxRetained != 0 && total > c.maxRetained)
    || Packets(s) >= c.maxPackets
  }

  function NewItem(c: Config, p: Packet, now: i64, sequence: nat): Queued {
    Queued(p, now, sequence, p.retained + c.metadataBytes)
  }

  function Append(c: Config, s: State, p: Packet, now: i64, sequence: nat, dts: Horizon): State {
    var k := p.stream;
    var item := NewItem(c, p, now, sequence);
    var newer := k !in s.latest || Cmp(dts.value, dts.tb.den, s.latest[k].value, s.latest[k].tb.den) > 0;
    s.(queues := s.queues[k := (if k in s.queues then s.queues[k] else []) + [item]],
       latest := s.latest[k := if newer then dts else s.latest[k]],
       seen := s.seen[k := now],
       active := if EpochActive(s) then s.active + {k} else s.active)
  }

  function WithOffset(s: State, p: Packet): Option<State> {
    if !EpochActive(s) || p.stream in s.offsets then Some(s)
    else
      match EpochOffset(s, p, s.target)
      case None => None
      case Some(offset) => Some(s.(offsets := s.offsets[p.stream := offset]))
  }

  /** Gives the lane its epoch offset, makes room and appends. */
  ghost function Place(c: Config, s: State, p: Packet, now: i64, sequence: nat): Checked {
    var based := WithOffset(s, p);
    if based.None? then Checked(EnterError(s, NewStreamOffset), false)
    else
      var dts := Ordering(based.value, p);
      if dts.None? then Checked(EnterError(based.value, OrderingOverflow), false)
      else
        var room := if s.mode == Returning then based.value else Prune(c, based.value, now);
        if OverCapacity(c, room, p) then Checked(EnterError(room, Capacity), false)
        else Checked(Append(c, room, p, now, sequence, dts.value), true)
  }

  ghost function Enqueue(c: Config, s: State, p: Packet, now: i64, sequence: nat): Checked {
    var prepared := PrepareStream(c, s, p.stream);
    if !prepared.ok then prepared
    else if !p.tb.Valid() then Checked(EnterError(prepared.state, InvalidTimeBase), false)
    else Place(c, prepared.state, p, now, sequence)
  }

  // ---------------------------------------------------------------------
  // Cut planning

  predicate Continuous(c: Config, q: Queue, i: nat)
    requires i < |q|
  {
    c.maxGap == 0 || forall j :: i < j < |q| ==> Elapsed(q[j].receivedAt, q[j - 1].receivedAt) <= c.maxGap
  }

  predicate Eligible(c: Config, q: Queue, i: nat, now: i64, target: nat)
    requires i < |q|
  {
    && Due(now, q[i].receivedAt, target)
    && Anchor(c, q[i])
    && (target != 0 ==> Elapsed(q[|q| - 1].receivedAt, q[i].receivedAt) >= target)
    && Continuous(c, q, i)
  }

  /** The newest eligible index below n. */
  function NewestEligible(c: Config, q: Queue, now: i64, target: nat, n: nat): (r: Option<nat>)
    requires n <= |q|
    ensures r.Some? ==> r.value < n && Eligible(c, q, r.value, now, target)
    ensures r.Some? ==> forall i :: r.value < i < n ==> !Eligible(c, q, i, now, target)
    ensures r.None? ==> forall i :: 0 <= i < n ==> !Eligible(c, q, i, now, target)
  {
    if n == 0 then None
    else if Eligible(c, q, n - 1, now, target) then Some(n - 1)
    else NewestEligible(c, q, now, target, n - 1)
  }

  /** Where a lane would be cut: nowhere once it has gone quiet for longer than the allowed gap. */
  function LaneStart(c: Config, q: Queue, now: i64, target: nat): (r: Option<nat>)
    ensures r.Some? ==> r.value < |q|
  {
    if q == [] || (c.maxGap != 0 && Elapsed(now, q[|q| - 1].receivedAt) > c.maxGap) then None
    else NewestEligible(c, q, now, target, |q|)
  }

  predicate PlanReady(c: Config, s: State, now: i64) {
    && s.queues != map[]
    && (forall k :: k in c.required ==> k in s.queues && s.queues[k] != [])
    && (forall k :: k in s.queues && (c.required == {} || k in c.required) ==>
          LaneStart(c, s.queues[k], now, s.target).Some?)
    && (exists k :: k in s.queues && LaneStart(c, s.queues[k], now, s.target).Some?)
  }

  /** First kept sequence number of every lane of the plan. */
  function Plan(c: Config, s: State, now: i64): map<StreamKey, nat> {
    map k | k in s.queues && LaneStart(c, s.queues[k], now, s.target).Some? ::
      s.queues[k][LaneStart(c, s.queues[k], now, s.target).value].sequence
  }

  function ApplyPlan(c: Config, s: State, now: i64): State {
    s.(queues := map k | k in s.queues && LaneStart(c, s.queues[k], now, s.target).Some? ::
                   s.queues[k][LaneStart(c, s.queues[k], now, s.target).value..])
  }

  // ---------------------------------------------------------------------
  // Timestamp epochs

  /** The packets that open an epoch, one for each lane. */
  type Fronts = map<StreamKey, Packet>

  predicate Offsettable(s: State, fronts: Fronts, delay: int) {
    forall k :: k in fronts ==> EpochOffset(s, fronts[k], delay).Some?
  }

  function Shift(s: State, fronts: Fronts, delay: int, k: StreamKey): i64
    requires k in fronts && Offsettable(s, fronts, delay)
  {
    EpochOffset(s, fronts[k], delay).value
  }

  predicate TimeBased(fronts: Fronts) {
    forall k :: k in fronts ==> fronts[k].tb.Valid()
  }

  predicate Widest(s: State, fronts: Fronts, delay: int, k: StreamKey)
    requires Offsettable(s, fronts, delay)
  {
    k in fronts && forall j :: j in fronts ==>
      Le(Shift(s, fronts, delay, j), fronts[j].tb.den, Shift(s, fronts, delay, k), fronts[k].tb.den)
  }

  lemma WidestExists(s: State, fronts: Fronts, delay: int)
    requires fronts != map[] && TimeBased(fronts) && Offsettable(s, fronts, delay)
    ensures exists k :: Widest(s, fronts, delay, k)
  {
    var le := (a, b) => a in fronts && b in fronts && TimeBased(fronts) && Offsettable(s, fronts, delay) &&
                        Le(Shift(s, fronts, delay, b), fronts[b].tb.den, Shift(s, fronts, delay, a), fronts[a].tb.den);
    forall x, y, z | x in fronts.Keys && y in fronts.Keys && z in fronts.Keys && le(x, y) && le(y, z)
      ensures le(x, z)
    {
      LeTransitive(Shift(s, fronts, delay, z), fronts[z].tb.den, Shift(s, fronts, delay, y), fronts[y].tb.den,
                   Shift(s, fronts, delay, x), fronts[x].tb.den);
    }
    var m := Least(fronts.Keys, le);
    assert Widest(s, fronts, delay, m);
  }

  /** Ticks of one lane that reach the widest shift of all lanes. */
  function CommonTicks(h: Horizon, den: int): int {
    if h.tb.den > 0 then LeastTick(h.value, h.tb.den, den, false) else 0
  }

  ghost function CommonShift(s: State, fronts: Fronts, delay: int): Horizon
    requires fronts != map[] && TimeBased(fronts) && Offsettable(s, fronts, delay)
  {
    WidestExists(s, fronts, delay);
    var k :| Widest(s, fronts, delay, k);
    Horizon(Shift(s, fronts, delay, k), fronts[k].tb)
  }

  predicate Shiftable(p: Packet, offset: int) {
    offset <= MAX64 && p.dts as int + offset <= MAX64 && p.pts as int + offset <= MAX64
  }

  /** One offset for each lane, none when some lane cannot be shifted that far. */
  ghost function UnifiedOffsets(s: State, fronts: Fronts, delay: int): Option<map<StreamKey, i64>> {
    if !TimeBased(fronts) || !Offsettable(s, fronts, delay) then None
    else if fronts == map[] then Some(map[])
    else
      var common := CommonShift(s, fronts, delay);
      var ticks := map k | k in fronts :: Max(Shift(s, fronts, delay, k), CommonTicks(common, fronts[k].tb.den));
      if forall k :: k in fronts ==> Shiftable(fronts[k], ticks[k]) then
        Some(map k | k in fronts :: ticks[k])
      else None
  }

  function QueueFronts(queues: Queues): Fronts {
    map k | k in queues && queues[k] != [] :: queues[k][0].packet
  }

  ghost function BeginEpoch(s: State): Option<State> {
    match UnifiedOffsets(s, QueueFronts(s.queues), s.target)
    case None => None
    case Some(offsets) =>
      var s1 := s.(offsets := offsets);
      var backs := map k | k in s.queues && s.queues[k] != [] :: Ordering(s1, s.queues[k][|s.queues[k]| - 1].packet);
      if exists k :: k in backs && backs[k].None? then None
      else Some(s1.(latest := map k | k in backs :: backs[k].value))
  }
}
