/** Draining, the return to live, and the public operations of the packet delay, as functions on values that
    the class is proved against and that the lemmas about runs are about. */
module PacketDelayStep {
  import opened Options
  import opened Timestamps
  import opened PacketTypes
  import opened PacketDelaySpec

  // ---------------------------------------------------------------------
  // Which packet leaves next

  predicate DueFront(s: State, now: i64, k: StreamKey) {
    k in s.queues && s.queues[k] != [] && Due(now, s.queues[k][0].receivedAt, s.target)
  }

  predicate Ordered(s: State, now: i64) {
    forall k :: k in s.queues && DueFront(s, now, k) ==> Ordering(s, s.queues[k][0].packet).Some?
  }

  /** Earlier shifted DTS, arrival order on ties. */
  predicate Precedes(s: State, a: Queued, b: Queued) {
    var x, y := Ordering(s, a.packet), Ordering(s, b.packet);
    x.Some? && y.Some? &&
    var order := Cmp(x.value.value, x.value.tb.den, y.value.value, y.value.tb.den);
    order < 0 || (order == 0 && a.sequence <= b.sequence)
  }

  predicate Next(s: State, now: i64, k: StreamKey) {
    DueFront(s, now, k) && forall j :: j in s.queues && DueFront(s, now, j) ==>
      Precedes(s, s.queues[k][0], s.queues[j][0])
  }

  lemma PrecedesTransitive(s: State, a: Queued, b: Queued, c: Queued)
    requires Precedes(s, a, b) && Precedes(s, b, c)
    ensures Precedes(s, a, c)
  {
    var x, y, z := Ordering(s, a.packet).value, Ordering(s, b.packet).value, Ordering(s, c.packet).value;
    LeTransitive(x.value, x.tb.den, y.value, y.tb.den, z.value, z.tb.den);
  }

  lemma PrecedesTotal(s: State, a: Queued, b: Queued)
    requires Ordering(s, a.packet).Some? && Ordering(s, b.packet).Some?
    ensures Precedes(s, a, b) || Precedes(s, b, a)
  {
  }

  predicate FrontPrecedes(s: State, now: i64, a: StreamKey, b: StreamKey) {
    DueFront(s, now, a) && DueFront(s, now, b) && Precedes(s, s.queues[a][0], s.queues[b][0])
  }

  lemma FrontsTotal(s: State, now: i64, a: StreamKey, b: StreamKey)
    requires Ordered(s, now) && DueFront(s, now, a) && DueFront(s, now, b)
    ensures FrontPrecedes(s, now, a, b) || FrontPrecedes(s, now, b, a)
  {
    PrecedesTotal(s, s.queues[a][0], s.queues[b][0]);
  }

  lemma FrontsTransitive(s: State, now: i64, a: StreamKey, b: StreamKey, c: StreamKey)
    requires FrontPrecedes(s, now, a, b) && FrontPrecedes(s, now, b, c)
    ensures FrontPrecedes(s, now, a, c)
  {
    PrecedesTransitive(s, s.queues[a][0], s.queues[b][0], s.queues[c][0]);
  }

  lemma {:induction false} FirstOf(s: State, now: i64, lanes: set<StreamKey>) returns (m: StreamKey)
    requires Ordered(s, now) && lanes != {} && forall k :: k in lanes ==> DueFront(s, now, k)
    ensures m in lanes && forall k :: k in lanes ==> FrontPrecedes(s, now, m, k)
  {
    var a :| a in lanes;
    m := a;
    FrontsTotal(s, now, a, a);
    if lanes != {a} {
      var other := FirstOf(s, now, lanes - {a});
      FrontsTotal(s, now, a, other);
      if FrontPrecedes(s, now, a, other) {
        forall k | k in lanes && k != a ensures FrontPrecedes(s, now, a, k) {
          FrontsTransitive(s, now, a, other, k);
        }
      } else {
        m := other;
      }
    }
  }

  lemma NextExists(s: State, now: i64)
    requires Ordered(s, now) && exists k :: k in s.queues && DueFront(s, now, k)
    ensures exists k :: Next(s, now, k)
  {
    var fronts := set k | k in s.queues && DueFront(s, now, k);
    var some :| some in s.queues && DueFront(s, now, some);
    assert some in fronts;
    var m := FirstOf(s, now, fronts);
    forall j | j in s.queues && DueFront(s, now, j) ensures Precedes(s, s.queues[m][0], s.queues[j][0]) {
      assert j in fronts;
      assert FrontPrecedes(s, now, m, j);
    }
    assert Next(s, now, m);
  }

  ghost function NextLane(s: State, now: i64): (k: StreamKey)
    requires Ordered(s, now) && exists k :: k in s.queues && DueFront(s, now, k)
    ensures Next(s, now, k)
  {
    NextExists(s, now);
    var k :| Next(s, now, k);
    k
  }

  // ---------------------------------------------------------------------
  // Gates of the transaction back to live

  predicate ReturnReady(c: Config, s: State, now: i64) {
    s.returnCommitted || forall k :: k in s.returnVideo ==> k in s.returnKeys || Stalled(c, s, k, now)
  }

  /** A recorded return keyframe that is still buffered at index i of its lane. */
  predicate KeyAt(s: State, k: StreamKey, i: nat) {
    && k in s.returnKeys && k in s.queues && i < |s.queues[k]|
    && s.queues[k][i].sequence == s.returnKeys[k]
    && forall j :: 0 <= j < i ==> s.queues[k][j].sequence != s.returnKeys[k]
  }

  ghost predicate CutTime(s: State, at: i64) {
    && (exists k, i: nat :: KeyAt(s, k, i) && s.queues[k][i].receivedAt == at)
    && (forall k, i: nat :: KeyAt(s, k, i) ==> at <= s.queues[k][i].receivedAt)
  }

  /** Arrival of the oldest return keyframe still buffered, else of the request itself. */
  ghost function LiveCut(s: State): Option<i64> {
    if exists at :: CutTime(s, at) then
      var at :| CutTime(s, at);
      Some(at)
    else s.returnRequested
  }

  ghost predicate GateStops(c: Config, s: State, now: i64, k: StreamKey)
    requires k in s.queues && s.queues[k] != []
  {
    var front := s.queues[k][0];
    && s.mode == Returning && !s.returnCommitted
    && (|| (!c.requireKeyframe && s.returnRequested.Some? && front.receivedAt >= s.returnRequested.value)
        || (k.kind == Video && k in s.returnKeys && front.sequence >= s.returnKeys[k] && ReturnReady(c, s, now))
        || (k.kind == Audio && ReturnReady(c, s, now) && LiveCut(s).Some? && front.receivedAt >= LiveCut(s).value))
  }

  /** A keyframe that is reached before every lane is ready stops being the lane's cut. */
  function GateErases(s: State, k: StreamKey): State
    requires k in s.queues && s.queues[k] != []
  {
    if s.mode == Returning && !s.returnCommitted && k.kind == Video && k in s.returnKeys &&
       s.queues[k][0].sequence >= s.returnKeys[k]
    then s.(returnKeys := s.returnKeys - {k})
    else s
  }

  // ---------------------------------------------------------------------
  // The interleave watermark

  predicate Watching(c: Config, s: State, now: i64, k: StreamKey) {
    k in s.active && !Stalled(c, s, k, now)
  }

  /** Some watched lane has not yet delivered anything at or past the guarded candidate. */
  predicate Behind(c: Config, s: State, now: i64, guarded: int, den: int) {
    exists k :: k in s.active && Watching(c, s, now, k) && k in s.latest &&
      Cmp(guarded, den, s.latest[k].value, s.latest[k].tb.den) > 0
  }

  datatype Guard = Pass | Hold | Unrepresentable

  function Watermark(c: Config, s: State, now: i64, dts: Horizon): Guard {
    if forall k :: k in s.active ==> !Watching(c, s, now, k) then Pass
    else
      var ticks := DurationTicksCeil(c.reorderWindow, dts.tb);
      if ticks.None? then Unrepresentable
      else
        var guarded := AddTimestamp(dts.value, ticks.value);
        if guarded.None? then Unrepresentable
        else if Behind(c, s, now, guarded.value, dts.tb.den) then Hold else Pass
  }

  // ---------------------------------------------------------------------
  // Draining

  datatype Drained = Drained(state: State, out: seq<Output>)

  function PopFront(s: State, k: StreamKey): State
    requires k in s.queues && s.queues[k] != []
  {
    var rest := s.queues[k][1..];
    s.(queues := if rest == [] then s.queues - {k} else s.queues[k := rest])
  }

  /** Shifts and records one packet that leaves the buffer. */
  function Emit(s: State, item: Queued, now: i64, delayed: bool, onOverflow: Fault, onRegress: Fault): Drained {
    if item.packet.stream !in s.offsets then Drained(EnterError(s, onOverflow), [])
    else
      var shifted := Retimestamp(item.packet, s.offsets[item.packet.stream]);
      if shifted.None? then Drained(EnterError(s, onOverflow), [])
      else
        var noted := Note(s, shifted.value);
        if noted.None? then Drained(EnterError(s, onRegress), [])
        else Drained(noted.value, [Output(shifted.value, item.receivedAt, now, item.sequence, delayed)])
  }

  /** What happens to the lane whose front leaves next. */
  ghost function DrainLane(c: Config, s: State, now: i64, k: StreamKey): Drained
    requires k in s.queues && s.queues[k] != [] && Ordering(s, s.queues[k][0].packet).Some?
  {
    if GateStops(c, s, now, k) then Drained(s, [])
    else
      var s1 := GateErases(s, k);
      match Watermark(c, s1, now, Ordering(s, s.queues[k][0].packet).value)
      case Unrepresentable => Drained(EnterError(s1, ReorderWindow), [])
      case Hold => Drained(s1, [])
      case Pass => Emit(PopFront(s1, k), s.queues[k][0], now, true, RetimestampOverflow, LatePacket)
  }

  ghost function DrainOnce(c: Config, s: State, now: i64): Drained {
    if exists k :: k in s.active && Watching(c, s, now, k) && k !in s.latest then Drained(s, [])
    else if forall k :: k in s.queues ==> !DueFront(s, now, k) then Drained(s, [])
    else if !Ordered(s, now) then Drained(EnterError(s, InvalidQueuedTimeBase), [])
    else DrainLane(c, s, now, NextLane(s, now))
  }

  /** At most fuel packets; the number of buffered packets is enough fuel. */
  ghost function DrainUpTo(c: Config, s: State, now: i64, fuel: nat): Drained
    decreases fuel
  {
    if fuel == 0 then Drained(s, [])
    else
      var one := DrainOnce(c, s, now);
      if one.out == [] then one
      else
        var rest := DrainUpTo(c, one.state, now, fuel - 1);
        Drained(rest.state, one.out + rest.out)
  }

  ghost function Drain(c: Config, s: State, now: i64): Drained {
    DrainUpTo(c, s, now, Packets(s) + 1)
  }

  function DrainPending(s: State, now: i64): Drained
    decreases |s.pending|
  {
    if s.pending == [] then Drained(s, [])
    else
      var one := Emit(s.(pending := s.pending[1..]), s.pending[0], now, false, ReturnRegression, ReturnRegression);
      if one.out == [] then one
      else
        var rest := DrainPending(one.state, now);
        Drained(rest.state, one.out + rest.out)
  }

  // ---------------------------------------------------------------------
  // Building the pending return

  predicate Kept(c: Config, s: State, cut: Option<i64>, k: StreamKey, item: Queued) {
    if k.kind == Video then
      if c.requireKeyframe then k in s.returnKeys && item.sequence >= s.returnKeys[k]
      else cut.Some? && item.receivedAt >= cut.value
    else cut.Some? && item.receivedAt >= cut.value
  }

  /** Index of the first kept packet of a lane, its length when nothing is kept. */
  function KeptFrom(c: Config, s: State, cut: Option<i64>, k: StreamKey, q: Queue): (i: nat)
    ensures i <= |q|
    ensures i < |q| ==> Kept(c, s, cut, k, q[i])
    ensures forall j :: 0 <= j < i ==> !Kept(c, s, cut, k, q[j])
  {
    if q == [] || Kept(c, s, cut, k, q[0]) then 0 else 1 + KeptFrom(c, s, cut, k, q[1..])
  }

  function KeptQueues(c: Config, s: State, cut: Option<i64>): Queues {
    map k | k in s.queues && KeptFrom(c, s, cut, k, s.queues[k]) < |s.queues[k]| ::
      s.queues[k][KeptFrom(c, s, cut, k, s.queues[k])..]
  }

  predicate InLane(m: Queues, item: Queued) {
    exists k :: k in m && item in m[k]
  }

  predicate Strictly(s: State, a: Queued, b: Queued) {
    Precedes(s, a, b) && !Precedes(s, b, a)
  }

  predicate Sorted(s: State, q: Queue) {
    forall i, j :: 0 <= i < j < |q| ==> Strictly(s, q[i], q[j])
  }

  /** All packets of the lanes in one sequence ordered by shifted DTS and arrival. */
  predicate Merges(s: State, m: Queues, q: Queue) {
    && Sorted(s, q)
    && (forall item :: item in q ==> InLane(m, item))
    && (forall k, item :: k in m && item in m[k] ==> item in q)
  }

  predicate AllOrdered(s: State, m: Queues) {
    forall k, i :: k in m && 0 <= i < |m[k]| ==> Ordering(s, m[k][i].packet).Some?
  }

  ghost function Merge(s: State, m: Queues): Queue {
    if exists q :: Merges(s, m, q) then
      var q :| Merges(s, m, q);
      q
    else []
  }

  ghost function BuildPending(c: Config, s: State): Option<State> {
    var kept := KeptQueues(c, s, LiveCut(s));
    match UnifiedOffsets(s, QueueFronts(kept), 0)
    case None => None
    case Some(offsets) =>
      var s1 := s.(offsets := offsets);
      if !AllOrdered(s1, kept) then None
      else Some(s1.(queues := map[], pending := Merge(s1, kept), active := {}, latest := map[], seen := map[]))
  }

  // ---------------------------------------------------------------------
  // Packets that bypass the buffer

  datatype Live = Live(state: State, packet: Packet, ok: bool)

  function RetimestampLive(c: Config, s: State, p: Packet): Live {
    var prepared := PrepareStream(c, s, p.stream);
    if prepared.ok then LiveFrom(prepared.state, p) else Live(prepared.state, p, false)
  }

  function LiveFrom(s: State, p: Packet): Live {
    var offset := if p.stream in s.offsets then Some(s.offsets[p.stream]) else EpochOffset(s, p, 0);
    if offset.None? then Live(s, p, false)
    else
      var s1 := s.(offsets := s.offsets[p.stream := offset.value]);
      var shifted := Retimestamp(p, offset.value);
      if shifted.None? then Live(s1, p, false)
      else
        var noted := Note(s1, shifted.value);
        if noted.None? then Live(s1, shifted.value, false) else Live(noted.value, shifted.value, true)
  }

  function Bypassed(c: Config, s: State, p: Packet, now: i64, sequence: nat, fault: Fault): Drained {
    var live := RetimestampLive(c, s, p);
    Drained(if live.ok then live.state else EnterError(live.state, fault),
            [Output(live.packet, now, now, sequence, false)])
  }

  // ---------------------------------------------------------------------
  // Public operations

  datatype Op =
    | Activate(delay: int, now: i64)
    | BeginFilling(now: i64)
    | ChangeDelay(delay: int, now: i64)
    | CommitDelayed(now: i64, leftover: map<StreamKey, i64>)
    | Cancel(now: i64)
    | Deactivate(now: i64)
    | CommitReturn(now: i64, leftover: map<StreamKey, i64>)
    | FinishReturn(now: i64)
    | ReportError
    | Recover(now: i64)
    | Push(packet: Packet, now: i64)
    | Poll(now: i64)
    | PruneNow(now: i64)
    | External(packet: Packet)

  predicate ValidDelay(c: Config, delay: int) {
    0 <= delay <= c.maxDelay
  }

  function DoActivate(c: Config, s0: State, delay: int, now: i64): State {
    var s := Observe(s0, now);
    if Regresses(s0, now) || !ValidDelay(c, delay) || s.mode != Bypass then s
    else ClearAll(s).(target := delay, pendingTarget := delay, previousTarget := 0, fault := None, mode := Preparing)
  }

  function DoBeginFilling(s0: State, now: i64): State {
    var s := Observe(s0, now);
    if Regresses(s0, now) || s.mode != Preparing then s
    else if s.preparingChange then s.(target := s.pendingTarget, preparingChange := false, mode := Filling)
    else ClearQueues(s).(target := s.pendingTarget, originDelayed := false, mode := Filling)
  }

  function ReportedTarget(s: State): nat {
    if s.mode == Preparing && s.preparingChange then s.pendingTarget else s.target
  }

  /** A new target for a transaction under way; Delayed goes back to Preparing. */
  function Retarget(s: State, delay: nat): State {
    match s.mode
    case Preparing =>
      if delay == ReportedTarget(s) then s
      else s.(pendingTarget := delay, target := if s.preparingChange then s.target else delay)
    case Filling =>
      if delay == s.target then s
      else s.(previousTarget := if s.originDelayed then s.previousTarget else s.target,
              target := delay, pendingTarget := delay)
    case Delayed =>
      if delay == s.target then s
      else s.(previousTarget := s.target, pendingTarget := delay, preparingChange := true,
              originDelayed := true, mode := Preparing)
    case _ => s
  }

  function DoChangeDelay(c: Config, s0: State, delay: int, now: i64): State {
    var s := Observe(s0, now);
    if Regresses(s0, now) || !ValidDelay(c, delay) then s
    else if s.mode == Bypass then ClearAll(s).(target := delay, pendingTarget := delay, mode := Preparing)
    else Retarget(s, delay)
  }

  ghost function DoCommitDelayed(c: Config, s0: State, now: i64, leftover: map<StreamKey, i64>): State {
    var s := Observe(s0, now);
    if Regresses(s0, now) || s.mode != Filling || !PlanReady(c, s, now) then s
    else
      var cut := ApplyPlan(c, s, now);
      match BeginEpoch(cut)
      case None => EnterError(cut.(offsets := leftover), DelayedEpoch)
      case Some(s1) =>
        s1.(active := c.required + s1.queues.Keys, preparingChange := false, originDelayed := false,
            pendingTarget := s1.target, mode := Delayed)
  }

  /** The video lanes the return must find a keyframe on. */
  function ReturnLanes(c: Config, s: State): set<StreamKey> {
    set k | k in (if s.active != {} then s.active else s.queues.Keys) && k.kind == Video && c.requireKeyframe
  }

  function StartReturn(c: Config, s: State, fromDelayed: bool, now: i64): State {
    s.(mode := Returning, returnFromDelayed := fromDelayed, returnCommitted := false, returnRequested := Some(now),
       returnKeys := map[], returnVideo := ReturnLanes(c, s),
       preparingChange := false, originDelayed := false)
  }

  /** A retarget that was not committed is forgotten; a first activation is returned from. */
  function Cancelled(c: Config, s: State, now: i64): State {
    if s.mode == Preparing && s.preparingChange then
      s.(pendingTarget := s.target, preparingChange := false, originDelayed := false, mode := Delayed)
    else if s.mode == Filling && s.originDelayed then
      s.(target := s.previousTarget, pendingTarget := s.previousTarget, preparingChange := false,
         originDelayed := false, mode := Delayed)
    else if s.mode == Preparing || s.mode == Filling then StartReturn(c, s, s.originDelayed, now)
    else s
  }

  function DoCancel(c: Config, s0: State, now: i64): State {
    var s := Observe(s0, now);
    if Regresses(s0, now) then s else Cancelled(c, s, now)
  }

  function DoDeactivate(c: Config, s0: State, now: i64): State {
    var s := Observe(s0, now);
    if Regresses(s0, now) || s.mode == Bypass || s.mode == Returning || s.mode == Failed then s
    else StartReturn(c, s, s.mode == Delayed || (s.mode == Preparing && s.preparingChange) || s.originDelayed, now)
  }

  ghost function DoCommitReturn(c: Config, s0: State, now: i64, leftover: map<StreamKey, i64>): State {
    var s := Observe(s0, now);
    if Regresses(s0, now) || s.mode != Returning || s.returnCommitted || !ReturnReady(c, s, now) then s
    else
      match BuildPending(c, s)
      case None => EnterError(s.(offsets := leftover), LiveEpoch)
      case Some(s1) => s1.(returnCommitted := true, returnFromDelayed := false)
  }

  function DoFinishReturn(s0: State, now: i64): State {
    var s := Observe(s0, now);
    if Regresses(s0, now) || s.mode != Returning || !s.returnCommitted || s.pending != [] then s
    else ClearAll(s).(target := 0, pendingTarget := 0, previousTarget := 0, mode := Bypass)
  }

  function DoRecover(s0: State, now: i64): State {
    var s := Observe(s0, now);
    if Regresses(s0, now) || s.mode != Failed then s
    else ClearAll(s).(target := 0, pendingTarget := 0, previousTarget := 0, fault := None, mode := Bypass)
  }

  /** Records a keyframe that arrives while returning as the newest cut of its lane. */
  function ObserveReturnKey(c: Config, s: State, item: Queued): State {
    if item.packet.stream.kind != Video || !c.requireKeyframe || s.returnRequested.None? ||
       item.receivedAt < s.returnRequested.value || !item.packet.keyframe
    then s
    else s.(returnKeys := s.returnKeys[item.packet.stream := item.sequence])
  }

  ghost function PushBuffered(c: Config, s: State, p: Packet, now: i64, sequence: nat): Drained {
    var queued := Enqueue(c, s, p, now, sequence);
    if !queued.ok then Bypassed(c, queued.state, p, now, sequence, FailOpenTimestamps)
    else if s.mode == Preparing then Drain(c, Prune(c, queued.state, now), now)
    else if s.mode == Filling then Drained(Prune(c, queued.state, now), [])
    else if s.mode == Delayed then DrainAndPrune(c, queued.state, now)
    else
      var observed := ObserveReturnKey(c, queued.state, NewItem(c, p, now, sequence));
      if s.returnFromDelayed then Drain(c, observed, now) else Drained(observed, [])
  }

  function PushCommitted(c: Config, s: State, p: Packet, now: i64, sequence: nat): Drained {
    var drained := DrainPending(s, now);
    var live := Bypassed(c, drained.state, p, now, sequence, LiveTimestamps);
    Drained(live.state, drained.out + live.out)
  }

  predicate PassesLive(s: State) {
    s.mode == Bypass || s.mode == Failed || (s.mode == Preparing && !s.preparingChange)
  }

  ghost function DoPush(c: Config, s0: State, p: Packet, now: i64, sequence: nat): Drained {
    var s := Observe(s0, now);
    if Regresses(s0, now) then
      var live := RetimestampLive(c, s, p);
      Drained(live.state, [Output(live.packet, now, now, sequence, false)])
    else if PassesLive(s) then Bypassed(c, s, p, now, sequence, FailOpenTimestamps)
    else if s.mode == Returning && s.returnCommitted then PushCommitted(c, s, p, now, sequence)
    else PushBuffered(c, s, p, now, sequence)
  }

  ghost function DrainAndPrune(c: Config, s: State, now: i64): Drained {
    var drained := Drain(c, s, now);
    if drained.state.mode == Delayed then Drained(Prune(c, drained.state, now), drained.out) else drained
  }

  ghost function DoPoll(c: Config, s0: State, now: i64): Drained {
    var s := Observe(s0, now);
    if Regresses(s0, now) then Drained(s, [])
    else
      match s.mode
      case Preparing => if s.preparingChange then Drain(c, s, now) else Drained(s, [])
      case Filling => Drained(Prune(c, s, now), [])
      case Delayed => DrainAndPrune(c, s, now)
      case Returning =>
        if s.returnCommitted then DrainPending(s, now)
        else if s.returnFromDelayed then Drain(c, s, now)
        else Drained(s, [])
      case _ => Drained(s, [])
  }

  function DoExternal(c: Config, s: State, p: Packet): State {
    var lane := Timeline(p.stream);
    if lane !in s.known && |s.known| >= c.maxStreams then EnterError(s, TooManyTimelines)
    else
      var s1 := s.(known := s.known + {lane});
      match Note(s1, p)
      case Some(noted) => noted
      case None => EnterError(s1, ExternalOutput)
  }

  /** One public call; sequence is the number the next pushed packet gets. */
  ghost function Step(c: Config, s: State, op: Op, sequence: nat): Drained {
    match op
    case Activate(delay, now) => Drained(DoActivate(c, s, delay, now), [])
    case BeginFilling(now) => Drained(DoBeginFilling(s, now), [])
    case ChangeDelay(delay, now) => Drained(DoChangeDelay(c, s, delay, now), [])
    case CommitDelayed(now, leftover) => Drained(DoCommitDelayed(c, s, now, leftover), [])
    case Cancel(now) => Drained(DoCancel(c, s, now), [])
    case Deactivate(now) => Drained(DoDeactivate(c, s, now), [])
    case CommitReturn(now, leftover) => Drained(DoCommitReturn(c, s, now, leftover), [])
    case FinishReturn(now) => Drained(DoFinishReturn(s, now), [])
    case ReportError => Drained(EnterError(s, Reported), [])
    case Recover(now) => Drained(DoRecover(s, now), [])
    case Push(p, now) => DoPush(c, s, p, now, sequence)
    case Poll(now) => DoPoll(c, s, now)
    case PruneNow(now) => Drained(if Regresses(s, now) then Observe(s, now) else Prune(c, Observe(s, now), now), [])
    case External(p) => Drained(DoExternal(c, s, p), [])
  }
}
