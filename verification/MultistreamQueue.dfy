/** The queue before one destination. */
module Multistream {
  // An epoch starts on a keyframe, and any overflow or stale packet drops everything back to waiting for the
  // next one.

  import opened Options

  const I64_MAX: int := 0x7fff_ffff_ffff_ffff
  const I64_MIN: int := -0x8000_0000_0000_0000
  const U64_SPAN: int := 0x1_0000_0000_0000_0000
  const INT_MAX: int := 0x7fff_ffff

  type i64 = x: int | I64_MIN <= x <= I64_MAX

  /** An encoded packet shared by all destinations; size zero stands for missing or empty data. */
  datatype Packet = Packet(id: nat, video: bool, keyframe: bool, dts: i64, pts: i64, size: nat)

  datatype Entry = Entry(packet: Packet, enqueued: nat)

  datatype Limits = Limits(bytes: nat, packets: nat, duration: nat)

  datatype PushResult = Accepted | WaitingForKeyframe | BeforeEpoch | Overflow | Invalid

  datatype State = State(packets: seq<Entry>, bytes: nat, waiting: bool, epoch: i64)

  const EMPTY := State([], 0, true, 0)

  /** Difference through unsigned arithmetic, as the 64-bit subtraction wraps. */
  function MediaDistance(newer: i64, older: i64): nat {
    if newer <= older then 0 else Unsigned(newer, older)
  }

  function Unsigned(a: i64, b: i64): nat { (a as int - b as int) % U64_SPAN }

  predicate Stale(limits: Limits, front: Entry, now: nat) {
    now < front.enqueued || now - front.enqueued > limits.duration
  }

  predicate Overflows(limits: Limits, s: State, p: Packet, now: nat) {
    || p.size > limits.bytes - (if s.bytes <= limits.bytes then s.bytes else limits.bytes)
    || |s.packets| >= limits.packets
    || (s.packets != [] && (Stale(limits, s.packets[0], now) ||
                            MediaDistance(p.dts, s.packets[0].packet.dts) > limits.duration))
  }

  datatype Pushed = Pushed(state: State, result: PushResult)

  function AfterPush(limits: Limits, s: State, p: Packet, now: nat): Pushed {
    if p.size == 0 then Pushed(s, Invalid)
    else if s.waiting && (!p.video || !p.keyframe) then Pushed(s, WaitingForKeyframe)
    else if !s.waiting && p.dts < s.epoch then Pushed(s, BeforeEpoch)
    else if Overflows(limits, s, p, now) then Pushed(EMPTY, Overflow)
    else
      Pushed(State(s.packets + [Entry(p, now)], s.bytes + p.size, false, if s.waiting then p.dts else s.epoch), Accepted)
  }

  datatype Popped = Popped(state: State, entry: Option<Entry>)

  function AfterPop(limits: Limits, s: State, now: nat): Popped {
    if s.packets == [] then Popped(s, None)
    else if Stale(limits, s.packets[0], now) then Popped(EMPTY, None)
    else
      Popped(s.(packets := s.packets[1..],
                bytes := if s.bytes >= s.packets[0].packet.size then s.bytes - s.packets[0].packet.size else 0),
             Some(s.packets[0]))
  }

  function Bytes(q: seq<Entry>): nat {
    if q == [] then 0 else q[0].packet.size + Bytes(q[1..])
  }

  lemma {:induction false} BytesSnoc(q: seq<Entry>, e: Entry)
    ensures Bytes(q + [e]) == Bytes(q) + e.packet.size
  {
    if q == [] {
      assert q + [e] == [e];
    } else {
      assert (q + [e])[1..] == q[1..] + [e];
      BytesSnoc(q[1..], e);
    }
  }

  // ---------------------------------------------------------------------
  // What the sender does with a packet and the epoch it was popped under

  datatype Sent = Sent(dts: i64, pts: i64)

  function Send(p: Packet, epoch: i64): Option<Sent> {
    if p.size > INT_MAX || p.dts < epoch || p.pts < epoch then None
    else
      var dts, pts := Unsigned(p.dts, epoch), Unsigned(p.pts, epoch);
      if dts > I64_MAX || pts > I64_MAX then None else Some(Sent(dts, pts))
  }

  /** A packet is sent exactly when it is no older than the epoch and the true differences fit, and then with them. */
  lemma SendsDifference(p: Packet, epoch: i64)
    ensures var r := Send(p, epoch); var dts, pts := p.dts as int - epoch as int, p.pts as int - epoch as int;
            && (r.Some? <==> p.size <= INT_MAX && 0 <= dts <= I64_MAX && 0 <= pts <= I64_MAX)
            && (r.Some? ==> r.value.dts as int == dts && r.value.pts as int == pts)
  {
  }

  // ---------------------------------------------------------------------
  // Runs

  datatype Op = PushOp(packet: Packet, now: nat) | PopOp(now: nat) | ResetOp

  /** A packet handed to the sender, when, and under which epoch. */
  datatype Delivery = Delivery(entry: Entry, at: nat, epoch: i64)

  /** The queue with everything accepted and delivered since it was last empty and waiting. */
  datatype Run = Run(state: State, accepted: seq<Entry>, delivered: seq<Delivery>)

  function Played(limits: Limits, r: Run, op: Op): Run {
    match op
    case ResetOp => Run(EMPTY, [], [])
    case PushOp(p, now) =>
      var pushed := AfterPush(limits, r.state, p, now);
      if pushed.result == Overflow then Run(pushed.state, [], [])
      else Run(pushed.state, r.accepted + (if pushed.result == Accepted then [Entry(p, now)] else []), r.delivered)
    case PopOp(now) =>
      var popped := AfterPop(limits, r.state, now);
      if popped.entry.Some? then Run(popped.state, r.accepted, r.delivered + [Delivery(popped.entry.value, now, r.state.epoch)])
      else if r.state.packets == [] then r
      else Run(popped.state, [], [])
  }

  function Play(limits: Limits, ops: seq<Op>): Run {
    if ops == [] then Run(EMPTY, [], []) else Played(limits, Play(limits, ops[..|ops| - 1]), ops[|ops| - 1])
  }

  function Entries(d: seq<Delivery>): seq<Entry> { seq(|d|, i requires 0 <= i < |d| => d[i].entry) }

  /** One epoch: it opens on a video keyframe at its own DTS and contains nothing before it. */
  predicate Epoch(s: State, accepted: seq<Entry>) {
    && (s.waiting <==> accepted == [])
    && (accepted != [] ==>
          accepted[0].packet.video && accepted[0].packet.keyframe && accepted[0].packet.dts == s.epoch)
    && (forall i :: 0 <= i < |accepted| ==> accepted[i].packet.dts >= s.epoch && accepted[i].packet.size > 0)
  }

  predicate Timely(limits: Limits, d: Delivery) {
    d.entry.enqueued <= d.at && d.at - d.entry.enqueued <= limits.duration
  }

  predicate Kept(limits: Limits, r: Run) {
    && r.state.bytes == Bytes(r.state.packets) <= limits.bytes
    && |r.state.packets| <= limits.packets
    && Epoch(r.state, r.accepted)
    && r.accepted == Entries(r.delivered) + r.state.packets
    && (forall i :: 0 <= i < |r.delivered| ==> Timely(limits, r.delivered[i]) && r.delivered[i].epoch == r.state.epoch)
  }

  lemma PushKept(limits: Limits, r: Run, p: Packet, now: nat)
    requires Kept(limits, r)
    ensures Kept(limits, Played(limits, r, PushOp(p, now)))
  {
    BytesSnoc(r.state.packets, Entry(p, now));
    assert Entries(r.delivered) + r.state.packets + [Entry(p, now)] == Entries(r.delivered) + (r.state.packets + [Entry(p, now)]);
    assert Entries([]) == [];
    assert r.accepted + [] == r.accepted;
  }

  lemma PopKept(limits: Limits, r: Run, now: nat)
    requires Kept(limits, r)
    ensures Kept(limits, Played(limits, r, PopOp(now)))
  {
    var after := Played(limits, r, PopOp(now));
    assert Entries([]) == [];
    if AfterPop(limits, r.state, now).entry.Some? {
      var front := r.state.packets[0];
      assert Entries(after.delivered) == Entries(r.delivered) + [front];
      assert r.state.packets == [front] + r.state.packets[1..];
    }
  }

  /** Over every run of pushes, pops and resets. */
  lemma {:induction false} EveryRunKept(limits: Limits, ops: seq<Op>)
    ensures Kept(limits, Play(limits, ops))
  {
    hide Kept;
    if ops == [] {
      StartKept(limits);
    } else {
      EveryRunKept(limits, ops[..|ops| - 1]);
      var before := Play(limits, ops[..|ops| - 1]);
      match ops[|ops| - 1] {
        case PushOp(p, now) => PushKept(limits, before, p, now);
        case PopOp(now) => PopKept(limits, before, now);
        case ResetOp => StartKept(limits);
      }
    }
  }

  lemma StartKept(limits: Limits)
    ensures Kept(limits, Run(EMPTY, [], []))
  {
    assert Entries([]) == [];
  }

  /** What the destination gets: a prefix of the epoch's packets, from its keyframe on, in time, with a
      DTS delta that is never negative. */
  lemma EveryDelivery(limits: Limits, ops: seq<Op>, i: nat)
    requires i < |Play(limits, ops).delivered|
    ensures var r := Play(limits, ops); var d := r.delivered[i];
            && i < |r.accepted| && d.entry == r.accepted[i] && Timely(limits, d)
            && (i == 0 ==> d.entry.packet.video && d.entry.packet.keyframe && d.entry.packet.dts == d.epoch)
            && d.entry.packet.dts >= d.epoch
            && Unsigned(d.entry.packet.dts, d.epoch) == d.entry.packet.dts as int - d.epoch as int
  {
    hide Play;
    EveryRunKept(limits, ops);
    var r := Play(limits, ops);
    assert Entries(r.delivered)[i] == r.accepted[i];
  }

  // ---------------------------------------------------------------------
  // Every answer, on the packets accepted and still queued

  /** The oldest queued packet has waited no longer than allowed, on a clock that did not go back. */
  predicate InTime(limits: Limits, oldest: Entry, now: nat) {
    oldest.enqueued <= now <= oldest.enqueued + limits.duration
  }

  /** The packet fits the byte, count, waiting time and media span limits. */
  predicate Within(limits: Limits, q: seq<Entry>, p: Packet, now: nat) {
    && Bytes(q) + p.size <= limits.bytes
    && |q| < limits.packets
    && (q != [] ==> InTime(limits, q[0], now) && p.dts as int - q[0].packet.dts as int <= limits.duration)
  }

  /** What a packet with data is answered: it waits for a keyframe until one was accepted, must not be older than that
      keyframe, and is then accepted or refused by the limits alone. */
  function Answer(limits: Limits, accepted: seq<Entry>, queued: seq<Entry>, p: Packet, now: nat): PushResult {
    if accepted == [] && !(p.video && p.keyframe) then WaitingForKeyframe
    else if accepted != [] && p.dts < accepted[0].packet.dts then BeforeEpoch
    else if Within(limits, queued, p, now) then Accepted
    else Overflow
  }

  lemma WithinOverflows(limits: Limits, s: State, p: Packet, now: nat)
    requires s.bytes == Bytes(s.packets) <= limits.bytes
    ensures Overflows(limits, s, p, now) <==> !Within(limits, s.packets, p, now)
  {
  }

  /** Over every run: a packet within all limits is accepted and queued last, one beyond any of them empties the
      queue back to waiting for a keyframe, and every other answer leaves the queue as it is. */
  lemma EveryPushAnswered(limits: Limits, ops: seq<Op>, p: Packet, now: nat)
    ensures var r := Play(limits, ops); var pushed := AfterPush(limits, r.state, p, now);
            && pushed.result == (if p.size == 0 then Invalid else Answer(limits, r.accepted, r.state.packets, p, now))
            && pushed.state.packets == (match pushed.result
                                        case Accepted => r.state.packets + [Entry(p, now)]
                                        case Overflow => []
                                        case _ => r.state.packets)
            && (pushed.result == Overflow ==> pushed.state.waiting)
  {
    hide Play, Overflows, Within;
    EveryRunKept(limits, ops);
    var r := Play(limits, ops);
    WithinOverflows(limits, r.state, p, now);
  }

  /** Over every run: a pop hands out the oldest packet if it has not waited too long, else empties the queue. */
  lemma EveryPopAnswered(limits: Limits, ops: seq<Op>, now: nat)
    ensures var r := Play(limits, ops); var q := r.state.packets; var popped := AfterPop(limits, r.state, now);
            if q != [] && InTime(limits, q[0], now) then popped.entry == Some(q[0]) && popped.state.packets == q[1..]
            else popped.entry == None && popped.state.packets == [] && (q != [] ==> popped.state.waiting)
  {
    hide Play;
  }

  // ---------------------------------------------------------------------
  // The object

  class MultistreamQueue {
    const limits: Limits
    var packets: seq<Entry>
    var bytes: nat
    var waitingForKeyframe: bool
    var epochDtsUsec: i64

    function Abs(): State
      reads this
    {
      State(packets, bytes, waitingForKeyframe, epochDtsUsec)
    }

    predicate Valid()
      reads this
    {
      bytes == Bytes(packets)
    }

    constructor (l: Limits)
      ensures Valid() && limits == l && Abs() == EMPTY
    {
      limits := l;
      packets, bytes, waitingForKeyframe, epochDtsUsec := [], 0, true, 0;
    }

    method Reset()
      modifies this
      ensures Valid() && Abs() == EMPTY
    {
      packets := [];
      bytes := 0;
      waitingForKeyframe := true;
      epochDtsUsec := 0;
    }

    method Push(p: Packet, now: nat) returns (result: PushResult)
      requires Valid()
      modifies this
      ensures Valid() && Pushed(Abs(), result) == AfterPush(limits, old(Abs()), p, now)
    {
      if p.size == 0 {
        return Invalid;
      }
      if waitingForKeyframe && (!p.video || !p.keyframe) {
        return WaitingForKeyframe;
      }
      if !waitingForKeyframe && p.dts < epochDtsUsec {
        return BeforeEpoch;
      }
      if Overflows(limits, Abs(), p, now) {
        Reset();
        return Overflow;
      }
      if waitingForKeyframe {
        epochDtsUsec := p.dts;
        waitingForKeyframe := false;
      }
      BytesSnoc(packets, Entry(p, now));
      packets := packets + [Entry(p, now)];
      bytes := bytes + p.size;
      result := Accepted;
    }

    method Pop(now: nat) returns (entry: Option<Entry>)
      requires Valid()
      modifies this
      ensures Valid() && Popped(Abs(), entry) == AfterPop(limits, old(Abs()), now)
    {
      if packets == [] {
        return None;
      }
      if Stale(limits, packets[0], now) {
        Reset();
        return None;
      }
      entry := Some(packets[0]);
      bytes := bytes - packets[0].packet.size;
      packets := packets[1..];
    }
  }
}
