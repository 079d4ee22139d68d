/** Values of the packet delay core: packets, lanes, configuration, time. */
module PacketTypes {
  import opened Timestamps

  datatype Kind = Video | Audio

  datatype StreamKey = StreamKey(kind: Kind, track: nat, generation: nat)

  function Timeline(stream: StreamKey): StreamKey {
    stream.(generation := 0)
  }

  /** A packet without its payload bytes; retained is what the payload owner keeps allocated. */
  datatype Packet = Packet(stream: StreamKey, pts: i64, dts: i64, tb: TimeBase, keyframe: bool, retained: nat)

  datatype Queued = Queued(packet: Packet, receivedAt: i64, sequence: nat, retained: nat)

  datatype Output = Output(packet: Packet, receivedAt: i64, releasedAt: i64, sequence: nat, delayed: bool)

  datatype Horizon = Horizon(value: i64, tb: TimeBase)

  datatype Mode = Bypass | Preparing | Filling | Delayed | Returning | Failed

  datatype Fault =
    | ClockRegression | TooManyTimelines | GenerationChanged | InvalidTimeBase | NewStreamOffset
    | OrderingOverflow | Capacity | FailOpenTimestamps | LiveTimestamps | DelayedEpoch | LiveEpoch
    | ExternalOutput | InvalidQueuedTimeBase | ReorderWindow | RetimestampOverflow | LatePacket
    | ReturnRegression | Reported

  datatype RequestResult = Accepted | NoOp | InvalidState | InvalidDelay | NotReady | ClockRegressed

  datatype Config = Config(
    maxDelay: nat, headroom: nat, maxPayload: nat, maxPackets: nat, maxStreams: nat,
    metadataBytes: nat, maxRetained: nat, reorderWindow: nat, stallTimeout: nat, maxGap: nat,
    requireKeyframe: bool, required: set<StreamKey>)
  {
    predicate Valid() {
      && maxDelay + headroom <= MAX64
      && maxPackets > 0 && maxStreams > 0 && metadataBytes > 0
      && |set k | k in required :: Timeline(k)| <= maxStreams
    }
  }

  const SIZE_MAX: int := 0xffff_ffff_ffff_ffff

  /** now - then, zero for a clock that did not advance, saturated at the largest duration. */
  function Elapsed(now: i64, then_: i64): i64 {
    if now <= then_ then 0
    else if then_ < 0 && now > MAX64 + then_ then MAX64
    else now - then_
  }

  predicate Due(now: i64, receivedAt: i64, delay: int) {
    now >= receivedAt && Elapsed(now, receivedAt) >= delay
  }

  /** A nonempty finite set has a least element under a total preorder. */
  lemma {:induction false} Least<T>(s: set<T>, le: (T, T) -> bool) returns (m: T)
    requires s != {}
    requires forall x, y :: x in s && y in s ==> le(x, y) || le(y, x)
    requires forall x, y, z :: x in s && y in s && z in s && le(x, y) && le(y, z) ==> le(x, z)
    ensures m in s && forall x :: x in s ==> le(m, x)
  {
    m :| m in s;
    if s != {m} {
      var other := Least(s - {m}, le);
      if !le(m, other) {
        m := other;
      }
    }
  }
}
