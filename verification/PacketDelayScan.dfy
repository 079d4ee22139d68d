/** The scans over one buffered lane. */
module PacketDelayScan {
  // What pruning keeps, where a cut would start, and which packets stay live.

  import opened Options
  import opened Timestamps
  import opened PacketTypes
  import opened PacketDelaySpec
  import opened PacketDelayStep
  import opened PacketDelayInvariant

  lemma {:induction false} KeepIndexStops(c: Config, q: Queue, now: i64, retention: int, i: nat, n: nat)
    requires i <= n <= |q| && (i < |q| ==> !Due(now, q[i].receivedAt, retention))
    ensures KeepIndex(c, q, now, retention, n) == KeepIndex(c, q, now, retention, i)
  {
    if i < n {
      KeepIndexStops(c, q, now, retention, i, n - 1);
    }
  }

  /** Position of the last anchor in the due prefix of a lane. */
  method ScanKeep(c: Config, q: Queue, now: i64, retention: int) returns (keep: nat)
    ensures keep == KeepIndex(c, q, now, retention, |q|)
  {
    keep := 0;
    var i := 0;
    while i < |q| && Due(now, q[i].receivedAt, retention)
      invariant 0 <= i <= |q| && DuePrefix(q, now, retention, i)
      invariant keep == KeepIndex(c, q, now, retention, i)
    {
      if Anchor(c, q[i]) {
        keep := i;
      }
      i := i + 1;
    }
    KeepIndexStops(c, q, now, retention, i, |q|);
  }

  /** Pops packets older than a sequence number and adds up what they occupied. */
  method PrunePrefix(q: Queue, keep: nat) returns (rest: Queue, payload: nat, retained: nat)
    requires Arrived(q) && keep < |q|
    ensures rest == q[keep..]
    ensures payload + SeqWeight(rest, Payload) == SeqWeight(q, Payload)
    ensures retained + SeqWeight(rest, Retained) == SeqWeight(q, Retained)
  {
    rest, payload, retained := q, 0, 0;
    ghost var i := 0;
    while rest != [] && rest[0].sequence < q[keep].sequence
      invariant 0 <= i <= keep && rest == q[i..]
      invariant payload + SeqWeight(rest, Payload) == SeqWeight(q, Payload)
      invariant retained + SeqWeight(rest, Retained) == SeqWeight(q, Retained)
    {
      payload := payload + rest[0].packet.retained;
      retained := retained + rest[0].retained;
      rest := rest[1..];
      i := i + 1;
    }
  }

  method IsContinuous(c: Config, q: Queue, from: nat) returns (continuous: bool)
    requires from < |q|
    ensures continuous == Continuous(c, q, from)
  {
    if c.maxGap == 0 {
      return true;
    }
    var current := from + 1;
    while current < |q|
      invariant from < current <= |q|
      invariant forall j :: from < j < current ==> Elapsed(q[j].receivedAt, q[j - 1].receivedAt) <= c.maxGap
    {
      if Elapsed(q[current].receivedAt, q[current - 1].receivedAt) > c.maxGap {
        return false;
      }
      current := current + 1;
    }
    continuous := true;
  }

  /** The newest packet of a lane from which a cut may start, searched from the back. */
  method ScanStart(c: Config, q: Queue, now: i64, target: nat) returns (start: Option<nat>)
    requires q != []
    ensures start == LaneStart(c, q, now, target)
  {
    if c.maxGap != 0 && Elapsed(now, q[|q| - 1].receivedAt) > c.maxGap {
      return None;
    }
    var n := |q|;
    while n > 0
      invariant 0 <= n <= |q|
      invariant LaneStart(c, q, now, target) == NewestEligible(c, q, now, target, n)
    {
      n := n - 1;
      if !Due(now, q[n].receivedAt, target) || !Anchor(c, q[n]) {
        continue;
      }
      if target != 0 && Elapsed(q[|q| - 1].receivedAt, q[n].receivedAt) < target {
        continue;
      }
      var continuous := IsContinuous(c, q, n);
      if continuous {
        return Some(n);
      }
    }
    start := None;
  }

  /** What is kept stays kept from there on. */
  lemma KeptOn(c: Config, s: State, cut: Option<i64>, k: StreamKey, q: Queue, from: nat, i: nat)
    requires Arrived(q) && from <= i < |q| && Kept(c, s, cut, k, q[from])
    ensures Kept(c, s, cut, k, q[i])
  {
  }

  /** The kept packets of a lane, picked one by one. */
  method ScanKept(c: Config, s: State, cut: Option<i64>, k: StreamKey, q: Queue) returns (kept: Queue)
    requires Arrived(q)
    ensures kept == q[KeptFrom(c, s, cut, k, q)..]
  {
    hide Kept, Arrived;
    kept := [];
    var i := 0;
    ghost var from := KeptFrom(c, s, cut, k, q);
    while i < |q|
      invariant 0 <= i <= |q|
      invariant kept == if i <= from then [] else q[from..i]
    {
      if i > from {
        KeptOn(c, s, cut, k, q, from, i);
      }
      if Kept(c, s, cut, k, q[i]) {
        kept := kept + [q[i]];
      }
      i := i + 1;
    }
  }
}
