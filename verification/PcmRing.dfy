/** The audio ring between two threads. */
module PcmRing {
  // Interleaved steps: each side looks at the other's sequence number in one step and acts on what it saw in
  // a later one.

  import opened Options

  datatype Producer = Resting | Looked(read: nat) | Writing
  datatype Consumer = Waiting | Saw(write: nat) | Reading

  /** Shared slots and sequence numbers, the local state of both threads, and the values handed over. */
  datatype Ring<T> = Ring(
    slots: seq<T>, write: nat, read: nat, producer: Producer, consumer: Consumer, dropped: nat, underruns: nat,
    pushed: seq<T>, popped: seq<T>)

  datatype Step<T> = LookRead | Claim | Fill(value: T) | CommitPush | LookWrite | Open | CommitPop

  function Empty<T>(slots: seq<T>): Ring<T> {
    Ring(slots, 0, 0, Resting, Waiting, 0, 0, [], [])
  }

  predicate Enabled<T>(r: Ring<T>, step: Step<T>) {
    match step
    case LookRead => true
    case Claim => r.producer.Looked?
    case Fill(_) => r.producer.Writing?
    case CommitPush => r.producer.Writing?
    case LookWrite => true
    case Open => r.consumer.Saw?
    case CommitPop => r.consumer.Reading?
  }

  function Slot<T>(r: Ring<T>, sequence: nat): nat
    requires r.slots != []
  {
    sequence % |r.slots|
  }

  /** One step of either thread; a slot may be filled any number of times before it is committed. */
  function Next<T>(r: Ring<T>, step: Step<T>): Ring<T>
    requires Enabled(r, step) && r.slots != []
  {
    match step
    case LookRead => r.(producer := Looked(r.read))
    case Claim =>
      if r.write - r.producer.read >= |r.slots| then r.(producer := Resting, dropped := r.dropped + 1)
      else r.(producer := Writing)
    case Fill(value) => r.(slots := r.slots[Slot(r, r.write) := value])
    case CommitPush => r.(write := r.write + 1, producer := Resting, pushed := r.pushed + [r.slots[Slot(r, r.write)]])
    case LookWrite => r.(consumer := Saw(r.write))
    case Open =>
      if r.read == r.consumer.write then r.(consumer := Waiting, underruns := r.underruns + 1)
      else r.(consumer := Reading)
    case CommitPop => r.(read := r.read + 1, consumer := Waiting, popped := r.popped + [r.slots[Slot(r, r.read)]])
  }

  /** Both sequence numbers stay within one capacity, what either side saw is still safe to act on,
      and every slot between them holds the value committed for it. */
  ghost predicate Sound<T>(r: Ring<T>) {
    && |r.slots| >= 2
    && r.read <= r.write <= r.read + |r.slots|
    && (r.producer.Looked? ==> r.producer.read <= r.read)
    && (r.producer.Writing? ==> r.write < r.read + |r.slots|)
    && (r.consumer.Saw? ==> r.read <= r.consumer.write <= r.write)
    && (r.consumer.Reading? ==> r.read < r.write)
    && |r.pushed| == r.write
    && (forall i :: r.read <= i < r.write ==> r.slots[i % |r.slots|] == r.pushed[i])
    && r.read <= |r.pushed| && r.popped == r.pushed[..r.read]
  }

  /** Numbers less than one capacity apart fall into different slots. */
  lemma SlotsDiffer(a: nat, b: nat, n: nat)
    requires n > 0 && a < b < a + n
    ensures a % n != b % n
  {
    if a % n == b % n {
      var q, p := a / n, b / n;
      assert b - a == (p - q) * n;
      if p <= q {
        NoProduct(p - q, n);
      } else {
        AtLeastOne(p - q, n);
      }
    }
  }

  lemma NoProduct(k: int, n: nat)
    requires k <= 0
    ensures k * n <= 0
  {
  }

  lemma AtLeastOne(k: int, n: nat)
    requires k >= 1
    ensures k * n >= n
  {
  }

  /** The two threads never own the same slot. */
  lemma OwnersApart<T>(r: Ring<T>)
    requires Sound(r) && r.producer.Writing? && r.consumer.Reading?
    ensures Slot(r, r.write) != Slot(r, r.read)
  {
    SlotsDiffer(r.read, r.write, |r.slots|);
  }

  lemma StepSound<T>(r: Ring<T>, step: Step<T>)
    requires Sound(r) && Enabled(r, step)
    ensures Sound(Next(r, step)) && |Next(r, step).slots| == |r.slots|
  {
    var n := |r.slots|;
    match step
    case Fill(value) =>
      forall i | r.read <= i < r.write ensures i % n != r.write % n {
        SlotsDiffer(i, r.write, n);
      }
    case CommitPush =>
    case CommitPop =>
    case _ =>
  }

  function Run<T>(r: Ring<T>, steps: seq<Step<T>>): Option<Ring<T>>
    requires r.slots != []
    decreases |steps|
  {
    if steps == [] then Some(r)
    else if !Enabled(r, steps[0]) then None
    else Run(Next(r, steps[0]), steps[1..])
  }

  /** What every interleaving keeps: the fill level is bounded, ownership is exclusive, and what was
      popped is exactly a prefix of what was pushed. */
  ghost predicate Exchanged<T>(r: Ring<T>, capacity: nat) {
    && capacity > 0 && |r.slots| == capacity
    && 0 <= r.write - r.read <= capacity
    && (r.producer.Writing? && r.consumer.Reading? ==> r.write % capacity != r.read % capacity)
    && r.popped <= r.pushed && |r.popped| == r.read && |r.pushed| == r.write
    && (r.consumer.Reading? ==> r.read < |r.pushed| && r.slots[r.read % capacity] == r.pushed[r.read])
  }

  lemma SoundMeans<T>(r: Ring<T>)
    requires Sound(r)
    ensures Exchanged(r, |r.slots|)
  {
    if r.producer.Writing? && r.consumer.Reading? {
      OwnersApart(r);
    }
  }

  lemma {:induction false} EveryInterleaving<T>(r: Ring<T>, steps: seq<Step<T>>)
    requires Sound(r)
    ensures Run(r, steps).Some? ==> Exchanged(Run(r, steps).value, |r.slots|)
    decreases |steps|
  {
    if steps == [] {
      SoundMeans(r);
    } else if Enabled(r, steps[0]) {
      StepSound(r, steps[0]);
      EveryInterleaving(Next(r, steps[0]), steps[1..]);
    }
  }

  lemma EmptySound<T>(slots: seq<T>)
    requires |slots| >= 2
    ensures Sound(Empty(slots))
  {
  }

  /** So it is from an empty ring on. */
  lemma EveryRun<T>(slots: seq<T>, steps: seq<Step<T>>)
    requires |slots| >= 2
    ensures Run(Empty(slots), steps).Some? ==> Exchanged(Run(Empty(slots), steps).value, |slots|)
  {
    hide Sound, Exchanged, Run;
    EmptySound(slots);
    EveryInterleaving(Empty(slots), steps);
  }
}
