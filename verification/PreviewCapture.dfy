/** The preview's cadence and history as objects. */
module PreviewEngine {
  import opened Options
  import opened PreviewHistory
  import opened PreviewTiming

  class PreviewCadence {
    var lastFrame: nat
    var lastSample: nat

    function Abs(): Cadence
      reads this
    {
      Cadence(lastFrame, lastSample)
    }

    constructor ()
      ensures Abs() == Cadence(0, 0)
    {
      lastFrame, lastSample := 0, 0;
    }

    method Reset()
      modifies this
      ensures Abs() == Cadence(0, 0)
    {
      lastFrame, lastSample := 0, 0;
    }

    method BeginFrame(at: nat) returns (begun: bool)
      modifies this
      ensures begun == Begins(old(Abs()), at) && Abs() == Begun(old(Abs()), at)
    {
      if at == 0 || at == lastFrame {
        return false;
      }
      if at < lastFrame {
        lastSample := 0;
      }
      lastFrame := at;
      return true;
    }

    predicate SampleDue(at: nat)
      reads this
      ensures SampleDue(at) == Due(Abs(), at)
    {
      lastSample == 0 || (at >= lastSample && at - lastSample >= INTERVAL)
    }

    /** The next sample is due an interval later. */
    method Sampled(at: nat)
      modifies `lastSample
      ensures Abs() == old(Abs()).(lastSample := at)
      ensures at != 0 ==> forall later: nat :: SampleDue(later) <==> later >= at + INTERVAL
    {
      lastSample := at;
    }
  }

  function Apart(a: nat, b: nat): nat { if a <= b then b - a else a - b }

  /** Where a search that finds `after` frames at or before the time ends. */
  lemma SearchAnswer(f: Frames, t: nat, after: nat)
    requires Increasing(f) && after <= |f|
    requires forall i :: 0 <= i < after ==> f[i].at <= t
    requires forall i :: after <= i < |f| ==> t < f[i].at
    ensures FrameAt(f, t) == if after == 0 then None else Some(f[after - 1])
  {
    hide FrameAt;
    if after == 0 {
      NoAnswer(f, t);
    } else {
      AnswerIs(f, t, after - 1);
    }
  }

  class PreviewCapture {
    const cadence: PreviewCadence
    var historySeconds: nat
    var pending: nat
    var frames: Frames
    var protectedAt: nat
    var holdPin: nat
    var suspended: bool

    function Abs(): State
      reads this
    {
      State(frames, protectedAt, holdPin, suspended)
    }

    predicate Valid()
      reads this
    {
      Increasing(frames) && 3 <= historySeconds <= LONGEST_SECONDS + 3
    }

    constructor (history: nat)
      ensures Valid() && fresh(cadence) && Abs() == START && pending == 0 && cadence.Abs() == Cadence(0, 0)
      ensures historySeconds == Clamped(history)
    {
      cadence := new PreviewCadence();
      historySeconds := Clamped(history);
      pending, frames, protectedAt, holdPin, suspended := 0, [], 0, 0, false;
    }

    method Stop()
      requires Valid()
      modifies this, cadence
      ensures Valid() && Abs() == START && pending == 0 && cadence.Abs() == Cadence(0, 0)
      ensures historySeconds == old(historySeconds)
    {
      cadence.Reset();
      pending, frames, protectedAt, holdPin, suspended := 0, [], 0, 0, false;
    }

    /** The admissible length nearest to the one asked for. */
    method SetHistorySeconds(seconds: nat)
      requires Valid()
      modifies `historySeconds
      ensures Valid() && historySeconds == Clamped(seconds)
      ensures forall other: nat :: 3 <= other <= LONGEST_SECONDS + 3 ==> Apart(historySeconds, seconds) <= Apart(other, seconds)
    {
      historySeconds := Clamped(seconds);
    }

    method SetPlaybackState(paused: bool, emittingHold: bool, emittingDelayed: bool, emittedAt: nat, bufferStart: nat)
      requires Valid()
      modifies `protectedAt, `holdPin, `suspended
      ensures Valid()
      ensures Abs() == SetPlayback(old(Abs()), paused, emittingHold, emittingDelayed, emittedAt, bufferStart)
    {
      if emittingHold {
        if (paused || holdPin != 0) && bufferStart != 0 {
          holdPin := bufferStart;
        }
        protectedAt := holdPin;
      } else {
        holdPin := 0;
        protectedAt := if emittingDelayed then emittedAt else 0;
      }
      suspended := paused;
    }

    /** A binary search for the first later frame; the answer is the one before it. */
    method AnswerAt(t: nat) returns (r: Option<Frame>)
      requires Valid()
      ensures r == FrameAt(frames, t)
    {
      hide FrameAt;
      var low, high := 0, |frames|;
      while low < high
        invariant low <= high <= |frames|
        invariant forall i :: 0 <= i < low ==> frames[i].at <= t
        invariant forall i :: high <= i < |frames| ==> t < frames[i].at
      {
        var middle := (low + high) / 2;
        if t < frames[middle].at {
          high := middle;
        } else {
          low := middle + 1;
        }
      }
      SearchAnswer(frames, t, low);
      r := if low == 0 then None else Some(frames[low - 1]);
    }

    method TrimTo(cutoff: nat)
      requires Valid()
      modifies `frames
      ensures Valid() && frames == Trim(old(frames), cutoff)
    {
      while |frames| > 1 && frames[1].at <= cutoff
        invariant Valid() && Trim(frames, cutoff) == Trim(old(frames), cutoff)
        decreases |frames|
      {
        frames := frames[1..];
      }
    }

    /** Saves one frame under the lock. */
    method SaveFrame(saved: Frame)
      requires Valid()
      modifies `frames
      ensures Valid() && Abs() == Save(old(Abs()), saved, historySeconds)
    {
      hide Trim;
      if frames != [] && saved.at <= frames[|frames| - 1].at {
        frames := [];
      }
      assert frames == Continued(old(frames), saved);
      var cutoff := if saved.at > historySeconds * NS then saved.at - historySeconds * NS else 0;
      if protectedAt != 0 {
        cutoff := Min(cutoff, protectedAt);
      }
      ghost var last := frames;
      TrimTo(cutoff);
      TrimKeepsLast(last, cutoff);
      if |frames| >= historySeconds * 2 + 4 {
        if protectedAt != 0 {
          return;
        }
        frames := frames[1..];
      }
      frames := frames + [saved];
    }

    /** Reads back the frame staged last, if any; `image` is absent when the readback fails. */
    method ReadPendingFrame(image: Option<nat>)
      requires Valid()
      modifies `frames, `pending
      ensures Valid() && pending == 0
      ensures Abs() == ReadBack(old(Abs()), old(pending), image, historySeconds)
    {
      hide Save;
      if pending == 0 {
        return;
      }
      var saved := pending;
      pending := 0;
      if image.Some? {
        SaveFrame(Frame(saved, image.value));
      }
    }

    /** One rendered frame: read back, then sample if due; `staged` says whether the copy could be made. */
    method CaptureFrame(at: nat, image: Option<nat>, staged: bool)
      requires Valid()
      modifies this, cadence
      ensures Valid() && historySeconds == old(historySeconds)
      ensures Capture(cadence.Abs(), pending, Abs())
           == Draw(old(Capture(cadence.Abs(), pending, Abs())), Render(at, historySeconds, image, staged))
    {
      hide ReadBack;
      var begun := cadence.BeginFrame(at);
      if !begun {
        return;
      }
      ReadPendingFrame(image);
      if suspended || !cadence.SampleDue(at) {
        return;
      }
      cadence.Sampled(at);
      if staged {
        pending := at;
      }
    }
  }
}
