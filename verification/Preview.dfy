/** The preview's history of frames. */
module PreviewHistory {
  // A trimmed, pinned list that must answer like the full history.

  import opened Options

  const NS: nat := 1_000_000_000
  const INTERVAL: nat := 500_000_000
  const LONGEST_SECONDS: nat := 3600

  datatype Frame = Frame(at: nat, image: nat)

  type Frames = seq<Frame>

  /** Frames, the protected and the pinned capture time (zero for none), and whether capture is suspended. */
  datatype State = State(frames: Frames, protectedAt: nat, holdPin: nat, suspended: bool)

  const START := State([], 0, 0, false)

  function Min(a: nat, b: nat): nat { if a <= b then a else b }

  predicate Increasing(f: Frames) {
    forall i, j :: 0 <= i < j < |f| ==> f[i].at < f[j].at
  }

  /** The newest frame captured at or before a time. */
  function FrameAt(f: Frames, t: nat): Option<Frame> {
    if f == [] then None
    else if f[|f| - 1].at <= t then Some(f[|f| - 1])
    else FrameAt(f[..|f| - 1], t)
  }

  // ---------------------------------------------------------------------
  // Keeping the history

  function SetPlayback(s: State, paused: bool, emittingHold: bool, emittingDelayed: bool, emittedAt: nat, bufferStart: nat): State {
    if emittingHold then
      var pin := if (paused || s.holdPin != 0) && bufferStart != 0 then bufferStart else s.holdPin;
      s.(holdPin := pin, protectedAt := pin, suspended := paused)
    else s.(holdPin := 0, protectedAt := if emittingDelayed then emittedAt else 0, suspended := paused)
  }

  function Cutoff(s: State, at: nat, history: nat): nat {
    var plain := if at > history * NS then at - history * NS else 0;
    if s.protectedAt != 0 then Min(plain, s.protectedAt) else plain
  }

  /** Drops frames from the front while the next one is still at or before the cutoff. */
  function Trim(f: Frames, cutoff: nat): Frames {
    if |f| > 1 && f[1].at <= cutoff then Trim(f[1..], cutoff) else f
  }

  /** A clock that did not advance starts the history over. */
  function Continued(f: Frames, saved: Frame): Frames {
    if f != [] && saved.at <= f[|f| - 1].at then [] else f
  }

  function Capacity(history: nat): nat { history * 2 + 4 }

  predicate Full(s: State, saved: Frame, history: nat) {
    |Trim(Continued(s.frames, saved), Cutoff(s, saved.at, history))| >= Capacity(history)
  }

  function Save(s: State, saved: Frame, history: nat): State {
    var kept := Trim(Continued(s.frames, saved), Cutoff(s, saved.at, history));
    if !Full(s, saved, history) then s.(frames := kept + [saved])
    else if s.protectedAt != 0 then s.(frames := kept)
    else s.(frames := kept[1..] + [saved])
  }

  // ---------------------------------------------------------------------
  // Answers

  /** The answer is the newest frame at or before the time. */
  lemma {:induction false} AnswerIs(f: Frames, t: nat, i: nat)
    requires Increasing(f) && i < |f| && f[i].at <= t && (i + 1 < |f| ==> t < f[i + 1].at)
    ensures FrameAt(f, t) == Some(f[i])
  {
    if i + 1 < |f| {
      var last := |f| - 1;
      if i + 1 < last {
        assert f[i + 1].at < f[last].at;
      }
      assert f[..last][i] == f[i];
      AnswerIs(f[..last], t, i);
    }
  }

  lemma {:induction false} NoAnswer(f: Frames, t: nat)
    requires forall i :: 0 <= i < |f| ==> t < f[i].at
    ensures FrameAt(f, t) == None
  {
    if f != [] {
      NoAnswer(f[..|f| - 1], t);
    }
  }

  /** The kept frames are a tail of the full history that starts at or before every time still asked for. */
  ghost predicate Answers(full: Frames, kept: Frames, cutoff: nat) {
    && Increasing(full) && |kept| <= |full| && kept == full[|full| - |kept|..]
    && (full != [] ==> kept != []) && (|kept| < |full| ==> kept[0].at <= cutoff)
  }

  lemma {:induction false} AnswerInTail(full: Frames, drop: nat, t: nat)
    requires Increasing(full) && drop < |full| && full[drop].at <= t
    ensures FrameAt(full[drop..], t) == FrameAt(full, t)
  {
    var last := |full| - 1;
    if full[last].at > t {
      assert drop < last;
      assert full[..last][drop..] == full[drop..][..last - drop];
      AnswerInTail(full[..last], drop, t);
    }
  }

  /** From the largest cutoff on, the trimmed history answers like the full one. */
  lemma SameAnswer(full: Frames, kept: Frames, cutoff: nat, t: nat)
    requires Answers(full, kept, cutoff) && t >= cutoff
    ensures FrameAt(kept, t) == FrameAt(full, t)
  {
    var drop := |full| - |kept|;
    if drop == 0 {
      assert full[0..] == full;
    } else {
      AnswerInTail(full, drop, t);
    }
  }

  lemma {:induction false} TrimAnswers(full: Frames, kept: Frames, before: nat, cutoff: nat)
    requires Answers(full, kept, before)
    ensures Answers(full, Trim(kept, cutoff), if before >= cutoff then before else cutoff)
    decreases |kept|
  {
    if |kept| > 1 && kept[1].at <= cutoff {
      assert kept[1..] == full[|full| - |kept| + 1..];
      TrimAnswers(full, kept[1..], if before >= cutoff then before else cutoff, cutoff);
    }
  }

  lemma AppendAnswers(full: Frames, kept: Frames, cutoff: nat, saved: Frame)
    requires Answers(full, kept, cutoff) && (full != [] ==> full[|full| - 1].at < saved.at)
    ensures Answers(full + [saved], kept + [saved], cutoff)
  {
    forall i | 0 <= i < |full| ensures full[i].at < saved.at {
      if i < |full| - 1 {
        assert full[i].at < full[|full| - 1].at;
      }
    }
  }

  // ---------------------------------------------------------------------
  // Runs

  datatype Op =
    | Playback(paused: bool, emittingHold: bool, emittingDelayed: bool, emittedAt: nat, bufferStart: nat)
    | Sample(frame: Frame, history: nat)

  /** The history as kept, everything ever saved on this clock, the largest cutoff used, whether the cap was hit. */
  datatype Run = Run(state: State, full: Frames, cutoff: nat, capped: bool)

  function Played(r: Run, op: Op): Run {
    match op
    case Playback(paused, hold, delayed, emittedAt, start) =>
      r.(state := SetPlayback(r.state, paused, hold, delayed, emittedAt, start))
    case Sample(saved, history) =>
      var restarts := Continued(r.full, saved) != r.full;
      var used := Cutoff(r.state, saved.at, history);
      Run(Save(r.state, saved, history), Continued(r.full, saved) + [saved],
          if restarts || r.cutoff < used then used else r.cutoff, r.capped || Full(r.state, saved, history))
  }

  function Play(ops: seq<Op>): Run {
    if ops == [] then Run(START, [], 0, false) else Played(Play(ops[..|ops| - 1]), ops[|ops| - 1])
  }

  lemma SampleAnswers(r: Run, saved: Frame, history: nat)
    requires Answers(r.full, r.state.frames, r.cutoff) && !Played(r, Sample(saved, history)).capped
    ensures var after := Played(r, Sample(saved, history)); Answers(after.full, after.state.frames, after.cutoff)
  {
    hide Trim;
    var used := Cutoff(r.state, saved.at, history);
    var kept, full := Continued(r.state.frames, saved), Continued(r.full, saved);
    if r.full != [] {
      assert r.state.frames[|r.state.frames| - 1] == r.full[|r.full| - 1];
    }
    if full == r.full {
      assert Answers(full, kept, r.cutoff);
      TrimAnswers(full, kept, r.cutoff, used);
    } else {
      assert Answers(full, kept, used);
      TrimAnswers(full, kept, used, used);
    }
    AppendAnswers(full, Trim(kept, used), if full != r.full || r.cutoff < used then used else r.cutoff, saved);
  }

  /** With the cap unhit, every question at or after the largest cutoff, pin included, gets the full history's answer. */
  lemma {:induction false} EveryRunAnswers(ops: seq<Op>)
    requires !Play(ops).capped
    ensures var r := Play(ops); Answers(r.full, r.state.frames, r.cutoff)
  {
    hide Answers, Save;
    if ops == [] {
      StartAnswers();
    } else {
      var before := Play(ops[..|ops| - 1]);
      EveryRunAnswers(ops[..|ops| - 1]);
      if ops[|ops| - 1].Sample? {
        SampleAnswers(before, ops[|ops| - 1].frame, ops[|ops| - 1].history);
      }
    }
  }

  lemma StartAnswers()
    ensures Answers([], [], 0)
  {
  }

  lemma TrimmedAnswers(ops: seq<Op>, t: nat)
    requires !Play(ops).capped && t >= Play(ops).cutoff
    ensures FrameAt(Play(ops).state.frames, t) == FrameAt(Play(ops).full, t)
  {
    hide Answers, Play, FrameAt;
    EveryRunAnswers(ops);
    SameAnswer(Play(ops).full, Play(ops).state.frames, Play(ops).cutoff, t);
  }

  // ---------------------------------------------------------------------
  // The cap

  predicate Spaced(f: Frames) {
    forall i :: 0 < i < |f| ==> f[i].at >= f[i - 1].at + INTERVAL
  }

  lemma {:induction false} SpacedSpan(f: Frames, i: nat)
    requires Spaced(f) && i < |f|
    ensures f[|f| - 1].at >= f[i].at + (|f| - 1 - i) * INTERVAL
    decreases |f| - i
  {
    if i < |f| - 1 {
      SpacedSpan(f, i + 1);
    }
  }

  lemma {:induction false} TrimSpaced(f: Frames, cutoff: nat)
    requires Spaced(f)
    ensures var r := Trim(f, cutoff);
            && Spaced(r) && (f != [] ==> r != [] && r[|r| - 1] == f[|f| - 1]) && |r| <= |f|
            && (|r| > 1 ==> r[1].at > cutoff)
    decreases |f|
  {
    if |f| > 1 && f[1].at <= cutoff {
      TrimSpaced(f[1..], cutoff);
    }
  }

  /** Frames at the capture cadence never fill the cap while nothing is pinned. */
  lemma CapUnreached(s: State, saved: Frame, history: nat)
    requires Spaced(s.frames) && s.protectedAt == 0
    requires s.frames != [] && s.frames[|s.frames| - 1].at < saved.at ==> s.frames[|s.frames| - 1].at + INTERVAL <= saved.at
    ensures !Full(s, saved, history) && Spaced(Save(s, saved, history).frames)
    ensures |Save(s, saved, history).frames| <= Capacity(history)
  {
    var f, cutoff := Continued(s.frames, saved), Cutoff(s, saved.at, history);
    TrimSpaced(f, cutoff);
    var r := Trim(f, cutoff);
    if |r| > 1 {
      SpacedSpan(r, 1);
      Multiple(|r| - 2, 2 * history + 2);
    }
  }

  lemma Multiple(a: nat, b: nat)
    ensures a >= b ==> a * INTERVAL >= b * INTERVAL
  {
  }

  /** A cap hit while something is pinned leaves the pinned answer alone. */
  lemma PinnedAnswerKept(s: State, saved: Frame, history: nat)
    requires Increasing(s.frames) && s.protectedAt != 0 && Full(s, saved, history) && Continued(s.frames, saved) == s.frames
    ensures FrameAt(Save(s, saved, history).frames, s.protectedAt) == FrameAt(s.frames, s.protectedAt)
  {
    hide Trim, FrameAt;
    var cutoff := Cutoff(s, saved.at, history);
    assert s.frames[0..] == s.frames;
    assert Answers(s.frames, s.frames, 0);
    TrimAnswers(s.frames, s.frames, 0, cutoff);
    SameAnswer(s.frames, Trim(s.frames, cutoff), cutoff, s.protectedAt);
  }

  // ---------------------------------------------------------------------
  // What is being shown stays answerable

  predicate Later(f: Frames, at: nat) {
    forall i :: 0 <= i < |f| ==> f[i].at < at
  }

  lemma PinnedSave(s: State, saved: Frame, history: nat)
    requires Increasing(s.frames) && s.protectedAt != 0 && s.protectedAt < saved.at && Later(s.frames, saved.at)
    ensures var r := Save(s, saved, history);
            && FrameAt(r.frames, s.protectedAt) == FrameAt(s.frames, s.protectedAt)
            && r.protectedAt == s.protectedAt && r.holdPin == s.holdPin
  {
    hide Trim, FrameAt;
    var cutoff := Cutoff(s, saved.at, history);
    var kept := Trim(s.frames, cutoff);
    assert Continued(s.frames, saved) == s.frames;
    assert s.frames[0..] == s.frames;
    assert Answers(s.frames, s.frames, 0);
    TrimAnswers(s.frames, s.frames, 0, cutoff);
    SameAnswer(s.frames, kept, cutoff, s.protectedAt);
    LaterAnswer(kept, saved, s.protectedAt);
  }

  /** A frame from after a time does not change the answer for it. */
  lemma LaterAnswer(f: Frames, saved: Frame, t: nat)
    requires t < saved.at
    ensures FrameAt(f + [saved], t) == FrameAt(f, t)
  {
    assert (f + [saved])[..|f|] == f;
  }

  lemma IncreasingSave(s: State, saved: Frame, history: nat)
    requires Increasing(s.frames)
    ensures Increasing(Save(s, saved, history).frames)
  {
    hide Trim, Cutoff;
    var f := Continued(s.frames, saved);
    assert Increasing(f) && (f != [] ==> f[|f| - 1].at < saved.at);
    var cutoff := Cutoff(s, saved.at, history);
    TrimSuffix(f, cutoff);
    var kept := Trim(f, cutoff);
    SnocIncreasing(kept, saved);
    if kept != [] {
      SnocIncreasing(kept[1..], saved);
    }
  }

  lemma SnocIncreasing(f: Frames, saved: Frame)
    requires Increasing(f) && (f != [] ==> f[|f| - 1].at < saved.at)
    ensures Increasing(f + [saved])
  {
    forall i | 0 <= i < |f| ensures f[i].at < saved.at {
      if i < |f| - 1 {
        assert f[i].at < f[|f| - 1].at;
      }
    }
  }

  lemma {:induction false} TrimSuffix(f: Frames, cutoff: nat)
    requires Increasing(f)
    ensures var r := Trim(f, cutoff); Increasing(r) && (f == [] <==> r == []) && (f != [] ==> r[|r| - 1] == f[|f| - 1])
    decreases |f|
  {
    if |f| > 1 && f[1].at <= cutoff {
      TrimSuffix(f[1..], cutoff);
    }
  }

  lemma {:induction false} EveryRunIncreasing(ops: seq<Op>)
    ensures Increasing(Play(ops).state.frames)
  {
    hide Save, Continued, Cutoff, Full, Increasing;
    if ops == [] {
      assert Increasing([]) by { NoneIncreasing(); }
    } else {
      EveryRunIncreasing(ops[..|ops| - 1]);
      var op := ops[|ops| - 1];
      if op.Sample? {
        IncreasingSave(Play(ops[..|ops| - 1]).state, op.frame, op.history);
      }
    }
  }

  lemma NoneIncreasing()
    ensures Increasing([])
  {
  }

  /** The hold has been on without a break since playback was paused on it with a buffer. */
  predicate Pinning(ops: seq<Op>) {
    ops != [] &&
    match ops[|ops| - 1]
    case Sample(_, _) => Pinning(ops[..|ops| - 1])
    case Playback(paused, hold, _, _, start) => hold && (Pinning(ops[..|ops| - 1]) || (paused && start != 0))
  }

  lemma {:induction false} PinningExactly(ops: seq<Op>)
    ensures Pinning(ops) <==> Play(ops).state.holdPin != 0
  {
    hide Save, Continued, Cutoff, Full;
    if ops != [] {
      PinningExactly(ops[..|ops| - 1]);
      if ops[|ops| - 1].Sample? {
        SavePins(Play(ops[..|ops| - 1]).state, ops[|ops| - 1].frame, ops[|ops| - 1].history);
      }
    }
  }

  lemma SavePins(s: State, saved: Frame, history: nat)
    ensures Save(s, saved, history).holdPin == s.holdPin && Save(s, saved, history).suspended == s.suspended
  {
    hide Trim, Full;
  }

  /** The call tells that this time is being shown: the delayed frame of that time is emitted, or playback is, or was,
      paused on the hold with the buffer starting there. */
  predicate Shows(ops: seq<Op>, op: Op, t: nat) {
    op.Playback? && t != 0 &&
    if op.emittingHold then (op.paused || Pinning(ops)) && op.bufferStart == t else op.emittingDelayed && op.emittedAt == t
  }

  /** It tells nothing else: still the same delayed frame, or still the hold, whether or not it is still paused. */
  predicate StillShows(show: Op, op: Op, t: nat)
    requires show.Playback? && op.Playback?
  {
    if show.emittingHold then op.emittingHold && (op.bufferStart == t || op.bufferStart == 0)
    else !op.emittingHold && op.emittingDelayed && op.emittedAt == t
  }

  /** What comes after it: the same told again, and samples newer than the time and all frames kept. */
  predicate Following(ops: seq<Op>, show: Op, more: seq<Op>, t: nat)
    requires show.Playback?
  {
    forall j :: 0 <= j < |more| ==>
      match more[j]
      case Playback(_, _, _, _, _) => StillShows(show, more[j], t)
      case Sample(saved, _) => saved.at > t && Later(Play(ops + [show] + more[..j]).state.frames, saved.at)
  }

  /** What is shown stays answerable: however many newer frames come, the frame for that time stays the same. */
  lemma {:induction false} ShownStays(ops: seq<Op>, show: Op, more: seq<Op>, t: nat, i: nat)
    requires Shows(ops, show, t) && Following(ops, show, more, t) && i <= |more|
    ensures var s := Play(ops + [show] + more[..i]).state;
            && FrameAt(s.frames, t) == FrameAt(Play(ops).state.frames, t)
            && s.protectedAt == t && (show.emittingHold ==> s.holdPin == t)
    decreases i
  {
    hide FrameAt, Save, Continued, Cutoff, Full, Increasing, Later, Pinning;
    var run := ops + [show] + more[..i];
    if i == 0 {
      assert run[..|run| - 1] == ops && run[|run| - 1] == show;
      PinningExactly(ops);
    } else {
      ShownStays(ops, show, more, t, i - 1);
      assert run[..|run| - 1] == ops + [show] + more[..i - 1] && run[|run| - 1] == more[i - 1];
      EveryRunIncreasing(ops + [show] + more[..i - 1]);
      if more[i - 1].Sample? {
        PinnedSave(Play(ops + [show] + more[..i - 1]).state, more[i - 1].frame, more[i - 1].history);
      }
    }
  }
}
