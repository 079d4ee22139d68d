/** When samples are taken. */
module PreviewAsked {
  // The delay in nanoseconds, the time asked for, and the render callbacks that lead to a saved frame, said on the
  // numbers and on what was told.

  import opened Options
  import opened PreviewHistory
  import opened PreviewTiming

  /** A delay of up to an hour is taken to the nanosecond, a longer one as an hour, anything else as none. */
  lemma DelayExactly(s: Seconds)
    ensures var n := DelayNs(s);
            if s.NotFinite? || s.value <= 0.0 then n == 0
            else if s.value > 3600.0 then n == 3_600_000_000_000
            else n as real <= s.value * 1_000_000_000.0 < n as real + 1.0
  {
  }

  /** The time asked for is the delay back from now, or the start of the clock. */
  lemma TargetExactly(now: nat, s: Seconds)
    requires s.Finite? && 0.0 <= s.value <= 3600.0
    ensures var t := TargetNs(now, s); var back := now as real - s.value * 1_000_000_000.0;
            if back >= 0.0 then back <= t as real < back + 1.0 else t == 0
  {
    DelayExactly(s);
  }

  /** Playback was last told to be paused. */
  predicate Paused(events: seq<Event>) {
    events != [] &&
    match events[|events| - 1]
    case Told(paused, _, _, _, _) => paused
    case Drawn(_) => Paused(events[..|events| - 1])
  }

  lemma ReadBackSwitches(kept: State, pending: nat, image: Option<nat>, history: nat)
    ensures ReadBack(kept, pending, image, history).suspended == kept.suspended
  {
    hide Save;
    if pending != 0 && image.Some? {
      SavePins(kept, Frame(pending, image.value), history);
    }
  }

  lemma {:induction false} PausedExactly(events: seq<Event>)
    ensures Drive(events).kept.suspended <==> Paused(events)
  {
    hide ReadBack;
    if events != [] {
      PausedExactly(events[..|events| - 1]);
      var c := Drive(events[..|events| - 1]);
      if events[|events| - 1].Drawn? {
        ReadBackSwitches(c.kept, c.pending, events[|events| - 1].render.image, events[|events| - 1].render.history);
      }
    }
  }

  /** A callback that begins a frame which is due: the clock stepped back, nothing was sampled yet, or half a second has
      passed since the last sample. */
  predicate Sampling(c: Cadence, at: nat) {
    at != 0 && at != c.lastFrame && (at < c.lastFrame || c.lastSample == 0 || at >= c.lastSample + 500_000_000)
  }

  /** A callback stages a sample exactly when playback is not paused, the frame is due and the copy was made; a second
      callback for the same frame changes nothing. */
  lemma DrawExactly(events: seq<Event>, r: Render)
    ensures var c := Drive(events); var after := Drive(events + [Drawn(r)]);
            if r.at == 0 || r.at == c.cadence.lastFrame then after == c
            else
              && after.pending == (if !Paused(events) && Sampling(c.cadence, r.at) && r.staged then r.at else 0)
              && after.kept == ReadBack(c.kept, c.pending, r.image, r.history)
  {
    hide ReadBack;
    assert (events + [Drawn(r)])[..|events|] == events;
    PausedExactly(events);
  }

  /** A staged frame is the newest of the history once the next frame reads it back, unless a pinned history is full. */
  lemma StagedIsSaved(kept: State, pending: nat, image: nat, history: nat)
    requires pending != 0
    ensures var saved := Frame(pending, image); var f := ReadBack(kept, pending, Some(image), history).frames;
            (Full(kept, saved, history) && kept.protectedAt != 0) || (f != [] && f[|f| - 1] == saved)
  {
    hide Trim, Full;
  }
}
