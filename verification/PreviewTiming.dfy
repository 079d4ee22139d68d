/** The preview's cadence and target. */
module PreviewTiming {
  import opened Options
  import opened PreviewHistory

  const WORD: nat := 0x1_0000_0000

  // ---------------------------------------------------------------------
  // Target and history length

  /** A double as the telemetry delivers it. */
  datatype Seconds = Finite(value: real) | NotFinite

  function DelayNs(s: Seconds): nat {
    match s
    case NotFinite => 0
    case Finite(v) =>
      if v <= 0.0 then 0
      else if v <= LONGEST_SECONDS as real then (v * NS as real).Floor
      else LONGEST_SECONDS * NS
  }

  function TargetNs(now: nat, s: Seconds): nat { now - Min(now, DelayNs(s)) }

  /** Unsigned 32-bit: the sum wraps. */
  function HistorySeconds(configured: nat, s: Seconds): nat {
    var rounded := (DelayNs(s) + NS - 1) / NS;
    ((if configured >= rounded then configured else rounded) + 3) % WORD
  }

  function Clamped(seconds: nat): nat {
    if seconds < 3 then 3 else if seconds > LONGEST_SECONDS + 3 then LONGEST_SECONDS + 3 else seconds
  }

  lemma DelayBound(s: Seconds)
    ensures DelayNs(s) <= LONGEST_SECONDS * NS
  {
    if s.Finite? && 0.0 < s.value <= LONGEST_SECONDS as real {
      assert s.value * NS as real <= LONGEST_SECONDS as real * NS as real;
    }
  }

  /** The kept history is at least three seconds longer than the delay. */
  lemma HistoryCovers(configured: nat, s: Seconds)
    requires configured + 3 < WORD
    ensures Clamped(HistorySeconds(configured, s)) * NS >= DelayNs(s) + 3 * NS
  {
    DelayBound(s);
    var rounded := (DelayNs(s) + NS - 1) / NS;
    assert rounded * NS >= DelayNs(s) && rounded <= LONGEST_SECONDS;
    var chosen := if configured >= rounded then configured else rounded;
    assert HistorySeconds(configured, s) == chosen + 3;
    assert Clamped(chosen + 3) >= rounded + 3;
  }

  /** Without the bound the 32-bit sum wraps and the frame to show may be trimmed. */
  lemma HistoryWraps(configured: nat, s: Seconds)
    requires WORD - 3 <= configured < WORD
    ensures Clamped(HistorySeconds(configured, s)) == 3
    ensures DelayNs(s) > 0 ==> Clamped(HistorySeconds(configured, s)) * NS < DelayNs(s) + 3 * NS
  {
    DelayBound(s);
    var rounded := (DelayNs(s) + NS - 1) / NS;
    assert rounded <= LONGEST_SECONDS;
    assert HistorySeconds(configured, s) == configured + 3 - WORD;
  }

  /** Every sample so far was taken at most three seconds after `now`, with at least this much history kept. */
  predicate Recent(ops: seq<Op>, now: nat, kept: nat) {
    forall i :: 0 <= i < |ops| && ops[i].Sample? ==> ops[i].frame.at <= now + 3 * NS && ops[i].history >= kept
  }

  lemma {:induction false} CutoffBound(ops: seq<Op>, now: nat, kept: nat, target: nat)
    requires Recent(ops, now, kept) && target + kept * NS >= now + 3 * NS
    ensures Play(ops).cutoff <= target
  {
    hide Save, SetPlayback, Continued, Full;
    if ops != [] {
      CutoffBound(ops[..|ops| - 1], now, kept, target);
      var op := ops[|ops| - 1];
      if op.Sample? {
        assert op.history * NS >= kept * NS;
      }
    }
  }

  /** The frame the preview asks for is the one the untrimmed history would give. */
  lemma TargetAnswered(ops: seq<Op>, now: nat, configured: nat, s: Seconds)
    requires configured + 3 < WORD && !Play(ops).capped
    requires Recent(ops, now, Clamped(HistorySeconds(configured, s)))
    ensures FrameAt(Play(ops).state.frames, TargetNs(now, s)) == FrameAt(Play(ops).full, TargetNs(now, s))
  {
    hide Play, FrameAt, Clamped, HistorySeconds, DelayNs;
    var kept := Clamped(HistorySeconds(configured, s));
    HistoryCovers(configured, s);
    CutoffBound(ops, now, kept, TargetNs(now, s));
    TrimmedAnswers(ops, TargetNs(now, s));
  }

  // ---------------------------------------------------------------------
  // Cadence

  datatype Cadence = Cadence(lastFrame: nat, lastSample: nat)

  /** The callback runs once for each video mix; only the first of a frame begins it. */
  predicate Begins(c: Cadence, at: nat) { at != 0 && at != c.lastFrame }

  function Begun(c: Cadence, at: nat): Cadence {
    if Begins(c, at) then Cadence(at, if at < c.lastFrame then 0 else c.lastSample) else c
  }

  predicate Due(c: Cadence, at: nat) {
    c.lastSample == 0 || (at >= c.lastSample && at - c.lastSample >= INTERVAL)
  }

  /** The cadence, the capture time waiting for readback (zero for none), and the history. */
  datatype Capture = Capture(cadence: Cadence, pending: nat, kept: State)

  /** One rendered frame: its time, the history length, the pixels read back, and whether the copy was staged. */
  datatype Render = Render(at: nat, history: nat, image: Option<nat>, staged: bool)

  datatype Event =
    | Told(paused: bool, emittingHold: bool, emittingDelayed: bool, emittedAt: nat, bufferStart: nat)
    | Drawn(render: Render)

  /** Reading back the pending frame saves it unless the readback failed. */
  function ReadBack(kept: State, pending: nat, image: Option<nat>, history: nat): State {
    if pending == 0 || image.None? then kept else Save(kept, Frame(pending, image.value), history)
  }

  function Draw(c: Capture, r: Render): Capture {
    if !Begins(c.cadence, r.at) then c
    else
      var cadence, kept := Begun(c.cadence, r.at), ReadBack(c.kept, c.pending, r.image, r.history);
      if c.kept.suspended || !Due(cadence, r.at) then Capture(cadence, 0, kept)
      else Capture(cadence.(lastSample := r.at), if r.staged then r.at else 0, kept)
  }

  function Happened(c: Capture, e: Event): Capture {
    match e
    case Told(paused, hold, delayed, emittedAt, start) =>
      c.(kept := SetPlayback(c.kept, paused, hold, delayed, emittedAt, start))
    case Drawn(r) => Draw(c, r)
  }

  function Drive(events: seq<Event>): Capture {
    if events == [] then Capture(Cadence(0, 0), 0, START)
    else Happened(Drive(events[..|events| - 1]), events[|events| - 1])
  }

  /** The render clock never steps back and nothing is protected. */
  predicate Steady(events: seq<Event>) {
    events == [] ||
    (var before, e := Drive(events[..|events| - 1]), events[|events| - 1];
     && Steady(events[..|events| - 1]) && before.kept.protectedAt == 0
     && (e.Drawn? ==> e.render.at == 0 || e.render.at >= before.cadence.lastFrame))
  }

  function Newest(f: Frames): nat { if f == [] then 0 else f[|f| - 1].at }

  predicate Paced(c: Capture) {
    && Spaced(c.kept.frames) && Newest(c.kept.frames) <= c.cadence.lastSample <= c.cadence.lastFrame
    && (c.kept.frames != [] ==> Newest(c.kept.frames) > 0)
    && (c.pending != 0 ==> c.pending == c.cadence.lastSample)
    && (c.pending != 0 && c.kept.frames != [] ==> Newest(c.kept.frames) + INTERVAL <= c.pending)
  }

  lemma ReadBackPaced(c: Capture, r: Render)
    requires Paced(c) && c.kept.protectedAt == 0
    ensures var kept := ReadBack(c.kept, c.pending, r.image, r.history);
            && Spaced(kept.frames) && Newest(kept.frames) <= c.cadence.lastSample
            && (kept.frames != [] ==> Newest(kept.frames) > 0) && kept.protectedAt == 0
            && kept.suspended == c.kept.suspended
    ensures c.pending != 0 && r.image.Some? ==> !Full(c.kept, Frame(c.pending, r.image.value), r.history)
  {
    hide Full, Trim, Continued;
    if c.pending != 0 && r.image.Some? {
      CapUnreached(c.kept, Frame(c.pending, r.image.value), r.history);
    }
  }

  lemma DrawPaced(c: Capture, r: Render)
    requires Paced(c) && c.kept.protectedAt == 0 && (r.at == 0 || r.at >= c.cadence.lastFrame)
    ensures Paced(Draw(c, r))
  {
    hide ReadBack, Spaced;
    ReadBackPaced(c, r);
  }

  /** On an advancing clock with nothing protected, the kept frames stay an interval apart. */
  lemma {:induction false} EveryRunPaced(events: seq<Event>)
    requires Steady(events)
    ensures Paced(Drive(events))
  {
    hide Draw;
    if events != [] {
      var before, e := Drive(events[..|events| - 1]), events[|events| - 1];
      EveryRunPaced(events[..|events| - 1]);
      if e.Drawn? {
        DrawPaced(before, e.render);
      }
    }
  }

  /** Such a run never fills the cap, whatever the history lengths: no frame is dropped or refused for it. */
  lemma CapNeverReached(events: seq<Event>, r: Render)
    requires Steady(events) && Drive(events).kept.protectedAt == 0 && Drive(events).pending != 0 && r.image.Some?
    ensures var c := Drive(events); !Full(c.kept, Frame(c.pending, r.image.value), r.history)
  {
    hide Drive, Full, Paced;
    EveryRunPaced(events);
    ReadBackPaced(Drive(events), r);
  }

  // ---------------------------------------------------------------------
  // A clock that steps back

  /** No later than the newest frame, which starts the history over, or an interval after it. */
  predicate Fits(f: Frames, at: nat) {
    f == [] || at <= Newest(f) || at >= Newest(f) + INTERVAL
  }

  lemma {:induction false} TrimKeepsLast(f: Frames, cutoff: nat)
    ensures var r := Trim(f, cutoff); (r == [] <==> f == []) && (f != [] ==> r[|r| - 1] == f[|f| - 1])
    decreases |f|
  {
    if |f| > 1 && f[1].at <= cutoff {
      TrimKeepsLast(f[1..], cutoff);
    }
  }

  /** While nothing is protected, a saved frame leaves a spaced history spaced exactly when it fits, and it never
      meets the cap then. */
  lemma SaveSpacedExactly(s: State, saved: Frame, history: nat)
    requires Spaced(s.frames) && s.protectedAt == 0
    ensures var f := Save(s, saved, history).frames;
            && f != [] && f[|f| - 1] == saved && (Spaced(f) <==> Fits(s.frames, saved.at))
    ensures Fits(s.frames, saved.at) ==> !Full(s, saved, history)
  {
    hide Trim, Full;
    AlwaysAppended(s, saved, history);
    if Fits(s.frames, saved.at) {
      CapUnreached(s, saved, history);
    } else {
      TooClose(s, saved, history);
    }
  }

  lemma AlwaysAppended(s: State, saved: Frame, history: nat)
    requires s.protectedAt == 0
    ensures var f := Save(s, saved, history).frames; f != [] && f[|f| - 1] == saved
  {
  }

  /** The newest kept frame survives the trim and the cap, so a frame too close to it stays next to it. */
  lemma TooClose(s: State, saved: Frame, history: nat)
    requires s.protectedAt == 0 && !Fits(s.frames, saved.at)
    ensures !Spaced(Save(s, saved, history).frames)
  {
    hide Trim;
    var kept := Trim(s.frames, Cutoff(s, saved.at, history));
    TrimKeepsLast(s.frames, Cutoff(s, saved.at, history));
    var f := Save(s, saved, history).frames;
    assert |f| > 1 && f[|f| - 2] == kept[|kept| - 1];
    assert f[|f| - 1].at < f[|f| - 2].at + INTERVAL;
  }

  /** Whether this frame takes a sample that reaches the staging surface. */
  predicate Samples(c: Capture, r: Render) {
    Begins(c.cadence, r.at) && !c.kept.suspended && Due(Begun(c.cadence, r.at), r.at) && r.staged
  }

  /** The newest frame once the pending one is read back; none when nothing is kept then. */
  function NewestRead(c: Capture, image: Option<nat>): Option<nat> {
    if c.pending != 0 && image.Some? then Some(c.pending)
    else if c.kept.frames == [] then None
    else Some(Newest(c.kept.frames))
  }

  /** A sample taken now would fit behind what is kept by then. */
  predicate SampleFits(c: Capture, r: Render) {
    var newest := NewestRead(c, r.image);
    newest.None? || r.at <= newest.value || r.at >= newest.value + INTERVAL
  }

  /** Spaced frames, and a pending one that fits behind them. */
  predicate Fitting(c: Capture) {
    Spaced(c.kept.frames) && (c.pending != 0 ==> Fits(c.kept.frames, c.pending))
  }

  lemma ReadBackFits(c: Capture, r: Render)
    requires Fitting(c) && c.kept.protectedAt == 0
    ensures var kept := ReadBack(c.kept, c.pending, r.image, r.history);
            && Spaced(kept.frames) && kept.protectedAt == 0 && kept.suspended == c.kept.suspended
            && (Fits(kept.frames, r.at) <==> SampleFits(c, r))
    ensures c.pending != 0 && r.image.Some? ==> !Full(c.kept, Frame(c.pending, r.image.value), r.history)
  {
    hide Save, Spaced, Full;
    if c.pending != 0 && r.image.Some? {
      SaveSpacedExactly(c.kept, Frame(c.pending, r.image.value), r.history);
      SameSwitches(c.kept, Frame(c.pending, r.image.value), r.history);
    }
  }

  lemma SameSwitches(s: State, saved: Frame, history: nat)
    ensures var r := Save(s, saved, history); r.protectedAt == s.protectedAt && r.suspended == s.suspended
  {
    hide Trim, Full;
  }

  /** A sample and the next rendered frame, from a spaced history with nothing protected: the frames stay spaced
      exactly when the sample fits. A step back forces a sample, so it is the step's target that has to fit. */
  lemma SampleSpacedExactly(c: Capture, r: Render, next: Render)
    requires Fitting(c) && c.kept.protectedAt == 0 && Samples(c, r)
    requires next.at != 0 && next.at != r.at && next.image.Some?
    ensures Spaced(Draw(Draw(c, r), next).kept.frames) <==> SampleFits(c, r)
  {
    hide Save, Spaced, ReadBack, SampleFits, Fits;
    ReadBackFits(c, r);
    var before := Draw(c, r);
    SaveSpacedExactly(before.kept, Frame(r.at, next.image.value), next.history);
    ReadSaves(before, next);
  }

  lemma ReadSaves(c: Capture, r: Render)
    requires c.pending != 0 && r.image.Some? && Begins(c.cadence, r.at)
    ensures Draw(c, r).kept == Save(c.kept, Frame(c.pending, r.image.value), r.history)
  {
    hide Save;
  }

  /** Every step back of a running capture is a sample. */
  lemma StepBackSamples(c: Capture, r: Render)
    requires 0 < r.at < c.cadence.lastFrame && !c.kept.suspended && r.staged
    ensures Samples(c, r)
  {
  }

  /** Nothing is protected, and every sample fits, wherever the clock goes. */
  predicate Sober(events: seq<Event>) {
    events == [] ||
    (var before, e := Drive(events[..|events| - 1]), events[|events| - 1];
     && Sober(events[..|events| - 1]) && before.kept.protectedAt == 0
     && (e.Drawn? && Samples(before, e.render) ==> SampleFits(before, e.render)))
  }

  lemma DrawFits(c: Capture, r: Render)
    requires Fitting(c) && c.kept.protectedAt == 0 && (Samples(c, r) ==> SampleFits(c, r))
    ensures Fitting(Draw(c, r))
  {
    hide ReadBack, Spaced, SampleFits, Fits;
    ReadBackFits(c, r);
  }

  /** Over every such run, steps back included, the kept frames stay an interval apart. */
  lemma {:induction false} EverySoberRun(events: seq<Event>)
    requires Sober(events)
    ensures Fitting(Drive(events))
  {
    hide Draw, SampleFits, Samples, Fits;
    if events != [] {
      var before, e := Drive(events[..|events| - 1]), events[|events| - 1];
      EverySoberRun(events[..|events| - 1]);
      if e.Drawn? {
        DrawFits(before, e.render);
      }
    }
  }

  /** And none of them fills the cap. */
  lemma SoberCap(events: seq<Event>, r: Render)
    requires Sober(events) && Drive(events).kept.protectedAt == 0 && Drive(events).pending != 0 && r.image.Some?
    ensures var c := Drive(events); !Full(c.kept, Frame(c.pending, r.image.value), r.history)
  {
    hide Drive, Full, Fitting, Sober;
    EverySoberRun(events);
    ReadBackFits(Drive(events), r);
  }

  // ---------------------------------------------------------------------
  // Crowding

  lemma DriveOn(events: seq<Event>, e: Event)
    ensures Drive(events + [e]) == Happened(Drive(events), e)
  {
    assert (events + [e])[..|events|] == events;
  }

  function Shown(at: nat, history: nat): Event { Drawn(Render(at, history, Some(7), true)) }

  /** Four nanoseconds on, two back, over and over. */
  function Zigzag(history: nat, n: nat): seq<Event> {
    if n == 0 then [] + [Shown(10, history)]
    else Zigzag(history, n - 1) + [Shown(12 + 2 * n, history)] + [Shown(10 + 2 * n, history)]
  }

  function Crowd(n: nat): Frames { seq(n, i requires 0 <= i => Frame(10 + 2 * i, 7)) }

  lemma CrowdGrows(n: nat, history: nat)
    requires history > 0 && n < Capacity(history)
    ensures Save(START.(frames := Crowd(n)), Frame(10 + 2 * n, 7), history) == START.(frames := Crowd(n + 1))
  {
    CrowdUncut(n, history);
    assert Crowd(n) + [Frame(10 + 2 * n, 7)] == Crowd(n + 1);
  }

  lemma CrowdUncut(n: nat, history: nat)
    requires history > 0 && n <= Capacity(history)
    ensures var s := START.(frames := Crowd(n));
            && Continued(s.frames, Frame(10 + 2 * n, 7)) == s.frames && Cutoff(s, 10 + 2 * n, history) == 0
            && Trim(s.frames, 0) == s.frames
  {
  }

  lemma {:induction false} ZigzagCrowds(history: nat, n: nat)
    requires history > 0 && n <= Capacity(history)
    ensures Drive(Zigzag(history, n)) == Capture(Cadence(10 + 2 * n, 10 + 2 * n), 10 + 2 * n, START.(frames := Crowd(n)))
  {
    hide Save, Zigzag, Crowd;
    if n == 0 {
      ZigzagStarts(history);
    } else {
      ZigzagCrowds(history, n - 1);
      CrowdGrows(n - 1, history);
      ZigzagMore(history, n);
    }
  }

  lemma ZigzagStarts(history: nat)
    ensures Drive(Zigzag(history, 0)) == Capture(Cadence(10, 10), 10, START.(frames := Crowd(0)))
  {
    DriveOn([], Shown(10, history));
    assert Drive([]) == Capture(Cadence(0, 0), 0, START);
    assert Crowd(0) == [];
  }

  lemma ZigzagMore(history: nat, n: nat)
    requires n > 0
    requires Drive(Zigzag(history, n - 1)) == Capture(Cadence(8 + 2 * n, 8 + 2 * n), 8 + 2 * n, START.(frames := Crowd(n - 1)))
    requires Save(START.(frames := Crowd(n - 1)), Frame(8 + 2 * n, 7), history) == START.(frames := Crowd(n))
    ensures Drive(Zigzag(history, n)) == Capture(Cadence(10 + 2 * n, 10 + 2 * n), 10 + 2 * n, START.(frames := Crowd(n)))
  {
    hide Save, Crowd, Drive;
    var before := Zigzag(history, n - 1);
    DriveOn(before, Shown(12 + 2 * n, history));
    DriveOn(before + [Shown(12 + 2 * n, history)], Shown(10 + 2 * n, history));
  }

  /** Short steps back, again and again, crowd the frames until the cap is hit, whatever the history's length. */
  lemma CrowdingFillsCap(history: nat)
    requires history > 0
    ensures var c := Drive(Zigzag(history, Capacity(history)));
            && c.kept.protectedAt == 0 && c.pending != 0 && Full(c.kept, Frame(c.pending, 7), history)
  {
    hide Drive, Zigzag, Trim, Continued, Cutoff;
    ZigzagCrowds(history, Capacity(history));
    CrowdUncut(Capacity(history), history);
  }

  /** A backward step shorter than the interval resets the cadence but not the history, so frames crowd. */
  lemma BackwardStepCrowds()
    ensures exists events :: !Spaced(Drive(events).kept.frames)
  {
    hide Drive, Zigzag;
    ZigzagCrowds(3, 2);
    var f := Drive(Zigzag(3, 2)).kept.frames;
    assert f[1].at < f[0].at + INTERVAL;
  }
}
