/** Gaps are made up for. */
module PcmCorrection {
  // A block that starts later than the one before it ended is preceded by that much silence; of one that starts
  // earlier that much is left out. How much follows from the two timestamps and the rate alone.

  import opened Options
  import opened PcmCursor
  import opened PcmMoves
  import opened PcmDrift

  /** Nearest number of frames to a time. */
  predicate Nearest(n: int, ns: nat, rate: nat) {
    -(NS as int) <= 2 * (n * NS - ns * rate) <= NS
  }

  /** The times are far enough apart to be corrected: a nanosecond, and all but a frame's whole nanoseconds. */
  predicate Apart(ns: nat, rate: nat) { ns >= 1 && (ns + 1) * rate > NS }

  /** So few frames that nothing saturates. */
  predicate Countable(ns: nat, rate: nat) { ns * rate + NS <= I64_MAX * NS }

  /** Where the next block is due after one. */
  function Due(timestamp: nat, rate: nat): nat
    requires rate > 0
  {
    Min(timestamp + FRAMES * NS / rate, U64_MAX)
  }

  lemma NearRounded(x: nat)
    ensures var q := (x + NS / 2) / NS; -(NS as int) <= 2 * (q * NS - x) <= NS
  {
  }

  lemma WholeSeconds(ns: nat, rate: nat)
    ensures ns * rate == ns / NS * rate * NS + ns % NS * rate
  {
    var q, r := ns / NS, ns % NS;
    assert ns == q * NS + r;
    assert ns * rate == q * NS * rate + r * rate;
    assert q * NS * rate == q * rate * NS;
  }

  lemma WholeBelow(whole: nat, rate: nat, limit: nat)
    requires rate > 0 && whole * rate <= limit
    ensures whole <= limit / rate
  {
    var q := limit / rate;
    assert limit < (q + 1) * rate;
    ProductRises(q + 1, whole, rate);
  }

  lemma ProductRises(a: nat, b: nat, rate: nat)
    ensures a <= b ==> a * rate <= b * rate
  {
  }

  lemma FramesNear(ns: nat, rate: nat)
    requires rate > 0 && Countable(ns, rate)
    ensures var n := FramesForNs(ns, rate); Nearest(n, ns, rate) && n <= I64_MAX
  {
    WholeSeconds(ns, rate);
    var whole, x := ns / NS * rate, ns % NS * rate;
    NearRounded(x);
    Scaled(whole, x, ns * rate);
    WholeBelow(ns / NS, rate, U64_MAX);
  }

  lemma Scaled(whole: nat, x: nat, total: nat)
    requires total == whole * NS + x && total + NS <= I64_MAX * NS
    ensures var n := whole + (x + NS / 2) / NS; -(NS as int) <= 2 * (n * NS - total) <= NS && n <= I64_MAX && whole <= U64_MAX
  {
    NearRounded(x);
  }

  lemma DeltaNear(expected: nat, actual: nat, rate: nat)
    requires rate > 0
    ensures actual >= expected && Countable(actual - expected, rate) ==>
              DeltaFrames(expected, actual, rate) >= 0 && Nearest(DeltaFrames(expected, actual, rate), actual - expected, rate)
    ensures actual < expected && Countable(expected - actual, rate) ==>
              DeltaFrames(expected, actual, rate) <= 0 && Nearest(-DeltaFrames(expected, actual, rate), expected - actual, rate)
  {
    hide FramesForNs, Countable;
    if actual >= expected && Countable(actual - expected, rate) {
      FramesNear(actual - expected, rate);
    }
    if actual < expected && Countable(expected - actual, rate) {
      FramesNear(expected - actual, rate);
    }
  }

  lemma ApartBreaks(expected: nat, actual: nat, rate: nat)
    requires rate > 0
    ensures var ns := if actual >= expected then actual - expected else expected - actual;
            expected != 0 ==> (Contiguous(expected, actual, rate) <==> !Apart(ns, rate))
  {
    var ns := if actual >= expected then actual - expected else expected - actual;
    FramesToNsIs(1, rate);
    FloorBelow(ns, rate);
  }

  lemma FloorBelow(ns: nat, rate: nat)
    requires rate > 0
    ensures NS / rate <= ns <==> (ns + 1) * rate > NS
  {
    var q, r := NS / rate, NS % rate;
    assert NS == q * rate + r;
    if q <= ns {
      assert (ns + 1) * rate >= (q + 1) * rate;
    } else {
      assert (ns + 1) * rate <= q * rate;
    }
  }

  // ---------------------------------------------------------------------
  // When the next block is due, over every run

  /** The blocks queued are the next of the stream, and after an uninterrupted block the next one is due at its end. */
  predicate Expecting(w: Window, blocks: seq<Block>, rate: nat)
    requires rate > 0
  {
    && w.popped + |w.queue| <= |blocks| && w.queue == blocks[w.popped..w.popped + |w.queue|]
    && (w.cursor.continuity ==> 0 < w.popped && w.cursor.expected == Due(blocks[w.popped - 1].timestamp, rate))
  }

  lemma PopExpects(w: Window, r: Window, blocks: seq<Block>, rate: nat)
    requires rate > 0 && Expecting(w, blocks, rate) && w.queue != [] && r.queue == w.queue[1..] && r.popped == w.popped + 1
    requires r.cursor.continuity ==> r.cursor.expected == Due(w.queue[0].timestamp, rate)
    ensures Expecting(r, blocks, rate)
  {
    hide Due;
    assert w.queue[0] == blocks[w.popped];
  }

  lemma FinishExpects(w: Window, blocks: seq<Block>, rate: nat)
    requires rate > 0 && Expecting(w, blocks, rate) && w.queue != []
    ensures Expecting(FinishBlock(w, rate), blocks, rate)
  {
    hide FramesToNs;
    FramesToNsIs(FRAMES, rate);
    PopExpects(w, FinishBlock(w, rate), blocks, rate);
  }

  lemma CopyExpects(w: Window, rate: nat, out: nat, blocks: seq<Block>)
    requires rate > 0 && Shaped(w) && w.queue != [] && |w.window| < out && Expecting(w, blocks, rate)
    ensures Expecting(CopyBlock(w, rate, out).after, blocks, rate)
  {
    hide FinishBlock, Due, Copied;
    var frames := Min(FRAMES - w.cursor.sourceOffset, out - |w.window|);
    var copied := w.(window := w.window + Copied(Position(w), frames),
                     cursor := w.cursor.(sourceOffset := w.cursor.sourceOffset + frames));
    FinishExpects(copied, blocks, rate);
  }

  lemma SkipExpects(w: Window, rate: nat, out: nat, blocks: seq<Block>)
    requires rate > 0 && Shaped(w) && w.queue != [] && |w.window| < out && Expecting(w, blocks, rate)
    ensures Expecting(SkipBlock(w, rate, out).after, blocks, rate)
  {
    hide FinishBlock, Due, CopyBlock;
    var c := w.cursor;
    var skip := if c.alignmentPending && c.pending < 0 then Min(-c.pending, FRAMES - c.sourceOffset) else 0;
    var skipped := w.(cursor := c.(sourceOffset := c.sourceOffset + skip, pending := c.pending + skip));
    FinishExpects(skipped, blocks, rate);
    if !(skip > 0 && skipped.cursor.sourceOffset == FRAMES) {
      CopyExpects(skipped.(cursor := skipped.cursor.(alignmentPending := false, pending := 0, aligned := true)), rate, out, blocks);
    }
  }

  lemma TurnExpects(w: Window, rate: nat, out: nat, blocks: seq<Block>)
    requires rate > 0 && Shaped(w) && |w.window| < out && Expecting(w, blocks, rate)
    ensures Expecting(OneTurn(w, rate, out).after, blocks, rate)
  {
    hide CopyBlock, SkipBlock, Due, Usable, DeltaFrames, Contiguous;
    var primed := w.(cursor := w.cursor.(primed := true));
    if MustWait(w) || w.queue == [] {
    } else if !Usable(w.queue[0], rate) {
      PopExpects(w, Reject(primed), blocks, rate);
    } else if w.cursor.aligned {
      CopyExpects(primed, rate, out, blocks);
    } else {
      var quiet := Quiet(primed.(cursor := LoadAlignment(primed.cursor, w.queue[0], rate)), out);
      if |quiet.window| < out {
        SkipExpects(quiet, rate, out, blocks);
      }
    }
  }

  lemma {:induction false} EveryLoopExpects(events: seq<Event>, blocks: seq<Block>, rate: nat)
    requires rate > 0
    ensures Expecting(Looped(events, blocks, rate).m.w, blocks, rate)
  {
    hide OneTurn, Due;
    if events != [] {
      var before := Looped(events[..|events| - 1], blocks, rate);
      EveryLoopExpects(events[..|events| - 1], blocks, rate);
      TookExpects(before, events[|events| - 1], blocks, rate);
    }
  }

  lemma TookExpects(l: Loop, event: Event, blocks: seq<Block>, rate: nat)
    requires l.Valid() && rate > 0 && Expecting(l.m.w, blocks, rate)
    ensures Expecting(Took(l, event, blocks, rate).m.w, blocks, rate)
  {
    hide OneTurn, Due;
    match event
    case Push =>
      var w := l.m.w;
      var next := w.popped + |w.queue|;
      if next < |blocks| {
        assert w.queue + [blocks[next]] == blocks[w.popped..next + 1];
      }
    case Call(out) =>
    case Iterate =>
      if l.call.Some? {
        TurnExpects(l.m.w, rate, l.call.value, blocks);
      }
  }

  // ---------------------------------------------------------------------
  // What is heard from a block on

  /** Silence, then source frames one after another. */
  function Heard(silence: nat, from: nat, n: nat): (r: seq<Option<nat>>)
    ensures |r| == n
  {
    seq(n, i requires 0 <= i => if i < silence then None else Some(from + i - silence))
  }

  lemma HeardCopies(silence: nat, from: nat, n: nat, frames: nat)
    requires n >= silence
    ensures Heard(silence, from, n) + Copied(from + n - silence, frames) == Heard(silence, from, n + frames)
  {
  }

  lemma HeardSilence(silence: nat, from: nat, n: nat, more: nat)
    requires n + more <= silence
    ensures Heard(silence, from, n) + Silence(more) == Heard(silence, from, n + more)
  {
  }

  /** Forward run of the loop. */
  function Ran(l: Loop, events: seq<Event>, blocks: seq<Block>, rate: nat): (r: Loop)
    requires l.Valid() && rate > 0
    ensures r.Valid()
    decreases |events|
  {
    if events == [] then l else Ran(Took(l, events[0], blocks, rate), events[1..], blocks, rate)
  }

  /** The blocks from a position on are usable and uninterrupted. */
  predicate Goes(blocks: seq<Block>, k: nat, rate: nat) {
    k <= |blocks| && Chained(blocks[k..], rate)
  }

  /** What was written since, and where the cursor stands: before the correction, within it, or past it. */
  predicate Stands(w: Window, written: seq<Option<nat>>, silence: nat, from: nat) {
    var c, n := w.cursor, |written|;
    && c.primed && written == Heard(silence, from, n)
    && if c.alignmentPending then
         !c.aligned && n <= silence && (if c.pending >= 0 then Position(w) == from && c.pending == silence - n
                                        else n == silence == 0 && Position(w) - c.pending == from)
       else
         && n >= silence && Position(w) == from + n - silence
         && (!c.aligned ==> c.continuity && c.sourceOffset == 0)
  }

  /** What a turn writes. */
  function Added(w: Window, after: Window): seq<Option<nat>> {
    if |w.window| <= |after.window| then after.window[|w.window|..] else []
  }

  lemma CopyStands(w: Window, rate: nat, out: nat, written: seq<Option<nat>>, silence: nat, from: nat)
    requires Shaped(w) && w.queue != [] && |w.window| < out && Stands(w, written, silence, from)
    requires w.cursor.aligned && !w.cursor.alignmentPending
    ensures var after := CopyBlock(w, rate, out).after;
            after.window == w.window + Added(w, after) && Stands(after, written + Added(w, after), silence, from)
  {
    hide FramesToNs, Heard, Copied;
    var frames := Min(FRAMES - w.cursor.sourceOffset, out - |w.window|);
    var after := CopyBlock(w, rate, out).after;
    HeardCopies(silence, from, |written|, frames);
    assert Position(w) == from + |written| - silence;
    assert after.window == w.window + Copied(Position(w), frames);
    assert Added(w, after) == Copied(Position(w), frames);
  }

  lemma QuietStands(w: Window, out: nat, written: seq<Option<nat>>, silence: nat, from: nat)
    requires |w.window| < out && Stands(w, written, silence, from) && !w.cursor.aligned
    ensures var q := Quiet(w, out);
            && q.window == w.window + Added(w, q) && Stands(q, written + Added(w, q), silence, from) && !q.cursor.aligned
            && (|q.window| < out ==> !q.cursor.alignmentPending || q.cursor.pending <= 0)
  {
    hide Heard, Silence;
    var c := w.cursor;
    var quiet := if c.alignmentPending && c.pending > 0 then Min(c.pending, out - |w.window|) else 0;
    var q := Quiet(w, out);
    SilenceLength(quiet);
    assert Added(w, q) == Silence(quiet);
    if quiet > 0 {
      HeardSilence(silence, from, |written|, quiet);
    } else {
      assert Silence(quiet) == [] && written + [] == written && w.window + [] == w.window;
    }
  }

  /** Skipped frames come off the debt. */
  lemma SkippedStands(w: Window, skip: nat, written: seq<Option<nat>>, silence: nat, from: nat)
    requires Stands(w, written, silence, from) && !w.cursor.aligned && w.cursor.sourceOffset + skip <= FRAMES
    requires if w.cursor.alignmentPending then w.cursor.pending + skip <= 0 else skip == 0
    ensures Stands(w.(cursor := w.cursor.(sourceOffset := w.cursor.sourceOffset + skip, pending := w.cursor.pending + skip)),
                   written, silence, from)
  {
    hide Heard;
  }

  lemma UsedUpStands(w: Window, rate: nat, written: seq<Option<nat>>, silence: nat, from: nat)
    requires w.queue != [] && Stands(w, written, silence, from) && !w.cursor.aligned
    requires w.cursor.sourceOffset == FRAMES && w.cursor.alignmentPending && w.cursor.pending <= 0
    ensures var after := FinishBlock(w, rate); after.window == w.window && Stands(after, written, silence, from)
  {
    hide FramesToNs, Heard, SatAddNs;
  }

  lemma ReadyStands(w: Window, written: seq<Option<nat>>, silence: nat, from: nat)
    requires Stands(w, written, silence, from) && !w.cursor.aligned && (w.cursor.alignmentPending ==> w.cursor.pending == 0)
    ensures Stands(w.(cursor := w.cursor.(alignmentPending := false, pending := 0, aligned := true)), written, silence, from)
  {
    hide Heard;
  }

  lemma SkipStands(w: Window, rate: nat, out: nat, written: seq<Option<nat>>, silence: nat, from: nat)
    requires Shaped(w) && w.queue != [] && |w.window| < out && Stands(w, written, silence, from) && !w.cursor.aligned
    requires !w.cursor.alignmentPending || w.cursor.pending <= 0
    ensures var after := SkipBlock(w, rate, out).after;
            after.window == w.window + Added(w, after) && Stands(after, written + Added(w, after), silence, from)
  {
    hide FinishBlock, CopyBlock, Stands;
    var c := w.cursor;
    var skip := if c.alignmentPending && c.pending < 0 then Min(-c.pending, FRAMES - c.sourceOffset) else 0;
    var skipped := w.(cursor := c.(sourceOffset := c.sourceOffset + skip, pending := c.pending + skip));
    SkippedStands(w, skip, written, silence, from);
    if skip > 0 && skipped.cursor.sourceOffset == FRAMES {
      UsedUpStands(skipped, rate, written, silence, from);
      assert Added(w, FinishBlock(skipped, rate)) == [] && written + [] == written && w.window + [] == w.window;
    } else {
      ReadyStands(skipped, written, silence, from);
      CopyStands(skipped.(cursor := skipped.cursor.(alignmentPending := false, pending := 0, aligned := true)), rate, out,
                 written, silence, from);
    }
  }

  lemma AlignStands(w: Window, rate: nat, out: nat, written: seq<Option<nat>>, silence: nat, from: nat)
    requires Shaped(w) && w.queue != [] && rate > 0 && |w.window| < out && !w.cursor.aligned
    requires Stands(w.(cursor := LoadAlignment(w.cursor, w.queue[0], rate)), written, silence, from)
    ensures var after := AlignBlock(w, rate, out).after;
            after.window == w.window + Added(w, after) && Stands(after, written + Added(w, after), silence, from)
  {
    hide LoadAlignment, SkipBlock, Quiet, Stands;
    LoadKeeps(w.cursor, w.queue[0], rate);
    var loaded := w.(cursor := LoadAlignment(w.cursor, w.queue[0], rate));
    QuietStands(loaded, out, written, silence, from);
    QuietShape(loaded, out);
    var quiet := Quiet(loaded, out);
    if |quiet.window| < out {
      SkipStands(quiet, rate, out, written + Added(w, quiet), silence, from);
      var after := SkipBlock(quiet, rate, out).after;
      assert Added(w, after) == Added(w, quiet) + Added(quiet, after);
      assert written + Added(w, quiet) + Added(quiet, after) == written + Added(w, after);
    }
  }

  /** On the way from the start of block k: as long as that block waits, what it asks for is loaded or about to be. */
  predicate Ongoing(w: Window, written: seq<Option<nat>>, silence: nat, from: nat, k: nat, rate: nat)
    requires rate > 0
  {
    && w.cursor.primed && k <= w.popped
    && if w.popped == k && !w.cursor.aligned then
         w.queue != [] && Stands(w.(cursor := LoadAlignment(w.cursor, w.queue[0], rate)), written, silence, from)
       else Stands(w, written, silence, from)
  }

  /** Between two uninterrupted blocks nothing is loaded. */
  lemma GoesOn(w: Window, blocks: seq<Block>, k: nat, rate: nat)
    requires rate > 0 && Expecting(w, blocks, rate) && w.queue != [] && Goes(blocks, k, rate) && k < w.popped
    requires w.cursor.continuity && !w.cursor.aligned && !w.cursor.alignmentPending
    ensures LoadAlignment(w.cursor, w.queue[0], rate) == w.cursor
  {
    hide Contiguous, DeltaFrames, FramesToNs;
    FramesToNsIs(FRAMES, rate);
    var rest := blocks[k..];
    assert rest[w.popped - k - 1] == blocks[w.popped - 1] && rest[w.popped - k] == blocks[w.popped] == w.queue[0];
    assert Contiguous(Following(rest[w.popped - k - 1], rate), rest[w.popped - k].timestamp, rate);
  }

  lemma FrontUsable(w: Window, blocks: seq<Block>, k: nat, rate: nat)
    requires rate > 0 && Expecting(w, blocks, rate) && w.queue != [] && Goes(blocks, k, rate) && k <= w.popped
    ensures Usable(w.queue[0], rate)
  {
    assert blocks[k..][w.popped - k] == blocks[w.popped] == w.queue[0];
  }

  /** Every turn from there on keeps to what is to be heard, unless it runs dry. */
  lemma TurnStands(w: Window, rate: nat, out: nat, blocks: seq<Block>, k: nat, written: seq<Option<nat>>, silence: nat, from: nat)
    requires rate > 0 && Shaped(w) && |w.window| < out && Expecting(w, blocks, rate) && Goes(blocks, k, rate)
    requires Ongoing(w, written, silence, from, k, rate) && !OneTurn(w, rate, out).dry
    ensures var t := OneTurn(w, rate, out);
            && t.after.window == w.window + Added(w, t.after) && Stands(t.after, written + Added(w, t.after), silence, from)
            && (t.more || |t.after.window| == out) && w.queue != [] && Usable(w.queue[0], rate)
  {
    hide AlignBlock, CopyBlock, LoadAlignment, Goes, Usable, Stands;
    assert w.queue != [];
    FrontUsable(w, blocks, k, rate);
    assert w.(cursor := w.cursor.(primed := true)) == w;
    if w.cursor.aligned {
      AlignedPast(w, written, silence, from);
      CopyStands(w, rate, out, written, silence, from);
      CopyGoesOn(w, rate, out);
    } else {
      if w.popped > k {
        StandsLoads(w, blocks, k, rate, written, silence, from);
      }
      AlignStands(w, rate, out, written, silence, from);
      AlignGoesOn(w, rate, out);
    }
  }

  /** A turn that leaves the block waiting leaves its correction pending. */
  lemma WaitsPending(w: Window, rate: nat, out: nat)
    requires rate > 0 && Shaped(w) && |w.window| < out && w.queue != [] && Usable(w.queue[0], rate) && w.cursor.primed
    ensures var after := OneTurn(w, rate, out).after;
            && w.popped <= after.popped && after.cursor.primed
            && (after.popped == w.popped ==> after.queue == w.queue && (after.cursor.aligned || after.cursor.alignmentPending))
  {
    hide DeltaFrames, Contiguous, FramesToNs, SatAddNs, Copied;
  }

  lemma TurnOngoing(w: Window, rate: nat, out: nat, blocks: seq<Block>, k: nat, written: seq<Option<nat>>, silence: nat, from: nat)
    requires rate > 0 && Shaped(w) && |w.window| < out && Expecting(w, blocks, rate) && Goes(blocks, k, rate)
    requires Ongoing(w, written, silence, from, k, rate) && !OneTurn(w, rate, out).dry
    ensures var t := OneTurn(w, rate, out);
            && t.after.window == w.window + Added(w, t.after) && Ongoing(t.after, written + Added(w, t.after), silence, from, k, rate)
            && (t.more || |t.after.window| == out)
  {
    hide OneTurn, Goes, Usable, Stands, DeltaFrames, Contiguous;
    TurnStands(w, rate, out, blocks, k, written, silence, from);
    WaitsPending(w, rate, out);
  }

  lemma AlignedPast(w: Window, written: seq<Option<nat>>, silence: nat, from: nat)
    requires Stands(w, written, silence, from) && w.cursor.aligned
    ensures !w.cursor.alignmentPending
  {
  }

  lemma StandsLoads(w: Window, blocks: seq<Block>, k: nat, rate: nat, written: seq<Option<nat>>, silence: nat, from: nat)
    requires rate > 0 && Expecting(w, blocks, rate) && w.queue != [] && Goes(blocks, k, rate) && k < w.popped
    requires Stands(w, written, silence, from) && !w.cursor.aligned
    ensures LoadAlignment(w.cursor, w.queue[0], rate) == w.cursor
  {
    hide Contiguous, DeltaFrames, Goes, Expecting, Heard;
    if !w.cursor.alignmentPending {
      GoesOn(w, blocks, k, rate);
    }
  }

  // ---------------------------------------------------------------------
  // Any events

  predicate Keeps(l: Loop, base: seq<Option<nat>>, silence: nat, from: nat, k: nat, rate: nat)
    requires rate > 0
  {
    && base <= Written(l.m) && Ongoing(l.m.w, Written(l.m)[|base|..], silence, from, k, rate)
  }

  lemma TookKeeps(l: Loop, event: Event, blocks: seq<Block>, k: nat, base: seq<Option<nat>>, silence: nat, from: nat, rate: nat)
    requires l.Valid() && rate > 0 && Expecting(l.m.w, blocks, rate) && Goes(blocks, k, rate)
    requires Keeps(l, base, silence, from, k, rate) && !Took(l, event, blocks, rate).dry
    ensures Keeps(Took(l, event, blocks, rate), base, silence, from, k, rate)
  {
    hide OneTurn, Goes, Expecting, Stands, LoadAlignment;
    match event
    case Push =>
      var r := Took(l, Push, blocks, rate);
      PushOngoing(l.m.w, r.m.w, Written(l.m)[|base|..], silence, from, k, rate);
    case Call(out) =>
    case Iterate =>
      if l.call.Some? {
        var out := l.call.value;
        var t := OneTurn(l.m.w, rate, out);
        TurnWet(l, blocks, rate);
        TurnOngoing(l.m.w, rate, out, blocks, k, Written(l.m)[|base|..], silence, from);
        TookWrites(l, blocks, rate);
        var added := Added(l.m.w, t.after);
        assert (Written(l.m) + added)[|base|..] == Written(l.m)[|base|..] + added;
        var r := Took(l, Iterate, blocks, rate);
        assert Ongoing(r.m.w, Written(r.m)[|base|..], silence, from, k, rate) by {
          SameOngoing(t.after, r.m.w, Written(r.m)[|base|..], silence, from, k, rate);
        }
      }
  }

  lemma PushOngoing(w: Window, r: Window, written: seq<Option<nat>>, silence: nat, from: nat, k: nat, rate: nat)
    requires rate > 0 && Ongoing(w, written, silence, from, k, rate) && r == w.(queue := r.queue) && w.queue <= r.queue
    ensures Ongoing(r, written, silence, from, k, rate)
  {
    hide Heard, DeltaFrames, Contiguous;
  }

  /** Between windows only what this one wrote is set aside. */
  lemma SameOngoing(w: Window, r: Window, written: seq<Option<nat>>, silence: nat, from: nat, k: nat, rate: nat)
    requires rate > 0 && Ongoing(w, written, silence, from, k, rate) && r == w.(window := r.window)
    ensures Ongoing(r, written, silence, from, k, rate)
  {
    hide Heard, DeltaFrames, Contiguous;
  }

  lemma TurnWet(l: Loop, blocks: seq<Block>, rate: nat)
    requires l.Valid() && rate > 0 && l.call.Some? && !Took(l, Iterate, blocks, rate).dry
    ensures !OneTurn(l.m.w, rate, l.call.value).dry
  {
    hide OneTurn;
    GoesOnWet(l.m.w, rate, l.call.value);
  }

  lemma TookWrites(l: Loop, blocks: seq<Block>, rate: nat)
    requires l.Valid() && rate > 0 && l.call.Some?
    requires var t := OneTurn(l.m.w, rate, l.call.value);
             t.after.window == l.m.w.window + Added(l.m.w, t.after) && (t.more || |t.after.window| == l.call.value)
    ensures var t := OneTurn(l.m.w, rate, l.call.value); var r := Took(l, Iterate, blocks, rate);
            Written(r.m) == Written(l.m) + Added(l.m.w, t.after) && r.m.w == t.after.(window := r.m.w.window)
  {
    hide OneTurn;
    var t := OneTurn(l.m.w, rate, l.call.value);
    var r := Took(l, Iterate, blocks, rate);
    assert Silence(0) == [];
    assert l.m.total + (l.m.w.window + Added(l.m.w, t.after)) == Written(l.m) + Added(l.m.w, t.after);
    assert l.m.total + t.after.window + [] == l.m.total + t.after.window;
  }

  lemma {:induction false} RanKeeps(l: Loop, events: seq<Event>, blocks: seq<Block>, k: nat, base: seq<Option<nat>>, silence: nat, from: nat, rate: nat)
    requires l.Valid() && rate > 0 && Expecting(l.m.w, blocks, rate) && Goes(blocks, k, rate)
    requires Keeps(l, base, silence, from, k, rate) && !Ran(l, events, blocks, rate).dry
    ensures Keeps(Ran(l, events, blocks, rate), base, silence, from, k, rate)
    decreases |events|
  {
    hide Took, Keeps, Expecting, Goes;
    if events != [] {
      var next := Took(l, events[0], blocks, rate);
      DryRemains(next, events[1..], blocks, rate);
      TookKeeps(l, events[0], blocks, k, base, silence, from, rate);
      TookExpects(l, events[0], blocks, rate);
      RanKeeps(next, events[1..], blocks, k, base, silence, from, rate);
    }
  }

  lemma {:induction false} DryRemains(l: Loop, events: seq<Event>, blocks: seq<Block>, rate: nat)
    requires l.Valid() && rate > 0
    ensures l.dry ==> Ran(l, events, blocks, rate).dry
    decreases |events|
  {
    hide OneTurn;
    if events != [] {
      DryRemains(Took(l, events[0], blocks, rate), events[1..], blocks, rate);
    }
  }

  // ---------------------------------------------------------------------
  // The correction

  /** The cursor has just used up a block and has the next one in front. */
  predicate BetweenBlocks(l: Loop) {
    var c := l.m.w.cursor;
    l.m.w.queue != [] && c.primed && c.continuity && !c.aligned && !c.alignmentPending && c.sourceOffset == 0
  }

  /** Frames of correction for a block that starts at a time when it is due at another. */
  predicate Correction(c: int, due: nat, start: nat, rate: nat) {
    if start > due && Apart(start - due, rate) then c >= 0 && Nearest(c, start - due, rate)
    else if start < due && Apart(due - start, rate) then c <= 0 && Nearest(-c, due - start, rate)
    else c == 0
  }

  /** What is heard from a position on: so much silence, or so many frames left out, and then frame after frame. */
  predicate Corrected(c: int, due: nat, start: nat, rate: nat, position: nat, heard: seq<Option<nat>>) {
    && Correction(c, due, start, rate)
    && heard == Heard(if c > 0 then c else 0, position + if c < 0 then -c else 0, |heard|)
  }

  ghost predicate Heals(due: nat, start: nat, rate: nat, position: nat, heard: seq<Option<nat>>) {
    exists c: int :: Corrected(c, due, start, rate, position, heard)
  }

  /** What the block loads. */
  function Load(w: Window, rate: nat): int
    requires rate > 0 && w.queue != []
  {
    var c := LoadAlignment(w.cursor, w.queue[0], rate);
    if c.alignmentPending then c.pending else 0
  }

  lemma LoadCorrects(w: Window, rate: nat)
    requires rate > 0 && w.queue != [] && w.cursor.continuity && !w.cursor.alignmentPending && w.cursor.expected != 0
    requires var due, start := w.cursor.expected, w.queue[0].timestamp;
             Countable(if start >= due then start - due else due - start, rate)
    ensures Correction(Load(w, rate), w.cursor.expected, w.queue[0].timestamp, rate)
  {
    hide DeltaFrames, Contiguous, Nearest, Apart, Countable;
    var due, start := w.cursor.expected, w.queue[0].timestamp;
    DeltaNear(due, start, rate);
    ApartBreaks(due, start, rate);
    NotApart(rate);
  }

  lemma NotApart(rate: nat)
    ensures !Apart(0, rate)
  {
  }

  lemma LoadStands(w: Window, rate: nat)
    requires rate > 0 && w.queue != [] && w.cursor.primed && w.cursor.continuity && w.cursor.sourceOffset == 0
    requires !w.cursor.aligned && !w.cursor.alignmentPending
    ensures var c := Load(w, rate);
            Ongoing(w, [], if c > 0 then c else 0, Position(w) + if c < 0 then -c else 0, w.popped, rate)
  {
    hide DeltaFrames, Contiguous;
  }

  /** Between two blocks in any run: what is written from there on, whatever blocks arrive and windows are asked for,
      is silence for as long as the next block starts late, then source frames one after another, as many of them left
      out first as it starts early. */
  lemma GapIsFilled(events: seq<Event>, more: seq<Event>, blocks: seq<Block>, rate: nat)
    requires rate > 0
    requires var l := Looped(events, blocks, rate).(dry := false);
             && BetweenBlocks(l) && 0 < l.m.w.popped < |blocks| && Goes(blocks, l.m.w.popped, rate)
             && blocks[l.m.w.popped - 1].timestamp > 0
             && !Ran(l, more, blocks, rate).dry
             && var due, start := Due(blocks[l.m.w.popped - 1].timestamp, rate), blocks[l.m.w.popped].timestamp;
                Countable(if start >= due then start - due else due - start, rate)
    ensures var l := Looped(events, blocks, rate).(dry := false);
            var base, all := Written(l.m), Written(Ran(l, more, blocks, rate).m);
            && base <= all
            && Heals(Due(blocks[l.m.w.popped - 1].timestamp, rate), blocks[l.m.w.popped].timestamp, rate, Position(l.m.w), all[|base|..])
  {
    hide Looped, Ran, Goes, Due, Correction, LoadAlignment, Countable, Heard, Load;
    var l := Looped(events, blocks, rate).(dry := false);
    var w := l.m.w;
    EveryLoopExpects(events, blocks, rate);
    assert w.queue[0] == blocks[w.popped];
    DueLater(blocks[w.popped - 1].timestamp, rate);
    LoadCorrects(w, rate);
    LoadStands(w, rate);
    var c := Load(w, rate);
    var silence: nat, from: nat := if c > 0 then c else 0, Position(w) + if c < 0 then -c else 0;
    var base := Written(l.m);
    assert base[|base|..] == [];
    RanKeeps(l, more, blocks, w.popped, base, silence, from, rate);
    var r := Ran(l, more, blocks, rate);
    OngoingHeard(r.m.w, Written(r.m)[|base|..], silence, from, w.popped, rate);
    assert Corrected(c, Due(blocks[w.popped - 1].timestamp, rate), blocks[w.popped].timestamp, rate, Position(w), Written(r.m)[|base|..]);
  }

  lemma DueLater(timestamp: nat, rate: nat)
    requires rate > 0 && timestamp > 0
    ensures Due(timestamp, rate) > 0
  {
  }

  lemma OngoingHeard(w: Window, written: seq<Option<nat>>, silence: nat, from: nat, k: nat, rate: nat)
    requires rate > 0 && Ongoing(w, written, silence, from, k, rate)
    ensures written == Heard(silence, from, |written|)
  {
    hide LoadAlignment, Heard;
  }

  // ---------------------------------------------------------------------
  // Starting over

  /** Neither a block before nor a correction to go by. */
  predicate StartsOver(c: Cursor) { !c.continuity && !c.aligned && !c.alignmentPending && c.sourceOffset == 0 }

  /** A block that does not fit is dropped, and a ring that ran empty without frames left to skip forgets what was
      before: either way the next block starts over, once there are enough. */
  lemma TurnStartsOver(w: Window, rate: nat, out: nat)
    requires rate > 0 && Shaped(w) && |w.window| < out && !MustWait(w)
    requires if w.queue == [] then !(w.cursor.alignmentPending && w.cursor.pending < 0) else !Usable(w.queue[0], rate)
    ensures var after := OneTurn(w, rate, out).after;
            && StartsOver(after.cursor) && !after.cursor.primed && after.window == w.window
            && after.queue == (if w.queue == [] then [] else w.queue[1..])
  {
  }

  lemma PrimedSame(w: Window, rate: nat, out: nat)
    requires rate > 0 && Shaped(w) && |w.window| < out && !MustWait(w)
    ensures OneTurn(w, rate, out) == OneTurn(w.(cursor := w.cursor.(primed := true)), rate, out)
  {
    hide CopyBlock, AlignBlock, Usable;
  }

  function Primed(l: Loop): Loop { l.(m := l.m.(w := l.m.w.(cursor := l.m.w.cursor.(primed := true)))) }

  lemma {:induction false} RanPrimed(l: Loop, events: seq<Event>, blocks: seq<Block>, rate: nat)
    requires l.Valid() && rate > 0 && l.m.w.queue != [] && !MustWait(l.m.w)
    ensures var r, p := Ran(l, events, blocks, rate), Ran(Primed(l), events, blocks, rate);
            p.m.total == r.m.total && p.m.w.window == r.m.w.window && p.dry == r.dry
    decreases |events|
  {
    hide Took, Primed;
    PrimedWrites(l);
    if events != [] {
      if events[0].Iterate? && l.call.Some? {
        TurnPrimes(l, blocks, rate);
      } else {
        WaitPrimed(l, events[0], blocks, rate);
        RanPrimed(Took(l, events[0], blocks, rate), events[1..], blocks, rate);
      }
    }
  }

  lemma PrimedWrites(l: Loop)
    requires l.Valid()
    ensures var p := Primed(l); p.Valid() && p.m.total == l.m.total && p.m.w.window == l.m.w.window && p.dry == l.dry && p.call == l.call
  {
  }

  lemma TurnPrimes(l: Loop, blocks: seq<Block>, rate: nat)
    requires l.Valid() && rate > 0 && l.call.Some? && !MustWait(l.m.w)
    ensures Primed(l).Valid() && Took(Primed(l), Iterate, blocks, rate) == Took(l, Iterate, blocks, rate)
  {
    hide OneTurn, MustWait;
    PrimedSame(l.m.w, rate, l.call.value);
  }

  lemma WaitPrimed(l: Loop, event: Event, blocks: seq<Block>, rate: nat)
    requires l.Valid() && rate > 0 && l.m.w.queue != [] && !MustWait(l.m.w) && (event.Iterate? ==> l.call.None?)
    ensures var r := Took(l, event, blocks, rate);
            r.m.w.queue != [] && !MustWait(r.m.w) && Primed(l).Valid() && Took(Primed(l), event, blocks, rate) == Primed(r)
  {
    hide OneTurn;
  }

  lemma StartStands(w: Window, rate: nat)
    requires rate > 0 && w.queue != [] && w.cursor.primed && StartsOver(w.cursor)
    ensures var a := w.queue[0].alignment;
            Ongoing(w, [], if a > 0 then a else 0, Position(w) + if a < 0 then -a else 0, w.popped, rate)
  {
    hide DeltaFrames, Contiguous;
  }

  /** A cursor that starts over, with enough buffered, follows the alignment of the block in front: so much silence,
      or so many frames left out, and then frame after frame. */
  lemma StartIsAligned(events: seq<Event>, more: seq<Event>, blocks: seq<Block>, rate: nat)
    requires rate > 0
    requires var l := Looped(events, blocks, rate).(dry := false);
             && StartsOver(l.m.w.cursor) && l.m.w.queue != [] && !MustWait(l.m.w) && l.m.w.popped < |blocks|
             && Goes(blocks, l.m.w.popped, rate) && !Ran(l, more, blocks, rate).dry
    ensures var l := Looped(events, blocks, rate).(dry := false);
            var base, all := Written(l.m), Written(Ran(l, more, blocks, rate).m);
            var a := blocks[l.m.w.popped].alignment;
            && base <= all
            && all[|base|..] == Heard(if a > 0 then a else 0, Position(l.m.w) + if a < 0 then -a else 0, |all| - |base|)
  {
    hide Looped, Ran, Goes, LoadAlignment, Heard;
    var l := Looped(events, blocks, rate).(dry := false);
    var p := Primed(l);
    EveryLoopExpects(events, blocks, rate);
    assert l.m.w.queue[0] == blocks[l.m.w.popped];
    RanPrimed(l, more, blocks, rate);
    StartStands(p.m.w, rate);
    var a := l.m.w.queue[0].alignment;
    var silence: nat, from: nat := if a > 0 then a else 0, Position(l.m.w) + if a < 0 then -a else 0;
    var base := Written(l.m);
    assert base[|base|..] == [];
    RanKeeps(p, more, blocks, l.m.w.popped, base, silence, from, rate);
    var r := Ran(p, more, blocks, rate);
    OngoingHeard(r.m.w, Written(r.m)[|base|..], silence, from, l.m.w.popped, rate);
  }
}
