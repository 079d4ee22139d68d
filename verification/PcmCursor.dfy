/** The audio window cursor on values. */
module PcmCursor {
  // It turns timestamped blocks into windows of any size. A window position holds nothing (silence) or one
  // source frame.

  import opened Options

  const FRAMES: nat := 1024
  const NS: nat := 1_000_000_000
  const U64_MAX: nat := 0xffff_ffff_ffff_ffff
  const I64_MAX: int := 0x7fff_ffff_ffff_ffff
  const I64_MIN: int := -0x8000_0000_0000_0000

  /** One block as the cursor sees it; accepted is the caller's compatibility test. */
  datatype Block = Block(timestamp: nat, alignment: int, rate: nat, accepted: bool)

  datatype Cursor = Cursor(
    sourceOffset: nat, expected: nat, pending: int, aligned: bool, alignmentPending: bool, continuity: bool, primed: bool)

  const START := Cursor(0, 0, 0, false, false, false, false)

  function Min(a: int, b: int): int { if a <= b then a else b }
  function Max(a: int, b: int): int { if a >= b then a else b }

  function ResetAlignment(c: Cursor): Cursor {
    c.(expected := 0, pending := 0, aligned := false, alignmentPending := false, continuity := false)
  }

  // ---------------------------------------------------------------------
  // Nanoseconds and frames

  function FramesToNs(frames: nat, rate: nat): nat {
    if rate == 0 then 0 else (frames / rate) * NS + (frames % rate) * NS / rate
  }

  function SatAddNs(value: nat, increment: nat): nat { Min(value + increment, U64_MAX) }

  /** Nearest number of frames, saturated at 64 bits. */
  function FramesForNs(duration: nat, rate: nat): nat
    requires rate > 0
  {
    var whole := duration / NS;
    if whole > U64_MAX / rate then U64_MAX
    else Min(whole * rate + (duration % NS * rate + NS / 2) / NS, U64_MAX)
  }

  function DeltaFrames(expected: nat, actual: nat, rate: nat): int
    requires rate > 0
  {
    var magnitude: int := FramesForNs(if actual >= expected then actual - expected else expected - actual, rate);
    if magnitude > I64_MAX then (if actual >= expected then I64_MAX else I64_MIN)
    else if actual >= expected then magnitude
    else -magnitude
  }

  predicate Contiguous(expected: nat, actual: nat, rate: nat) {
    expected != 0 &&
    (if expected > actual then expected - actual else actual - expected) < Max(1, FramesToNs(1, rate))
  }

  // ---------------------------------------------------------------------
  // One turn of the consumer loop

  /** Source frames are numbered through all blocks ever popped; window holds what this call has written. */
  datatype Window = Window(cursor: Cursor, queue: seq<Block>, popped: nat, window: seq<Option<nat>>)

  datatype Turn = Turn(after: Window, more: bool, dry: bool)

  predicate Usable(b: Block, rate: nat) { b.timestamp != 0 && b.rate == rate && b.accepted }

  /** Frame number of the next frame of the front block. */
  function Position(w: Window): nat { w.popped * FRAMES + w.cursor.sourceOffset }

  predicate Shaped(w: Window) { w.cursor.sourceOffset < FRAMES && (w.queue == [] ==> w.cursor.sourceOffset == 0) }

  /** Not primed: one block more than the current one must be buffered, unless the block starts late. */
  predicate MustWait(w: Window) {
    !w.cursor.primed && (w.queue == [] || (|w.queue| < 2 && w.queue[0].alignment <= 0))
  }

  function PopFront(w: Window): Window
    requires w.queue != []
  {
    w.(queue := w.queue[1..], popped := w.popped + 1, cursor := w.cursor.(sourceOffset := 0))
  }

  function Reject(w: Window): Window
    requires w.queue != []
  {
    var popped := PopFront(w);
    popped.(cursor := ResetAlignment(popped.cursor.(primed := false)))
  }

  function FinishBlock(w: Window, rate: nat): Window
    requires w.queue != []
  {
    var c := w.cursor;
    PopFront(w.(cursor := c.(expected := SatAddNs(w.queue[0].timestamp, FramesToNs(FRAMES, rate)), continuity := true,
                             aligned := false,
                             alignmentPending := c.alignmentPending && c.pending != 0)))
  }

  /** The correction a block asks for when it does not continue the one before. */
  function LoadAlignment(c: Cursor, b: Block, rate: nat): Cursor
    requires rate > 0
  {
    if c.alignmentPending || (c.continuity && Contiguous(c.expected, b.timestamp, rate)) then c
    else
      c.(pending := if c.continuity && c.expected != 0 then DeltaFrames(c.expected, b.timestamp, rate) else b.alignment,
         alignmentPending := true, continuity := false)
  }

  function Silence(n: nat): seq<Option<nat>> { seq(n, _ => None) }

  function Copied(from: nat, n: nat): seq<Option<nat>> { seq(n, i requires 0 <= i => Some(from + i)) }

  /** Copies as much of the front block as fits. */
  function CopyBlock(w: Window, rate: nat, out: nat): Turn
    requires Shaped(w) && w.queue != [] && |w.window| < out
  {
    var frames := Min(FRAMES - w.cursor.sourceOffset, out - |w.window|);
    var copied := w.(window := w.window + Copied(Position(w), frames),
                     cursor := w.cursor.(sourceOffset := w.cursor.sourceOffset + frames));
    if copied.cursor.sourceOffset == FRAMES then Turn(FinishBlock(copied, rate), true, false) else Turn(copied, true, false)
  }

  /** Skips frames that an early block owes, then copies. */
  function SkipBlock(w: Window, rate: nat, out: nat): Turn
    requires Shaped(w) && w.queue != [] && |w.window| < out
  {
    var c := w.cursor;
    var skip := if c.alignmentPending && c.pending < 0 then Min(-c.pending, FRAMES - c.sourceOffset) else 0;
    var skipped := w.(cursor := c.(sourceOffset := c.sourceOffset + skip, pending := c.pending + skip));
    if skip > 0 && skipped.cursor.sourceOffset == FRAMES then Turn(FinishBlock(skipped, rate), true, false)
    else CopyBlock(skipped.(cursor := skipped.cursor.(alignmentPending := false, pending := 0, aligned := true)), rate, out)
  }

  /** Silence that a late block still asks for. */
  function Quiet(w: Window, out: nat): Window
    requires |w.window| < out
  {
    var c := w.cursor;
    var silence := if c.alignmentPending && c.pending > 0 then Min(c.pending, out - |w.window|) else 0;
    w.(window := w.window + Silence(silence), cursor := c.(pending := c.pending - silence))
  }

  /** Silence for a late start, skipped frames for an early one, then the frames themselves. */
  function AlignBlock(w: Window, rate: nat, out: nat): Turn
    requires Shaped(w) && w.queue != [] && rate > 0 && |w.window| < out
  {
    var quiet := Quiet(w.(cursor := LoadAlignment(w.cursor, w.queue[0], rate)), out);
    if |quiet.window| == out then Turn(quiet, false, false) else SkipBlock(quiet, rate, out)
  }

  /** A measure that every turn that goes on makes smaller: a block is used up or the window is full. */
  function Size(w: Window, out: nat): nat {
    2 * |w.queue| + if |w.window| < out then 1 else 0
  }

  /** The queue ran empty: a debt of frames to skip is kept, anything else starts over. */
  function RunDry(w: Window): Window {
    var stopped := w.cursor.(primed := false);
    w.(cursor := if stopped.alignmentPending && stopped.pending < 0 then stopped else ResetAlignment(stopped))
  }

  /** A turn that goes on used up a block or filled the window. */
  predicate Shrinks(w: Window, out: nat, t: Turn) {
    && Shaped(t.after) && |w.window| <= |t.after.window| <= out
    && (t.more ==> Size(t.after, out) < Size(w, out) && !t.dry)
  }

  lemma CopyShrinks(w: Window, rate: nat, out: nat)
    requires Shaped(w) && w.queue != [] && |w.window| < out
    ensures Shrinks(w, out, CopyBlock(w, rate, out))
  {
    hide FramesToNs, SatAddNs;
  }

  lemma SkipShrinks(w: Window, rate: nat, out: nat)
    requires Shaped(w) && w.queue != [] && |w.window| < out
    ensures Shrinks(w, out, SkipBlock(w, rate, out))
  {
    hide FramesToNs, SatAddNs, CopyBlock;
    var c := w.cursor;
    var skip := if c.alignmentPending && c.pending < 0 then Min(-c.pending, FRAMES - c.sourceOffset) else 0;
    var skipped := w.(cursor := c.(sourceOffset := c.sourceOffset + skip, pending := c.pending + skip));
    if !(skip > 0 && skipped.cursor.sourceOffset == FRAMES) {
      CopyShrinks(skipped.(cursor := skipped.cursor.(alignmentPending := false, pending := 0, aligned := true)), rate, out);
    }
  }

  lemma AlignShrinks(w: Window, rate: nat, out: nat)
    requires Shaped(w) && w.queue != [] && rate > 0 && |w.window| < out
    ensures Shrinks(w, out, AlignBlock(w, rate, out))
  {
    hide DeltaFrames, Contiguous, SkipBlock;
    var quiet := Quiet(w.(cursor := LoadAlignment(w.cursor, w.queue[0], rate)), out);
    if |quiet.window| != out {
      SkipShrinks(quiet, rate, out);
    }
  }

  function OneTurn(w: Window, rate: nat, out: nat): (t: Turn)
    requires Shaped(w) && rate > 0 && |w.window| < out
    ensures Shrinks(w, out, t)
  {
    hide CopyBlock, AlignBlock, Usable;
    if MustWait(w) then Turn(w, false, false)
    else
      var primed := w.(cursor := w.cursor.(primed := true));
      if w.queue == [] then Turn(RunDry(primed), false, true)
      else if !Usable(w.queue[0], rate) then Turn(Reject(primed), true, false)
      else if w.cursor.aligned then
        CopyShrinks(primed, rate, out);
        CopyBlock(primed, rate, out)
      else
        AlignShrinks(primed, rate, out);
        AlignBlock(primed, rate, out)
  }

  datatype Consumed = Consumed(after: Window, dry: bool)

  /** One window: turns until it is full, or nothing more may be handed out. */
  function Consume(w: Window, rate: nat, out: nat): (r: Consumed)
    requires Shaped(w) && rate > 0 && |w.window| <= out
    ensures Shaped(r.after) && |w.window| <= |r.after.window| <= out
    decreases Size(w, out)
  {
    if |w.window| == out then Consumed(w, false)
    else
      var t := OneTurn(w, rate, out);
      if t.more then Consume(t.after, rate, out) else Consumed(t.after, t.dry)
  }

  // ---------------------------------------------------------------------
  // Safety for arbitrary blocks, gaps and incompatibilities

  /** Source frames come in order, each at most once, all below a limit. */
  predicate Rising(t: seq<Option<nat>>, limit: nat) {
    && (forall i :: 0 <= i < |t| && t[i].Some? ==> t[i].value < limit)
    && (forall i, j :: 0 <= i < j < |t| && t[i].Some? && t[j].Some? ==> t[i].value < t[j].value)
  }

  lemma RisingMore(t: seq<Option<nat>>, limit: nat, from: nat, n: nat, later: nat)
    requires Rising(t, limit) && limit <= from && from + n <= later
    ensures Rising(t + Copied(from, n), later)
  {
  }

  lemma RisingSilence(t: seq<Option<nat>>, limit: nat, n: nat, later: nat)
    requires Rising(t, limit) && limit <= later
    ensures Rising(t + Silence(n), later)
  {
  }

  /** Nothing already written is rewritten, and the frames keep coming in order after everything so far. */
  predicate Continues(total: seq<Option<nat>>, w: Window, after: Window) {
    && w.window <= after.window && Position(w) <= Position(after)
    && (Rising(total + w.window, Position(w)) ==> Rising(total + after.window, Position(after)))
  }

  lemma CopyContinues(total: seq<Option<nat>>, w: Window, rate: nat, out: nat)
    requires Shaped(w) && w.queue != [] && |w.window| < out
    ensures Continues(total, w, CopyBlock(w, rate, out).after)
  {
    hide FramesToNs, Rising, Copied;
    var frames := Min(FRAMES - w.cursor.sourceOffset, out - |w.window|);
    var after := CopyBlock(w, rate, out).after;
    assert Position(after) == Position(w) + frames;
    if Rising(total + w.window, Position(w)) {
      RisingMore(total + w.window, Position(w), Position(w), frames, Position(after));
      assert total + w.window + Copied(Position(w), frames) == total + after.window;
    }
  }

  lemma QuietContinues(total: seq<Option<nat>>, w: Window, out: nat)
    requires |w.window| < out
    ensures Continues(total, w, Quiet(w, out))
  {
    hide Rising, Silence;
    var c := w.cursor;
    var silence := if c.alignmentPending && c.pending > 0 then Min(c.pending, out - |w.window|) else 0;
    if Rising(total + w.window, Position(w)) {
      RisingSilence(total + w.window, Position(w), silence, Position(w));
      assert total + w.window + Silence(silence) == total + Quiet(w, out).window;
    }
  }

  lemma SkipContinues(total: seq<Option<nat>>, w: Window, rate: nat, out: nat)
    requires Shaped(w) && w.queue != [] && |w.window| < out
    ensures Continues(total, w, SkipBlock(w, rate, out).after)
  {
    hide FramesToNs, Rising, CopyBlock, Silence;
    var c := w.cursor;
    var skip := if c.alignmentPending && c.pending < 0 then Min(-c.pending, FRAMES - c.sourceOffset) else 0;
    if Rising(total + w.window, Position(w)) {
      RisingSilence(total + w.window, Position(w), 0, Position(w) + skip);
      SilenceLength(0);
      assert total + w.window + Silence(0) == total + w.window;
    }
    var skipped := w.(cursor := c.(sourceOffset := c.sourceOffset + skip, pending := c.pending + skip));
    if skipped.cursor.sourceOffset < FRAMES {
      CopyContinues(total, skipped.(cursor := skipped.cursor.(alignmentPending := false, pending := 0, aligned := true)), rate, out);
    }
  }

  lemma AlignContinues(total: seq<Option<nat>>, w: Window, rate: nat, out: nat)
    requires Shaped(w) && w.queue != [] && rate > 0 && |w.window| < out
    ensures Continues(total, w, AlignBlock(w, rate, out).after)
  {
    hide LoadAlignment, Rising, Quiet, SkipBlock;
    LoadKeeps(w.cursor, w.queue[0], rate);
    var loaded := w.(cursor := LoadAlignment(w.cursor, w.queue[0], rate));
    QuietContinues(total, loaded, out);
    QuietShape(loaded, out);
    var quiet := Quiet(loaded, out);
    if |quiet.window| < out {
      SkipContinues(total, quiet, rate, out);
    }
  }

  lemma QuietShape(w: Window, out: nat)
    requires |w.window| < out
    ensures var q := Quiet(w, out);
            && q.queue == w.queue && q.popped == w.popped && |w.window| <= |q.window| <= out
            && q.cursor == w.cursor.(pending := q.cursor.pending)
  {
  }

  lemma SilenceLength(n: nat)
    ensures |Silence(n)| == n
  {
  }

  lemma LoadKeeps(c: Cursor, b: Block, rate: nat)
    requires rate > 0
    ensures var r := LoadAlignment(c, b, rate); r.sourceOffset == c.sourceOffset && r.aligned == c.aligned && r.primed == c.primed
  {
    hide DeltaFrames, Contiguous;
  }

  lemma TurnContinues(total: seq<Option<nat>>, w: Window, rate: nat, out: nat)
    requires Shaped(w) && rate > 0 && |w.window| < out
    ensures Continues(total, w, OneTurn(w, rate, out).after)
  {
    hide Rising, AlignBlock, CopyBlock, Usable, Rising;
    var primed := w.(cursor := w.cursor.(primed := true));
    if MustWait(w) || w.queue == [] {
    } else if !Usable(w.queue[0], rate) {
      RejectContinues(total, w);
    } else if w.cursor.aligned {
      CopyContinues(total, primed, rate, out);
    } else {
      AlignContinues(total, primed, rate, out);
    }
  }

  lemma RejectContinues(total: seq<Option<nat>>, w: Window)
    requires Shaped(w) && w.queue != []
    ensures Continues(total, w, Reject(w.(cursor := w.cursor.(primed := true))))
  {
  }

  /** A whole window, after any windows before it and with any blocks queued. */
  lemma {:induction false} ConsumeContinues(total: seq<Option<nat>>, w: Window, rate: nat, out: nat)
    requires Shaped(w) && rate > 0 && |w.window| <= out
    ensures Continues(total, w, Consume(w, rate, out).after)
    decreases Size(w, out)
  {
    hide Rising, OneTurn;
    if |w.window| < out {
      TurnContinues(total, w, rate, out);
      var t := OneTurn(w, rate, out);
      if t.more {
        ConsumeContinues(total, t.after, rate, out);
      }
    }
  }

  // ---------------------------------------------------------------------
  // The debt of frames to skip

  predicate Owing(c: Cursor) { c.alignmentPending && c.pending < 0 && !c.aligned }

  /** From a position at which frames are owed: as long as some are, nothing is written and each frame of progress
      paid one of them; afterwards exactly the owed frames were skipped. */
  predicate Pays(position: nat, pending: int, before: seq<Option<nat>>, w: Window) {
    if Owing(w.cursor) then w.window == before && Position(w) - position == w.cursor.pending - pending
    else if w.window == before then Position(w) == position - pending
    else before < w.window && w.window[|before|] == Some(position - pending)
  }

  /** One turn pays. */
  lemma DebtConserved(w: Window, rate: nat, out: nat)
    requires Shaped(w) && rate > 0 && |w.window| < out && Owing(w.cursor)
    requires w.queue != [] ==> Usable(w.queue[0], rate)
    ensures Pays(Position(w), w.cursor.pending, w.window, OneTurn(w, rate, out).after)
  {
    hide FramesToNs, Contiguous, DeltaFrames;
  }

  /** The turn that loads a debt pays from its full magnitude. */
  lemma DebtLoaded(w: Window, rate: nat, out: nat)
    requires Shaped(w) && rate > 0 && |w.window| < out && w.queue != [] && Usable(w.queue[0], rate) && !MustWait(w)
    requires !w.cursor.aligned && !w.cursor.alignmentPending
    requires var loaded := LoadAlignment(w.cursor, w.queue[0], rate); loaded.alignmentPending && loaded.pending < 0
    ensures Pays(Position(w), LoadAlignment(w.cursor, w.queue[0], rate).pending, w.window, OneTurn(w, rate, out).after)
  {
    hide FramesToNs, Contiguous, DeltaFrames;
  }
}
