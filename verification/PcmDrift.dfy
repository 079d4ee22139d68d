/** Audio never drifts. */
module PcmDrift {
  // Over contiguous blocks and windows of any sizes the concatenated windows are the source, shifted once by the
  // alignment of the first block.

  import opened Options
  import opened PcmCursor
  import opened PcmMoves

  /** Silence up to the alignment, then every source frame in order. */
  function Tape(a: int, n: nat): seq<Option<nat>> {
    seq(n, i requires 0 <= i => if i < a then None else Some(i - a))
  }

  function Following(b: Block, rate: nat): nat { SatAddNs(b.timestamp, FramesToNs(FRAMES, rate)) }

  /** Usable blocks, each continuing the one before. */
  predicate Chained(blocks: seq<Block>, rate: nat) {
    && (forall k :: 0 <= k < |blocks| ==> Usable(blocks[k], rate))
    && (forall k :: 0 < k < |blocks| ==> Contiguous(Following(blocks[k - 1], rate), blocks[k].timestamp, rate))
  }

  function Debt(c: Cursor): int { if c.alignmentPending then c.pending else 0 }

  predicate Fresh(w: Window) { w.cursor == START && w.popped == 0 }

  /** Where the cursor stands between the silence or skipped frames and the source. */
  predicate Tracking(w: Window, total: seq<Option<nat>>, a: int, blocks: seq<Block>, rate: nat) {
    var written := |total| + |w.window|;
    var c := w.cursor;
    && c.primed && written - Position(w) == a - Debt(c)
    && (c.aligned ==> !c.alignmentPending)
    && (Debt(c) > 0 ==> Position(w) == 0)
    && (Debt(c) < 0 ==> written == 0)
    && (!c.aligned && !c.alignmentPending ==>
          && c.sourceOffset == 0 && c.continuity && 0 < w.popped <= |blocks|
          && c.expected == Following(blocks[w.popped - 1], rate))
  }

  /** The blocks still queued are the next ones of the stream, and everything written lies on the tape. */
  predicate OnTape(w: Window, total: seq<Option<nat>>, a: int, blocks: seq<Block>, rate: nat) {
    && w.popped + |w.queue| <= |blocks| && w.queue == blocks[w.popped..w.popped + |w.queue|]
    && total + w.window == Tape(a, |total| + |w.window|)
    && ((Fresh(w) && total == [] && w.window == []) || Tracking(w, total, a, blocks, rate))
  }

  lemma TapeCopies(a: int, n: nat, from: nat, frames: nat)
    requires n == a + from
    ensures Tape(a, n) + Copied(from, frames) == Tape(a, n + frames)
  {
  }

  lemma TapeSilence(a: int, n: nat, silence: nat)
    requires n + silence <= a
    ensures Tape(a, n) + Silence(silence) == Tape(a, n + silence)
  {
  }

  lemma CopyTracks(w: Window, rate: nat, out: nat, total: seq<Option<nat>>, a: int, blocks: seq<Block>)
    requires Shaped(w) && w.queue != [] && |w.window| < out && OnTape(w, total, a, blocks, rate)
    requires Tracking(w, total, a, blocks, rate) && Debt(w.cursor) == 0 && w.cursor.aligned
    ensures OnTape(CopyBlock(w, rate, out).after, total, a, blocks, rate)
  {
    hide FramesToNs, Copied, Tape;
    var frames := Min(FRAMES - w.cursor.sourceOffset, out - |w.window|);
    var after := CopyBlock(w, rate, out).after;
    TapeCopies(a, |total| + |w.window|, Position(w), frames);
    CopiedLength(Position(w), frames);
    assert total + after.window == total + w.window + Copied(Position(w), frames);
  }

  lemma CopiedLength(from: nat, n: nat)
    ensures |Copied(from, n)| == n
  {
  }

  /** The alignment that a block starts from. */
  lemma Loaded(w: Window, rate: nat, total: seq<Option<nat>>, a: int, blocks: seq<Block>)
    requires Shaped(w) && w.queue != [] && rate > 0 && OnTape(w, total, a, blocks, rate) && Chained(blocks, rate)
    requires blocks != [] && a == blocks[0].alignment && !w.cursor.aligned
    ensures var c := LoadAlignment(w.cursor.(primed := true), w.queue[0], rate);
            var written := |total| + |w.window|;
            && c.primed && !c.aligned && c.sourceOffset == w.cursor.sourceOffset
            && written - Position(w) == a - Debt(c)
            && (Debt(c) > 0 ==> Position(w) == 0) && (Debt(c) < 0 ==> written == 0)
  {
    hide FramesToNs, DeltaFrames, Contiguous, Tape;
    assert w.queue[0] == blocks[w.popped];
    if !Fresh(w) && !w.cursor.alignmentPending {
      assert Contiguous(Following(blocks[w.popped - 1], rate), blocks[w.popped].timestamp, rate);
    }
  }

  /** A block that is skipped to its end. */
  lemma FinishTracks(w: Window, rate: nat, total: seq<Option<nat>>, a: int, blocks: seq<Block>)
    requires w.queue != [] && w.cursor.sourceOffset == FRAMES && w.cursor.primed && w.cursor.alignmentPending
    requires w.popped + |w.queue| <= |blocks| && w.queue == blocks[w.popped..w.popped + |w.queue|]
    requires total + w.window == Tape(a, |total| + |w.window|) && |total| + |w.window| == 0
    requires |total| + |w.window| - Position(w) == a - w.cursor.pending && w.cursor.pending <= 0
    ensures OnTape(FinishBlock(w, rate), total, a, blocks, rate)
  {
    hide FramesToNs, Tape;
  }

  /** On the tape, and the distance to the source is the first alignment less the debt. */
  predicate Measured(w: Window, total: seq<Option<nat>>, a: int, blocks: seq<Block>) {
    var c := w.cursor;
    var written := |total| + |w.window|;
    && w.popped + |w.queue| <= |blocks| && w.queue == blocks[w.popped..w.popped + |w.queue|]
    && total + w.window == Tape(a, written) && c.primed && !c.aligned
    && written - Position(w) == a - Debt(c)
    && (Debt(c) > 0 ==> Position(w) == 0) && (Debt(c) < 0 ==> written == 0)
  }

  lemma QuietTracks(w: Window, out: nat, total: seq<Option<nat>>, a: int, blocks: seq<Block>, rate: nat)
    requires |w.window| < out && Measured(w, total, a, blocks)
    ensures Measured(Quiet(w, out), total, a, blocks)
    ensures |Quiet(w, out).window| == out ==> OnTape(Quiet(w, out), total, a, blocks, rate)
    ensures |Quiet(w, out).window| < out ==> Debt(Quiet(w, out).cursor) <= 0
  {
    hide Tape, Silence;
    var c := w.cursor;
    var silence := if c.alignmentPending && c.pending > 0 then Min(c.pending, out - |w.window|) else 0;
    SilenceLength(silence);
    if silence > 0 {
      TapeSilence(a, |total| + |w.window|, silence);
    } else {
      assert Silence(0) == [];
    }
    assert total + Quiet(w, out).window == total + w.window + Silence(silence);
  }

  lemma SkipTracks(w: Window, rate: nat, out: nat, total: seq<Option<nat>>, a: int, blocks: seq<Block>)
    requires Shaped(w) && w.queue != [] && rate > 0 && |w.window| < out && Measured(w, total, a, blocks) && Debt(w.cursor) <= 0
    ensures OnTape(SkipBlock(w, rate, out).after, total, a, blocks, rate)
  {
    hide FramesToNs, Tape, CopyBlock;
    var c := w.cursor;
    var skip := if c.alignmentPending && c.pending < 0 then Min(-c.pending, FRAMES - c.sourceOffset) else 0;
    var skipped := w.(cursor := c.(sourceOffset := c.sourceOffset + skip, pending := c.pending + skip));
    if skip > 0 && skipped.cursor.sourceOffset == FRAMES {
      FinishTracks(skipped, rate, total, a, blocks);
    } else {
      var ready := skipped.(cursor := skipped.cursor.(alignmentPending := false, pending := 0, aligned := true));
      CopyTracks(ready, rate, out, total, a, blocks);
    }
  }

  lemma AlignTracks(w: Window, rate: nat, out: nat, total: seq<Option<nat>>, a: int, blocks: seq<Block>)
    requires Shaped(w) && w.queue != [] && rate > 0 && |w.window| < out && w.cursor.primed && !w.cursor.aligned
    requires Measured(w.(cursor := LoadAlignment(w.cursor, w.queue[0], rate)), total, a, blocks)
    requires LoadAlignment(w.cursor, w.queue[0], rate).sourceOffset == w.cursor.sourceOffset
    ensures OnTape(AlignBlock(w, rate, out).after, total, a, blocks, rate)
  {
    hide LoadAlignment, Tape, SkipBlock, Quiet, Measured, OnTape;
    var loaded := w.(cursor := LoadAlignment(w.cursor, w.queue[0], rate));
    QuietTracks(loaded, out, total, a, blocks, rate);
    QuietShape(loaded, out);
    var quiet := Quiet(loaded, out);
    if |quiet.window| < out {
      SkipTracks(quiet, rate, out, total, a, blocks);
    }
  }

  lemma TurnTracks(w: Window, rate: nat, out: nat, total: seq<Option<nat>>, a: int, blocks: seq<Block>)
    requires Shaped(w) && rate > 0 && |w.window| < out && OnTape(w, total, a, blocks, rate) && Chained(blocks, rate)
    requires (blocks != [] ==> a == blocks[0].alignment) && !OneTurn(w, rate, out).dry
    ensures var t := OneTurn(w, rate, out);
            && OnTape(t.after, total, a, blocks, rate)
            && (!t.more ==> |t.after.window| == out || (Fresh(t.after) && t.after.window == []))
  {
    hide FramesToNs, Tape, AlignBlock, CopyBlock, Contiguous, LoadAlignment;
    if !MustWait(w) {
      assert w.queue[0] == blocks[w.popped];
      var primed := w.(cursor := w.cursor.(primed := true));
      if w.cursor.aligned {
        CopyTracks(primed, rate, out, total, a, blocks);
        CopyGoesOn(primed, rate, out);
      } else {
        Loaded(w, rate, total, a, blocks);
        AlignTracks(primed, rate, out, total, a, blocks);
        AlignGoesOn(primed, rate, out);
      }
    }
  }

  lemma CopyGoesOn(w: Window, rate: nat, out: nat)
    requires Shaped(w) && w.queue != [] && |w.window| < out
    ensures CopyBlock(w, rate, out).more
  {
  }

  lemma AlignGoesOn(w: Window, rate: nat, out: nat)
    requires Shaped(w) && w.queue != [] && rate > 0 && |w.window| < out
    ensures AlignBlock(w, rate, out).more || |AlignBlock(w, rate, out).after.window| == out
  {
    hide LoadAlignment, FramesToNs;
  }

  // ---------------------------------------------------------------------
  // The consumer's loop beside the producer

  /** What has been handed out and the cursor, the size of the window under way, how much was handed out before
      there was enough to start with, and whether a turn found the ring empty after that. */
  datatype Loop = Loop(m: Machine, call: Option<nat>, lead: nat, dry: bool)
  {
    predicate Valid() {
      Shaped(m.w) && if call.Some? then |m.w.window| < call.value else m.w.window == []
    }
  }

  const BEGIN := Loop(Machine([], Window(START, [], 0, [])), None, 0, false)

  /** The producer commits its next block, a window is asked for, the consumer's loop takes a turn. */
  datatype Event = Push | Call(out: nat) | Iterate

  /** The call is over: its window is handed out, silent where nothing was written. */
  function HandsOut(l: Loop, m: Machine, out: nat, dry: bool): (r: Loop)
    requires Shaped(m.w)
    ensures r.Valid()
  {
    Loop(Moved(m, HandOut(out)), None, l.lead + if m.w.cursor.primed then 0 else out, l.dry || dry)
  }

  /** One event; a window is asked for between calls only, and a turn is taken within one. */
  function Took(l: Loop, event: Event, blocks: seq<Block>, rate: nat): (r: Loop)
    requires l.Valid() && rate > 0
    ensures r.Valid()
  {
    match event
    case Push =>
      var next := l.m.w.popped + |l.m.w.queue|;
      if next < |blocks| then l.(m := Moved(l.m, Arrive(blocks[next]))) else l
    case Call(out) => if l.call.None? && out > 0 then l.(call := Some(out)) else l
    case Iterate =>
      if l.call.None? then l
      else
        var out := l.call.value;
        var t := OneTurn(l.m.w, rate, out);
        var m := Moved(l.m, Turning(rate, out));
        if t.more && |m.w.window| < out then l.(m := m) else HandsOut(l, m, out, t.dry)
  }

  function Looped(events: seq<Event>, blocks: seq<Block>, rate: nat): (l: Loop)
    requires rate > 0
    ensures l.Valid()
  {
    if events == [] then BEGIN else Took(Looped(events[..|events| - 1], blocks, rate), events[|events| - 1], blocks, rate)
  }

  /** Silence for whole windows, then the tape. */
  predicate OnAir(l: Loop, a: int, blocks: seq<Block>, rate: nat) {
    l.lead <= |l.m.total| && l.m.total[..l.lead] == Silence(l.lead) && OnTape(l.m.w, l.m.total[l.lead..], a, blocks, rate)
  }

  lemma PushOnAir(l: Loop, a: int, blocks: seq<Block>, rate: nat)
    requires l.Valid() && rate > 0 && OnAir(l, a, blocks, rate)
    ensures OnAir(Took(l, Push, blocks, rate), a, blocks, rate)
  {
    hide Tape;
    var w := l.m.w;
    var next := w.popped + |w.queue|;
    if next < |blocks| {
      assert w.queue + [blocks[next]] == blocks[w.popped..next + 1];
    }
  }

  /** A full window joins the tape. */
  lemma FullOnAir(l: Loop, m: Machine, out: nat, dry: bool, a: int, blocks: seq<Block>, rate: nat)
    requires Shaped(m.w) && m.total == l.m.total && |m.w.window| == out > 0
    requires OnAir(l.(m := m), a, blocks, rate)
    ensures OnAir(HandsOut(l, m, out, dry), a, blocks, rate)
  {
    hide Tape;
    var r := HandsOut(l, m, out, dry);
    assert Silence(0) == [];
    assert r.m.total == m.total + m.w.window;
    assert r.m.total[..l.lead] == m.total[..l.lead];
    assert r.m.total[r.lead..] == m.total[l.lead..] + m.w.window;
    assert r.m.total[r.lead..] + [] == r.m.total[r.lead..];
  }

  /** An empty window before the start makes the lead longer. */
  lemma EmptyOnAir(l: Loop, m: Machine, out: nat, dry: bool, a: int, blocks: seq<Block>, rate: nat)
    requires Shaped(m.w) && m.total == l.m.total && m.w.window == [] && Fresh(m.w)
    requires OnAir(l.(m := m), a, blocks, rate)
    ensures OnAir(HandsOut(l, m, out, dry), a, blocks, rate)
  {
    var r := HandsOut(l, m, out, dry);
    assert l.lead == |m.total|;
    assert r.m.total == Silence(l.lead) + Silence(out);
    assert r.m.total[..r.lead] == Silence(r.lead) && r.m.total[r.lead..] == [];
    assert [] + m.w.window == [];
  }

  lemma TurnOnAir(l: Loop, a: int, blocks: seq<Block>, rate: nat)
    requires l.Valid() && rate > 0 && OnAir(l, a, blocks, rate) && Chained(blocks, rate)
    requires (blocks != [] ==> a == blocks[0].alignment) && !Took(l, Iterate, blocks, rate).dry
    ensures OnAir(Took(l, Iterate, blocks, rate), a, blocks, rate)
  {
    hide OneTurn, OnTape, Chained, HandsOut;
    if l.call.Some? {
      var out := l.call.value;
      var t := OneTurn(l.m.w, rate, out);
      var m := Moved(l.m, Turning(rate, out));
      if !(t.more && |m.w.window| < out) {
        assert !t.dry by { DryStays(l, m, out, t.dry); }
      } else {
        GoesOnWet(l.m.w, rate, out);
      }
      TurnTracks(l.m.w, rate, out, l.m.total[l.lead..], a, blocks);
      if |m.w.window| == out {
        FullOnAir(l, m, out, t.dry, a, blocks, rate);
      } else if !t.more {
        EmptyOnAir(l, m, out, t.dry, a, blocks, rate);
      }
    }
  }

  /** A turn runs dry exactly when the cursor has started and finds nothing buffered. */
  lemma DryExactly(w: Window, rate: nat, out: nat)
    requires Shaped(w) && rate > 0 && |w.window| < out
    ensures OneTurn(w, rate, out).dry <==> w.cursor.primed && w.queue == []
  {
    hide LoadAlignment, FramesToNs, SatAddNs;
  }

  lemma DryStays(l: Loop, m: Machine, out: nat, dry: bool)
    requires Shaped(m.w)
    ensures HandsOut(l, m, out, dry).dry == (l.dry || dry)
  {
  }

  lemma GoesOnWet(w: Window, rate: nat, out: nat)
    requires Shaped(w) && rate > 0 && |w.window| < out
    ensures OneTurn(w, rate, out).more ==> !OneTurn(w, rate, out).dry
  {
    hide OneTurn;
  }

  lemma {:induction false} EveryLoopOnAir(events: seq<Event>, blocks: seq<Block>, rate: nat, a: int)
    requires rate > 0 && Chained(blocks, rate) && (blocks != [] ==> a == blocks[0].alignment)
    requires !Looped(events, blocks, rate).dry
    ensures OnAir(Looped(events, blocks, rate), a, blocks, rate)
  {
    hide Chained, OneTurn, OnAir;
    if events == [] {
      BeginsOnAir(a, blocks, rate);
    } else {
      var before := Looped(events[..|events| - 1], blocks, rate);
      EveryLoopOnAir(events[..|events| - 1], blocks, rate, a);
      match events[|events| - 1] {
        case Push => PushOnAir(before, a, blocks, rate);
        case Call(out) => CallOnAir(before, out, a, blocks, rate);
        case Iterate => TurnOnAir(before, a, blocks, rate);
      }
    }
  }

  lemma CallOnAir(l: Loop, out: nat, a: int, blocks: seq<Block>, rate: nat)
    requires l.Valid() && rate > 0 && OnAir(l, a, blocks, rate)
    ensures OnAir(Took(l, Call(out), blocks, rate), a, blocks, rate)
  {
  }

  lemma BeginsOnAir(a: int, blocks: seq<Block>, rate: nat)
    ensures OnAir(BEGIN, a, blocks, rate)
  {
  }

  /** Whatever the window sizes, whenever blocks arrive: everything handed out, padding included, and the window
      under way are silence for the windows asked for too early, and from there on the source shifted by the first
      alignment: that many silent frames first, or that many source frames never heard. */
  lemma NoDrift(events: seq<Event>, blocks: seq<Block>, rate: nat)
    requires rate > 0 && Chained(blocks, rate) && blocks != [] && !Looped(events, blocks, rate).dry
    ensures var l := Looped(events, blocks, rate);
            && l.lead <= |l.m.total| && Written(l.m) == Silence(l.lead) + Tape(blocks[0].alignment, |Written(l.m)| - l.lead)
            && (!l.m.w.cursor.primed ==> Written(l.m) == Silence(l.lead))
  {
    hide Chained, Looped, Tape;
    var a := blocks[0].alignment;
    EveryLoopOnAir(events, blocks, rate, a);
    var l := Looped(events, blocks, rate);
    assert Written(l.m) == l.m.total[..l.lead] + (l.m.total[l.lead..] + l.m.w.window);
    if !l.m.w.cursor.primed {
      assert l.m.total[l.lead..] + l.m.w.window == [];
    }
  }

  /** A call hands out exactly the window it was asked for. While nothing runs dry that window is full, or silent
      because there was not enough to start with; the latter only makes the lead longer. */
  lemma EveryWindowFull(events: seq<Event>, blocks: seq<Block>, rate: nat)
    requires rate > 0 && Chained(blocks, rate) && blocks != []
    requires var l := Looped(events, blocks, rate);
             l.call.Some? && Took(l, Iterate, blocks, rate).call.None? && !Took(l, Iterate, blocks, rate).dry
    ensures var l := Looped(events, blocks, rate); var r := Took(l, Iterate, blocks, rate); var out := l.call.value;
            && |r.m.total| == |l.m.total| + out && l.m.total <= r.m.total
            && (if r.m.w.cursor.primed then |OneTurn(l.m.w, rate, out).after.window| == out && r.lead == l.lead
                else r.m.total == l.m.total + Silence(out) && r.lead == l.lead + out == |r.m.total|)
  {
    hide Chained, Looped, OneTurn, OnTape;
    var l := Looped(events, blocks, rate);
    var out, a := l.call.value, blocks[0].alignment;
    EveryLoopOnAir(events, blocks, rate, a);
    TurnTracks(l.m.w, rate, out, l.m.total[l.lead..], a, blocks);
    var after := OneTurn(l.m.w, rate, out).after;
    FullOrFresh(after, l.m.total[l.lead..], out, a, blocks, rate);
    assert Silence(0) == [] && [] + Silence(out) == Silence(out);
  }

  lemma FullOrFresh(w: Window, total: seq<Option<nat>>, out: nat, a: int, blocks: seq<Block>, rate: nat)
    requires OnTape(w, total, a, blocks, rate) && out > 0
    ensures w.cursor.primed ==> !Fresh(w)
    ensures |w.window| == out ==> w.cursor.primed
    ensures Fresh(w) ==> total == [] && w.window == []
  {
    hide Tape;
  }

  /** The loop with nothing arriving meanwhile is the whole call. */
  function Turned(l: Loop, n: nat, blocks: seq<Block>, rate: nat): (r: Loop)
    requires l.Valid() && rate > 0
    ensures r.Valid()
    decreases n
  {
    if n == 0 then l else Turned(Took(l, Iterate, blocks, rate), n - 1, blocks, rate)
  }

  lemma {:induction false} TurnsConsume(l: Loop, blocks: seq<Block>, rate: nat) returns (n: nat)
    requires l.Valid() && rate > 0 && l.call.Some?
    ensures var r := Consume(l.m.w, rate, l.call.value);
            Turned(l, n, blocks, rate) == HandsOut(l, l.m.(w := r.after), l.call.value, r.dry)
    decreases Size(l.m.w, l.call.value)
  {
    hide OneTurn;
    var out := l.call.value;
    var t := OneTurn(l.m.w, rate, out);
    var next := Took(l, Iterate, blocks, rate);
    assert Moved(l.m, Turning(rate, out)) == l.m.(w := t.after);
    if t.more && |t.after.window| < out {
      var rest := TurnsConsume(next, blocks, rate);
      n := rest + 1;
    } else {
      n := 1;
      assert Turned(next, 0, blocks, rate) == next;
    }
  }

  // ---------------------------------------------------------------------
  // The timestamps of an uninterrupted producer

  /** Start of block k of a stream at a base time. */
  function Scheduled(base: nat, k: nat, rate: nat): nat
    requires rate > 0
  {
    base + k * FRAMES * NS / rate
  }

  lemma DivideParts(q: nat, r: nat, d: nat)
    requires d > 0
    ensures (q * d + r) / d == q + r / d
  {
    var x := q * d + r;
    assert x == (q + r / d) * d + r % d;
    QuotientIs(x, d, q + r / d, r % d);
  }

  lemma QuotientIs(x: nat, d: nat, q: nat, r: nat)
    requires d > 0 && x == q * d + r && r < d
    ensures x / d == q
  {
    var p := x / d;
    assert x == p * d + x % d;
    if p < q {
      MoreThan(p + 1, q, d);
    } else if p > q {
      MoreThan(q + 1, p, d);
    }
  }

  lemma MoreThan(a: nat, b: nat, d: nat)
    requires a <= b
    ensures a * d <= b * d
  {
  }

  /** The split computation is the exact floor. */
  lemma FramesToNsIs(frames: nat, rate: nat)
    requires rate > 0
    ensures FramesToNs(frames, rate) == frames * NS / rate
  {
    var q, r := frames / rate, frames % rate;
    assert frames * NS == (q * NS) * rate + r * NS;
    DivideParts(q * NS, r * NS, rate);
  }

  lemma AddTimes(a: nat, b: nat, d: nat)
    ensures (a + b) * d == a * d + b * d
  {
  }

  lemma RemainderCarry(r: nat, d: nat)
    requires 0 < d && r < 2 * d
    ensures r / d <= 1
  {
    if r < d {
      QuotientIs(r, d, 0, r);
    } else {
      QuotientIs(r, d, 1, r - d);
    }
  }

  lemma FloorParts(x: nat, qx: nat, rx: nat, y: nat, qy: nat, ry: nat, d: nat)
    requires rx < d && ry < d && x == qx * d + rx && y == qy * d + ry
    ensures (x + y) / d == qx + qy + (rx + ry) / d
  {
    AddTimes(qx, qy, d);
    DivideParts(qx + qy, rx + ry, d);
  }

  /** Floors of a sum are at most one apart. */
  lemma FloorSum(x: nat, y: nat, d: nat)
    requires d > 0
    ensures x / d + y / d <= (x + y) / d <= x / d + y / d + 1
  {
    var qx, rx, qy, ry := x / d, x % d, y / d, y % d;
    FloorParts(x, qx, rx, y, qy, ry, d);
    RemainderCarry(rx + ry, d);
  }

  lemma AtLeast(n: nat, rate: nat, ns: nat)
    requires 0 < rate && n * rate <= ns
    ensures ns / rate >= n
  {
    DivideParts(n, ns - n * rate, rate);
  }

  /** Block k + 1 of an uninterrupted producer is judged to continue block k. */
  predicate Judged(base: nat, k: nat, rate: nat)
    requires rate > 0
  {
    Contiguous(SatAddNs(Scheduled(base, k, rate), FramesToNs(FRAMES, rate)), Scheduled(base, k + 1, rate), rate)
  }

  lemma NextScheduled(base: nat, k: nat, rate: nat)
    requires rate > 0
    ensures Scheduled(base, k + 1, rate) == base + (k * FRAMES * NS + FRAMES * NS) / rate
  {
    assert (k + 1) * FRAMES * NS == k * FRAMES * NS + FRAMES * NS;
  }

  /** Up to 500 MHz the blocks of an uninterrupted producer are always judged contiguous. */
  lemma ScheduledContiguous(base: nat, k: nat, rate: nat)
    requires 0 < rate <= 500_000_000 && Scheduled(base, k + 1, rate) <= U64_MAX
    ensures Judged(base, k, rate)
  {
    FramesToNsIs(FRAMES, rate);
    FramesToNsIs(1, rate);
    NextScheduled(base, k, rate);
    FloorSum(k * FRAMES * NS, FRAMES * NS, rate);
    AtLeast(2, rate, NS);
    AtLeast(2, rate, FRAMES * NS);
  }

  /** A whole number of nanoseconds per block is never rounded. */
  lemma WholeContiguous(base: nat, k: nat, rate: nat)
    requires rate > 0 && FRAMES * NS % rate == 0 && base > 0 && Scheduled(base, k + 1, rate) <= U64_MAX
    ensures Judged(base, k, rate)
  {
    FramesToNsIs(FRAMES, rate);
    NextScheduled(base, k, rate);
    WholeSum(k * FRAMES * NS, FRAMES * NS, rate);
  }

  lemma WholeSum(x: nat, y: nat, d: nat)
    requires d > 0 && y % d == 0
    ensures (x + y) / d == x / d + y / d
  {
    var qx, rx, qy := x / d, x % d, y / d;
    FloorParts(x, qx, rx, y, qy, 0, d);
    QuotientIs(rx, d, 0, rx);
  }

  /** Remainders of r add up past the divisor for the first time at k. */
  lemma FirstCarry(y: nat, rate: nat) returns (k: nat)
    requires rate > 0 && y % rate > 0
    ensures k < rate && k * (y % rate) < rate <= (k + 1) * (y % rate)
  {
    var r := y % rate;
    k := (rate - 1) / r;
    assert rate - 1 == k * r + (rate - 1) % r;
    AddTimes(k, 1, r);
    MoreThan(1, r, k);
    assert k * r == r * k;
  }

  /** At that block the floors of the parts fall one short of the floor of the sum. */
  lemma CarryApart(k: nat, y: nat, rate: nat)
    requires rate > 0 && k * (y % rate) < rate <= (k + 1) * (y % rate)
    ensures (k * y + y) / rate == k * y / rate + y / rate + 1
  {
    var q, r := y / rate, y % rate;
    assert k * y == (k * q) * rate + k * r by {
      assert y == q * rate + r;
      Spread(k, q * rate, r);
      Regrouped(k, q, rate);
    }
    QuotientIs(k * y, rate, k * q, k * r);
    FloorParts(k * y, k * q, k * r, y, q, r, rate);
    AddTimes(k, 1, r);
    QuotientIs(k * r + r, rate, 1, k * r + r - rate);
  }

  lemma Spread(k: nat, a: nat, b: nat)
    ensures k * (a + b) == k * a + k * b
  {
  }

  lemma Regrouped(k: nat, q: nat, d: nat)
    ensures k * (q * d) == (k * q) * d
  {
  }

  /** Above 500 MHz one nanosecond apart is a break. */
  lemma CarryBreaks(k: nat, rate: nat)
    requires rate > 500_000_000
    requires k * (FRAMES * NS % rate) < rate <= (k + 1) * (FRAMES * NS % rate) && k < rate
    ensures Scheduled(1, k + 1, rate) <= U64_MAX && !Judged(1, k, rate)
  {
    var y := FRAMES * NS;
    FramesToNsIs(FRAMES, rate);
    FramesToNsIs(1, rate);
    NextScheduled(1, k, rate);
    assert k * FRAMES * NS == k * y;
    CarryApart(k, y, rate);
    MoreThan(k + 1, rate, y);
    AddTimes(k, 1, y);
    AddTimes(y, 1, rate);
    BelowQuotient(k * y + y, rate, y);
    BelowQuotient(NS, rate, 1);
  }

  lemma BelowQuotient(x: nat, d: nat, q: nat)
    requires d > 0 && x < (q + 1) * d
    ensures x / d <= q
  {
    var p := x / d;
    assert x == p * d + x % d;
    if p > q {
      MoreThan(q + 1, p, d);
    }
  }

  ghost predicate AlwaysContiguous(rate: nat)
    requires rate > 0
  {
    forall base: nat, k: nat :: base > 0 && Scheduled(base, k + 1, rate) <= U64_MAX ==> Judged(base, k, rate)
  }

  /** Rounded timestamps are always judged contiguous exactly up to 500 MHz, or when a block lasts whole nanoseconds. */
  lemma ContiguousExactly(rate: nat)
    requires rate > 0
    ensures AlwaysContiguous(rate) <==> rate <= 500_000_000 || FRAMES * NS % rate == 0
  {
    hide Judged, Scheduled;
    if rate <= 500_000_000 || FRAMES * NS % rate == 0 {
      forall base: nat, k: nat | base > 0 && Scheduled(base, k + 1, rate) <= U64_MAX ensures Judged(base, k, rate) {
        if rate <= 500_000_000 {
          ScheduledContiguous(base, k, rate);
        } else {
          WholeContiguous(base, k, rate);
        }
      }
    } else {
      var k := FirstCarry(FRAMES * NS, rate);
      CarryBreaks(k, rate);
    }
  }
}
