/** Starts and refusals. */
module PcmStart {
  import opened Options
  import opened PcmCursor

  /** The cursor waits exactly until a second block is there, or the only one starts late. */
  lemma WaitsExactly(w: Window, rate: nat, out: nat)
    requires Shaped(w) && rate > 0 && |w.window| < out
    ensures OneTurn(w, rate, out) == Turn(w, false, false)
            <==> !w.cursor.primed && (w.queue == [] || (|w.queue| == 1 && w.queue[0].alignment <= 0))
  {
    hide SkipBlock, CopyBlock, LoadAlignment;
    if w.queue != [] && !MustWait(w) {
      TurnGoes(w, rate, out);
    }
  }

  lemma TurnGoes(w: Window, rate: nat, out: nat)
    requires Shaped(w) && rate > 0 && |w.window| < out && w.queue != [] && !MustWait(w)
    ensures OneTurn(w, rate, out).more || |OneTurn(w, rate, out).after.window| == out
  {
    hide LoadAlignment, Usable;
    if Usable(w.queue[0], rate) && !w.cursor.aligned {
      AlignEnds(w.(cursor := w.cursor.(primed := true)), rate, out);
    }
  }

  lemma AlignEnds(w: Window, rate: nat, out: nat)
    requires Shaped(w) && rate > 0 && |w.window| < out && w.queue != []
    ensures AlignBlock(w, rate, out).more || |AlignBlock(w, rate, out).after.window| == out
  {
    hide LoadAlignment;
  }

  /** A block is passed over in silence exactly when it has no timestamp, another rate, or is not accepted; the cursor
      then starts over, and otherwise it goes on. */
  lemma RefusesExactly(w: Window, rate: nat, out: nat)
    requires Shaped(w) && rate > 0 && |w.window| < out && w.queue != [] && !MustWait(w)
    ensures var b := w.queue[0]; var t := OneTurn(w, rate, out);
            && (t.after.cursor.primed <==> b.timestamp != 0 && b.rate == rate && b.accepted)
            && (!t.after.cursor.primed ==>
                  && t.more && t.after.queue == w.queue[1..] && t.after.window == w.window && t.after.popped == w.popped + 1
                  && t.after.cursor == START)
  {
    hide LoadAlignment;
    if Usable(w.queue[0], rate) {
      GoesPrimed(w.(cursor := w.cursor.(primed := true)), rate, out);
    }
  }

  lemma GoesPrimed(w: Window, rate: nat, out: nat)
    requires Shaped(w) && rate > 0 && |w.window| < out && w.queue != [] && w.cursor.primed
    ensures CopyBlock(w, rate, out).after.cursor.primed && AlignBlock(w, rate, out).after.cursor.primed
  {
    hide DeltaFrames, Contiguous, FramesToNs;
  }
}
