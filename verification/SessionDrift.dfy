/** When lanes count as drifted. */
module SessionDrift {
  // A realignment in the session's own numbers: asked for by a hole in the source, carried out when some audio lane
  // holds visibly more or less than the video lane, and forgotten when none does.

  import opened Options
  import opened SessionSpec
  import opened SessionRealign
  import opened SessionDelayLine

  /** A lane of known step misses more than half a step, and more than two milliseconds. */
  predicate Misses(step: nat, distance: int) {
    step > 0 && distance - step > 2_000 && distance - step > step / 2
  }

  /** Realignment is asked for, or the next video packet comes a hole after the last one handed out. */
  predicate Wanted(s: State)
    requires s.Shaped() && s.primary[0] != []
  {
    s.realign || (s.lastEmitted[0].Some? && Misses(s.steps[0], s.primary[0][0].usec - s.lastEmitted[0].value))
  }

  /** The audio lanes all hold something. */
  predicate Fed(s: State)
    requires s.Shaped()
  {
    forall l :: l in s.active ==> s.primary[l] != [] && s.lastPrimary[l].Some?
  }

  /** The time from the head of the lane to now, as the lane itself counts it. */
  function Span(s: State, l: nat): int
    requires s.Shaped() && l in s.active && Fed(s)
  {
    s.lastPrimary[l].value + s.steps[l] - s.primary[l][0].usec
  }

  /** Some audio lane holds more than four milliseconds and more than two steps of either lane too much or too little. */
  predicate Apart(s: State, raw: int)
    requires s.Shaped() && s.primary[0] != [] && Fed(s)
  {
    exists l :: l in s.active &&
      var d := raw - s.primary[0][0].usec - Span(s, l);
      (d > 4_000 && d > 2 * s.steps[0] && d > 2 * s.steps[l]) || (-d > 4_000 && -d > 2 * s.steps[0] && -d > 2 * s.steps[l])
  }

  lemma ApartIsSkewed(s: State, raw: int)
    requires s.Shaped() && s.primary[0] != [] && Fed(s)
    ensures LanesReady(s) && (Apart(s, raw) <==> Skewed(s, raw - s.primary[0][0].usec))
  {
    forall l | l in s.active ensures Lead(s, l) == Span(s, l) {
    }
  }

  lemma WantedIsChecked(s: State)
    requires s.Shaped() && s.primary[0] != []
    ensures HeadChecked(s) == s.(realign := Wanted(s))
  {
  }

  /** A video packet carries a realignment out exactly when one is wanted, all lanes hold something, and some lane is
      apart; where none is apart the wish is dropped, and otherwise it stays. Nothing else changes without a cut. */
  lemma RealignExactly(s: State, carrier: Packet, raw: int)
    requires s.Shaped()
    ensures var r := Realign(s, carrier, raw);
            if !carrier.video || s.primary[0] == [] then r == Flow(s, carrier)
            else if !Wanted(s) || !Fed(s) then r == Flow(s.(realign := Wanted(s)), carrier)
            else if !Apart(s, raw) then r == Flow(s.(realign := false), carrier)
            else Drifted(s, carrier, raw)
  {
    hide Pick, Covered, CutAt, BeginEpoch, Skewed, HeadChecked, Apart, Wanted;
    if carrier.video && s.primary[0] != [] {
      WantedIsChecked(s);
      var s1 := s.(realign := Wanted(s));
      if Fed(s) {
        ApartIsSkewed(s1, raw);
        SameApart(s, s1, raw);
      }
    }
  }

  lemma SameApart(s: State, r: State, raw: int)
    requires s.Shaped() && r == s.(realign := r.realign) && s.primary[0] != [] && Fed(s)
    ensures r.Shaped() && Fed(r) && Apart(r, raw) == Apart(s, raw)
  {
    forall l | l in s.active ensures Span(r, l) == Span(s, l) {
    }
  }
}
