/** The searches for epoch offsets. */
module PacketDelayOffsets {
  // They create and unify timestamp offsets and are proved against closed forms.

  import opened Options
  import opened Timestamps
  import opened PacketTypes
  import opened PacketDelaySpec
  import opened PacketDelayInvariant
  import opened PacketDelayEpoch

  /** The offset plus some ticks stays in range and clears the horizon. */
  predicate Raises(timestamp: i64, offset: i64, den: int, h: Horizon, strict: bool, additional: i64) {
    var candidateOffset := AddTimestamp(offset, additional);
    candidateOffset.Some? &&
    var candidate := AddTimestamp(timestamp, candidateOffset.value);
    candidate.Some? && Clears(candidate.value, den, h.value, h.tb.den, strict)
  }

  lemma RaisesFrom(timestamp: i64, offset: i64, den: int, h: Horizon, strict: bool, additional: i64)
    requires den > 0 && h.tb.den > 0
    ensures Raises(timestamp, offset, den, h, strict, additional)
       <==> AddTimestamp(offset, additional).Some? && AddTimestamp(timestamp, AddTimestamp(offset, additional).value).Some?
            && timestamp as int + offset as int + additional as int >= LeastTick(h.value, h.tb.den, den, strict)
  {
    hide Clears, LeastTick;
    LeastTickIsLeast(timestamp as int + offset as int + additional as int, h.value, h.tb.den, den, strict);
  }

  /** Largest increment that overflows neither the offset nor the shifted timestamp. */
  function MaximumAdditional(timestamp: i64, offset: i64): (m: i64)
    requires offset >= 0 && AddTimestamp(timestamp, offset).Some?
    ensures m >= 0
    ensures forall a: i64 :: 0 <= a <= m ==>
              AddTimestamp(offset, a).Some? && AddTimestamp(timestamp, AddTimestamp(offset, a).value).Some?
    ensures forall a: i64 :: a > m ==>
              AddTimestamp(offset, a).None? || AddTimestamp(timestamp, AddTimestamp(offset, a).value).None?
  {
    var shifted := timestamp + offset;
    var byOffset := MAX64 - offset;
    if shifted >= 0 && MAX64 - shifted < byOffset then MAX64 - shifted else byOffset
  }

  method RaiseToHorizon(timestamp: i64, offset: i64, den: i64, h: Horizon, strict: bool) returns (raised: Option<i64>)
    requires offset >= 0 && den > 0 && h.tb.den > 0
    ensures var r := RaisedTo(Some(h), timestamp, den, strict, offset);
            raised == if r <= MAX64 && timestamp + r <= MAX64 then Some(r) else None
  {
    var shifted := AddTimestamp(timestamp, offset);
    if shifted.None? {
      return None;
    }
    var maximum := MaximumAdditional(timestamp, offset);
    var satisfies := (additional: i64) => Raises(timestamp, offset, den, h, strict, additional);
    forall a: i64 ensures satisfies(a) <==> Raises(timestamp, offset, den, h, strict, a) {
    }
    RaisesUpward(timestamp, offset, den, h, strict, maximum);
    var additional := FirstSatisfyingNonnegative(maximum, satisfies);
    ghost var least := LeastTick(h.value, h.tb.den, den, strict);
    if additional.None? {
      RaisesFrom(timestamp, offset, den, h, strict, maximum);
      assert !satisfies(maximum);
      return None;
    }
    RaisesFrom(timestamp, offset, den, h, strict, additional.value);
    if additional.value > 0 {
      RaisesFrom(timestamp, offset, den, h, strict, additional.value - 1);
      assert !satisfies(additional.value - 1);
    }
    raised := AddTimestamp(offset, additional.value);
  }

  /** Raises the offset to a horizon when there is one; none when nothing representable clears it. */
  method RaiseIfKnown(timestamp: i64, offset: i64, den: i64, h: Option<Horizon>, strict: bool) returns (raised: Option<i64>)
    requires offset >= 0 && den > 0 && (h.Some? ==> h.value.tb.den > 0)
    ensures var r := RaisedTo(h, timestamp, den, strict, offset);
            && r >= offset
            && raised == if h.None? || (r <= MAX64 && timestamp + r <= MAX64) then Some(r) else None
  {
    if h.None? {
      return Some(offset);
    }
    raised := RaiseToHorizon(timestamp, offset, den, h.value, strict);
  }

  lemma RaisesUpward(timestamp: i64, offset: i64, den: i64, h: Horizon, strict: bool, maximum: i64)
    requires offset >= 0 && den > 0 && h.tb.den > 0 && AddTimestamp(timestamp, offset).Some?
    requires maximum == MaximumAdditional(timestamp, offset)
    ensures UpwardClosed((a: i64) => Raises(timestamp, offset, den, h, strict, a), maximum)
  {
    hide Raises, LeastTick;
    forall x: i64, y: i64 | 0 <= x <= y <= maximum && Raises(timestamp, offset, den, h, strict, x)
      ensures Raises(timestamp, offset, den, h, strict, y)
    {
      RaisesFrom(timestamp, offset, den, h, strict, x);
      RaisesFrom(timestamp, offset, den, h, strict, y);
    }
  }

  predicate Reaches(h: Horizon, den: int, tick: i64) {
    Cmp(tick, den, h.value, h.tb.den) >= 0
  }

  lemma ReachesFrom(h: Horizon, den: i64, tick: i64)
    requires h.tb.den > 0 && den > 0
    ensures Reaches(h, den, tick) <==> tick >= CommonTicks(h, den)
  {
    hide LeastTick;
    LeastTickIsLeast(tick, h.value, h.tb.den, den, false);
  }

  /** Least tick count of a lane that reaches the common shift. */
  method TicksToReach(h: Horizon, den: i64) returns (ticks: Option<i64>)
    requires h.tb.den > 0 && den > 0 && h.value >= 0
    ensures ticks == if CommonTicks(h, den) <= MAX64 then Some(CommonTicks(h, den)) else None
  {
    hide Reaches, LeastTick;
    var reaches := (tick: i64) => Reaches(h, den, tick);
    forall a: i64 ensures reaches(a) <==> a >= CommonTicks(h, den) {
      ReachesFrom(h, den, a);
    }
    assert UpwardClosed(reaches, MAX64);
    CommonNonnegative(h, den);
    ticks := FirstSatisfyingNonnegative(MAX64, reaches);
    if ticks.Some? {
      assert reaches(ticks.value);
      if ticks.value > 0 { assert !reaches(ticks.value - 1); }
    } else {
      assert !reaches(MAX64);
    }
  }

  lemma CommonNonnegative(h: Horizon, den: i64)
    requires h.tb.den > 0 && den > 0 && h.value >= 0
    ensures CommonTicks(h, den) >= 0
  {
    LeastTickIsLeast(-1, h.value, h.tb.den, den, false);
    SignTimes(h.value, den);
  }

  // ---------------------------------------------------------------------
  // One epoch for several lanes

  predicate Keyed(fronts: Fronts) {
    forall k :: k in fronts ==> fronts[k].stream == k
  }

  /** The offsets the lanes of an epoch get before they are unified. */
  function Shifts(s: State, fronts: Fronts, delay: int): map<StreamKey, i64>
    requires Offsettable(s, fronts, delay)
  {
    map k | k in fronts :: Shift(s, fronts, delay, k)
  }

  lemma ShiftNonnegative(s: State, p: Packet, delay: int)
    requires EpochOffset(s, p, delay).Some?
    ensures p.tb.Valid() && EpochOffset(s, p, delay).value >= 0
  {
    hide LeastTick;
  }

  /** An offset depends only on the horizons. */
  lemma OffsetOfHorizons(s: State, r: State, p: Packet, delay: int)
    requires r.outputDts == s.outputDts && r.outputPts == s.outputPts && r.emitted == s.emitted
    ensures EpochOffset(r, p, delay) == EpochOffset(s, p, delay)
  {
    hide RaisedTo, DelayTicks;
  }

  /** The common shift is at least every lane's shift and one of them. */
  ghost predicate WidestOf(offsets: map<StreamKey, i64>, fronts: Fronts, lanes: set<StreamKey>, h: Horizon)
    requires lanes <= fronts.Keys && fronts.Keys <= offsets.Keys
  {
    && (exists k :: k in lanes && h == Horizon(offsets[k], fronts[k].tb))
    && forall j :: j in lanes ==> Le(offsets[j], fronts[j].tb.den, h.value, h.tb.den)
  }

  lemma WidestMore(offsets: map<StreamKey, i64>, fronts: Fronts, lanes: set<StreamKey>, h: Horizon, k: StreamKey)
    requires lanes <= fronts.Keys && fronts.Keys <= offsets.Keys && TimeBased(fronts) && k in fronts
    requires WidestOf(offsets, fronts, lanes, h)
    ensures var g := Horizon(offsets[k], fronts[k].tb);
            WidestOf(offsets, fronts, lanes + {k}, if Cmp(g.value, g.tb.den, h.value, h.tb.den) > 0 then g else h)
  {
    var g := Horizon(offsets[k], fronts[k].tb);
    CmpFlip(g.value, g.tb.den, h.value, h.tb.den);
    if Cmp(g.value, g.tb.den, h.value, h.tb.den) > 0 {
      hide Cmp;
      forall j | j in lanes + {k} ensures Le(offsets[j], fronts[j].tb.den, g.value, g.tb.den) {
        if j in lanes {
          LeTransitive(offsets[j], fronts[j].tb.den, h.value, h.tb.den, g.value, g.tb.den);
        } else {
          SameDen(g.value, g.value, g.tb.den);
        }
      }
    }
  }

  /** Equal shifts are reached by the same tick counts. */
  lemma CommonTicksSame(h: Horizon, g: Horizon, den: int)
    requires h.tb.Valid() && g.tb.Valid() && den > 0
    requires Le(h.value, h.tb.den, g.value, g.tb.den) && Le(g.value, g.tb.den, h.value, h.tb.den)
    ensures CommonTicks(h, den) == CommonTicks(g, den)
  {
    hide LeastTick, CommonTicks, Cmp;
    CommonBelow(h, g, den);
    CommonBelow(g, h, den);
  }

  lemma CommonBelow(h: Horizon, g: Horizon, den: int)
    requires h.tb.Valid() && g.tb.Valid() && den > 0 && Le(h.value, h.tb.den, g.value, g.tb.den)
    ensures CommonTicks(h, den) <= CommonTicks(g, den)
  {
    hide LeastTick, CommonTicks, Cmp;
    var a, b := CommonTicks(h, den), CommonTicks(g, den);
    CommonTicksReach(h, den);
    CommonTicksReach(g, den);
    if a > b {
      LeTransitive(h.value, h.tb.den, g.value, g.tb.den, b, den);
      LeTransitive(h.value, h.tb.den, b, den, a - 1, den) by { StepLe(b, a - 1, den); }
      CmpFlip(a - 1, den, h.value, h.tb.den);
    }
  }

  lemma StepLe(a: int, b: int, den: int)
    requires den > 0 && a <= b
    ensures Le(a, den, b, den)
  {
    SameDen(a, b, den);
  }

  /** One lane's offset raised to the common shift, if its packet can be shifted that far. */
  method RaiseToCommon(p: Packet, offset: i64, common: Horizon) returns (raised: Option<i64>)
    requires p.tb.Valid() && common.tb.Valid() && offset >= 0 && common.value >= 0
    ensures var t := Max(offset, CommonTicks(common, p.tb.den));
            raised == if Shiftable(p, t) then Some(t) else None
  {
    hide CommonTicks;
    var reached := TicksToReach(common, p.tb.den);
    if reached.None? {
      return None;
    }
    var unified := Max(offset, reached.value);
    if AddTimestamp(p.pts, unified).None? || AddTimestamp(p.dts, unified).None? {
      return None;
    }
    raised := Some(unified);
  }

  /** Whichever widest lane is found, unification gives every lane the same offset. */
  lemma UnifiedFrom(s: State, fronts: Fronts, delay: int, h: Horizon)
    requires fronts != map[] && TimeBased(fronts) && Offsettable(s, fronts, delay)
    requires WidestOf(Shifts(s, fronts, delay), fronts, fronts.Keys, h)
    ensures h.tb.Valid()
    ensures var unified := UnifiedOffsets(s, fronts, delay);
            var ticks := map k | k in fronts :: Max(Shift(s, fronts, delay, k), CommonTicks(h, fronts[k].tb.den));
            if forall k :: k in fronts ==> Shiftable(fronts[k], ticks[k]) then
              unified.Some? && unified.value.Keys == fronts.Keys && forall k :: k in fronts ==> unified.value[k] == ticks[k]
            else unified.None?
  {
    hide EpochOffset, CommonTicks, Cmp;
    WidestExists(s, fronts, delay);
    var common := CommonShift(s, fronts, delay);
    forall k | k in fronts ensures CommonTicks(common, fronts[k].tb.den) == CommonTicks(h, fronts[k].tb.den) {
      CommonTicksSame(common, h, fronts[k].tb.den);
    }
  }
}
