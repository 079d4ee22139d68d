/** Timestamp epochs are optimal. */
module PacketDelayEpoch {
  // Each lane gets the least offset that clears every horizon, and after unification no lane is shifted a
  // whole tick further than another.

  import opened Options
  import opened Timestamps
  import opened PacketTypes
  import opened PacketDelaySpec
  import opened PacketDelayStep
  import opened PacketDelayInvariant

  predicate Above(h: Option<Horizon>, tick: int, den: int, strict: bool) {
    h.None? || Clears(tick, den, h.value.value, h.value.tb.den, strict)
  }

  /** The offset respects the delay, the 64-bit range and all three horizons. */
  predicate Acceptable(s: State, p: Packet, base: int, offset: int) {
    && base <= offset && Shiftable(p, offset)
    && Above(Find(s.outputDts, Timeline(p.stream)), p.dts + offset, p.tb.den, true)
    && Above(s.emitted, p.dts + offset, p.tb.den, false)
    && Above(Find(s.outputPts, Timeline(p.stream)), p.pts + offset, p.tb.den, true)
  }

  lemma RaisedIsLeast(h: Option<Horizon>, timestamp: int, den: int, strict: bool, floor: int, offset: int)
    requires den > 0 && (h.Some? ==> h.value.tb.den > 0)
    ensures offset >= RaisedTo(h, timestamp, den, strict, floor)
       <==> offset >= floor && Above(h, timestamp + offset, den, strict)
  {
    if h.Some? {
      LeastTickIsLeast(timestamp + offset, h.value.value, h.value.tb.den, den, strict);
    }
  }

  /** Least acceptable offset, and none exactly when no offset is acceptable. */
  lemma EpochOffsetOptimal(s: State, p: Packet, delay: int, base: int, offset: int)
    requires HorizonsOk(s) && p.tb.Valid() && DelayTicks(delay, p.tb) == Some(base)
    ensures Acceptable(s, p, base, offset)
       <==> EpochOffset(s, p, delay).Some? && offset >= EpochOffset(s, p, delay).value && Shiftable(p, offset)
  {
    hide LeastTick, Clears, Cmp, DelayTicks;
    var lane, d := Timeline(p.stream), p.tb.den;
    var byDts := RaisedTo(Find(s.outputDts, lane), p.dts, d, true, base);
    var byGlobal := RaisedTo(s.emitted, p.dts, d, false, byDts);
    RaisedIsLeast(Find(s.outputDts, lane), p.dts, d, true, base, offset);
    RaisedIsLeast(s.emitted, p.dts, d, false, byDts, offset);
    RaisedIsLeast(Find(s.outputPts, lane), p.pts, d, true, byGlobal, offset);
  }

  // ---------------------------------------------------------------------
  // Unification

  /** The shift reaches the common one and would not with one tick less. */
  predicate JustReaches(common: Horizon, den: int, offset: int) {
    && Le(common.value, common.tb.den, offset, den)
    && Cmp(offset - 1, den, common.value, common.tb.den) < 0
  }

  lemma CmpFlip(a: int, ad: int, b: int, bd: int)
    ensures Cmp(a, ad, b, bd) == -Cmp(b, bd, a, ad)
  {
  }

  lemma CommonTicksReach(common: Horizon, den: int)
    requires common.tb.Valid() && den > 0
    ensures JustReaches(common, den, CommonTicks(common, den))
  {
    hide LeastTick;
    var t := CommonTicks(common, den);
    LeastTickIsLeast(t, common.value, common.tb.den, den, false);
    LeastTickIsLeast(t - 1, common.value, common.tb.den, den, false);
    CmpFlip(t, den, common.value, common.tb.den);
  }

  lemma BelowCommon(common: Horizon, den: int, offset: int)
    requires common.tb.Valid() && den > 0 && Le(offset, den, common.value, common.tb.den)
    ensures offset <= CommonTicks(common, den)
  {
    hide LeastTick;
    var t := CommonTicks(common, den);
    CommonTicksReach(common, den);
    LeTransitive(offset, den, common.value, common.tb.den, t, den);
    if offset > t {
      StrictMono(t, offset, den);
    }
  }

  /** Each unified offset is the lane's own offset raised just as far as the widest shift. */
  lemma UnifiedJustReach(s: State, fronts: Fronts, delay: int)
    requires UnifiedOffsets(s, fronts, delay).Some? && fronts != map[]
    ensures var offsets := UnifiedOffsets(s, fronts, delay).value;
            && offsets.Keys == fronts.Keys
            && forall k :: k in fronts ==>
                 && JustReaches(CommonShift(s, fronts, delay), fronts[k].tb.den, offsets[k])
                 && Shift(s, fronts, delay, k) <= offsets[k] && Shiftable(fronts[k], offsets[k])
  {
    hide EpochOffset, LeastTick, JustReaches;
    WidestExists(s, fronts, delay);
    var common := CommonShift(s, fronts, delay);
    forall k | k in fronts
      ensures JustReaches(common, fronts[k].tb.den, UnifiedOffsets(s, fronts, delay).value[k])
    {
      BelowCommon(common, fronts[k].tb.den, Shift(s, fronts, delay, k));
      CommonTicksReach(common, fronts[k].tb.den);
    }
  }

  lemma JustApart(common: Horizon, a: int, ad: int, b: int, bd: int)
    requires common.tb.Valid() && ad > 0 && bd > 0 && JustReaches(common, ad, a) && JustReaches(common, bd, b)
    ensures Cmp(a - 1, ad, b, bd) < 0
  {
    LeTransitive(a - 1, ad, common.value, common.tb.den, b, bd);
  }

  /** No lane's shift exceeds another lane's by as much as one of its own ticks. */
  lemma UnifiedConsistent(s: State, fronts: Fronts, delay: int, k: StreamKey, j: StreamKey)
    requires UnifiedOffsets(s, fronts, delay).Some? && k in fronts && j in fronts
    ensures var offsets := UnifiedOffsets(s, fronts, delay).value;
            k in offsets && j in offsets && Cmp(offsets[k] - 1, fronts[k].tb.den, offsets[j], fronts[j].tb.den) < 0
  {
    hide EpochOffset, LeastTick, UnifiedOffsets, JustReaches, Cmp;
    UnifiedJustReach(s, fronts, delay);
    UnifiedDefined(s, fronts, delay);
    CommonValid(s, fronts, delay);
    var offsets := UnifiedOffsets(s, fronts, delay).value;
    JustApart(CommonShift(s, fronts, delay), offsets[k], fronts[k].tb.den, offsets[j], fronts[j].tb.den);
  }

  lemma UnifiedDefined(s: State, fronts: Fronts, delay: int)
    requires UnifiedOffsets(s, fronts, delay).Some?
    ensures TimeBased(fronts) && Offsettable(s, fronts, delay)
  {
  }

  lemma CommonValid(s: State, fronts: Fronts, delay: int)
    requires fronts != map[] && TimeBased(fronts) && Offsettable(s, fronts, delay)
    ensures CommonShift(s, fronts, delay).tb.Valid()
  {
    hide EpochOffset;
    WidestExists(s, fronts, delay);
  }

  /** Unification never takes a lane back below a horizon. */
  lemma UnifiedAcceptable(s: State, fronts: Fronts, delay: int, k: StreamKey)
    requires HorizonsOk(s) && UnifiedOffsets(s, fronts, delay).Some? && k in fronts
    ensures var offsets := UnifiedOffsets(s, fronts, delay).value;
            k in offsets && Acceptable(s, fronts[k], DelayTicks(delay, fronts[k].tb).value, offsets[k])
  {
    hide EpochOffset, LeastTick, UnifiedOffsets, Acceptable, DelayTicks;
    UnifiedJustReach(s, fronts, delay);
    UnifiedDefined(s, fronts, delay);
    OffsetHasBase(s, fronts[k], delay);
    var offsets := UnifiedOffsets(s, fronts, delay).value;
    EpochOffsetOptimal(s, fronts[k], delay, DelayTicks(delay, fronts[k].tb).value, offsets[k]);
  }

  lemma OffsetHasBase(s: State, p: Packet, delay: int)
    requires EpochOffset(s, p, delay).Some?
    ensures DelayTicks(delay, p.tb).Some?
  {
  }

  lemma SameDen(a: int, b: int, den: int)
    requires den > 0
    ensures Cmp(a, den, b, den) == Sign(a - b)
  {
    if a < b { StrictMono(a, b, den); }
    if a > b { StrictMono(b, a, den); }
  }

  /** In one time base all lanes get the same offset. */
  lemma UnifiedSame(s: State, fronts: Fronts, delay: int, k: StreamKey, j: StreamKey)
    requires UnifiedOffsets(s, fronts, delay).Some? && k in fronts && j in fronts
    requires fronts[k].tb.den == fronts[j].tb.den
    ensures var offsets := UnifiedOffsets(s, fronts, delay).value;
            k in offsets && j in offsets && offsets[k] == offsets[j]
  {
    hide EpochOffset, LeastTick, UnifiedOffsets, Cmp;
    UnifiedConsistent(s, fronts, delay, k, j);
    UnifiedConsistent(s, fronts, delay, j, k);
    UnifiedDefined(s, fronts, delay);
    var offsets := UnifiedOffsets(s, fronts, delay).value;
    var a: int, b: int := offsets[k], offsets[j];
    SameDen(a - 1, b, fronts[k].tb.den);
    SameDen(b - 1, a, fronts[k].tb.den);
  }

  /** Some lane could not be shifted by a tick less, so neither could the others be without coming apart from it. */
  ghost predicate Tight(s: State, fronts: Fronts, delay: int, offsets: map<StreamKey, i64>) {
    exists k :: k in fronts && k in offsets && DelayTicks(delay, fronts[k].tb).Some? &&
      !Acceptable(s, fronts[k], DelayTicks(delay, fronts[k].tb).value, offsets[k] as int - 1)
  }

  lemma CommonIsWidest(s: State, fronts: Fronts, delay: int) returns (k: StreamKey)
    requires fronts != map[] && TimeBased(fronts) && Offsettable(s, fronts, delay)
    ensures k in fronts && CommonShift(s, fronts, delay) == Horizon(Shift(s, fronts, delay, k), fronts[k].tb)
  {
    hide EpochOffset, Cmp;
    WidestExists(s, fronts, delay);
    k :| Widest(s, fronts, delay, k) && CommonShift(s, fronts, delay) == Horizon(Shift(s, fronts, delay, k), fronts[k].tb);
  }

  lemma ReachesOwn(common: Horizon, den: int, offset: int)
    requires den > 0 && common.tb.den == den && JustReaches(common, den, offset)
    ensures offset == common.value
  {
    hide Cmp;
    SameDen(offset - 1, common.value, den);
    SameDen(common.value, offset, den);
  }

  lemma OneLess(s: State, p: Packet, delay: int, offset: int)
    requires HorizonsOk(s) && p.tb.Valid() && EpochOffset(s, p, delay).Some? && offset == EpochOffset(s, p, delay).value
    ensures DelayTicks(delay, p.tb).Some? && !Acceptable(s, p, DelayTicks(delay, p.tb).value, offset - 1)
  {
    hide EpochOffset, DelayTicks, Acceptable, HorizonsOk;
    OffsetHasBase(s, p, delay);
    EpochOffsetOptimal(s, p, delay, DelayTicks(delay, p.tb).value, offset - 1);
  }

  /** Unified offsets are not larger than the delay and what was shown before require. */
  lemma UnifiedTight(s: State, fronts: Fronts, delay: int)
    requires HorizonsOk(s) && UnifiedOffsets(s, fronts, delay).Some? && fronts != map[]
    ensures Tight(s, fronts, delay, UnifiedOffsets(s, fronts, delay).value)
  {
    hide EpochOffset, UnifiedOffsets, Acceptable, DelayTicks, HorizonsOk, JustReaches, CommonShift;
    UnifiedDefined(s, fronts, delay);
    UnifiedJustReach(s, fronts, delay);
    var offsets := UnifiedOffsets(s, fronts, delay).value;
    var k := CommonIsWidest(s, fronts, delay);
    ReachesOwn(CommonShift(s, fronts, delay), fronts[k].tb.den, offsets[k]);
    OneLess(s, fronts[k], delay, offsets[k]);
  }
}
