/** Session video goes on with the next payload or a keyframe. */
module SessionContinuity {
  // From the request of a delay until the output is live again the video decoder receives the same encoder's
  // next payload or a keyframe.

  import opened Options
  import opened SessionSpec
  import opened SessionRealign
  import opened SessionDelayLine

  /** The part of the session that video payloads depend on. */
  datatype View = View(
    mode: Mode, q: Queue, h: Queue, qf: Option<Packet>, hf: Option<Packet>, pf: Option<Format>, gf: Option<Format>,
    ready: bool, error: bool, filling: bool, drain: bool)

  function Of(s: State): View
    requires s.Shaped()
  {
    View(s.mode, s.primary[0], s.hold[0], s.primaryFallback[0], s.holdFallback[0], s.primaryFormats[0],
         s.holdFormats[0], s.holdReady, s.errorReturn, s.fromFilling, s.drain)
  }

  /** x is a keyframe or its encoder's next packet after the last one handed out. */
  predicate Follows(last: Option<Packet>, x: Packet) {
    x.keyframe || (last.Some? && last.value.encoder == x.encoder && x.id == last.value.id + 1)
  }

  predicate Ended(last: Option<Packet>, e: Encoder, next: nat) {
    last.Some? && last.value.encoder == e && last.value.id + 1 == next
  }

  predicate Item(x: Packet, e: Encoder, f: Format) {
    x.video && x.encoder == e && FormatOf(x) == f
  }

  /** Packets of one encoder, each a keyframe or the successor of the one before it. */
  predicate Chained(q: Queue, e: Encoder, f: Format) {
    && (forall i :: 0 <= i < |q| ==> Item(q[i], e, f))
    && (forall i :: 0 < i < |q| ==> q[i].keyframe || q[i].id == q[i - 1].id + 1)
  }

  predicate Newest(q: Queue, next: nat) {
    q != [] ==> q[|q| - 1].id + 1 == next
  }

  /** A video lane that may be handed out next and still receives every packet of its encoder. */
  predicate Fed(q: Queue, last: Option<Packet>, e: Encoder, f: Format, next: nat) {
    && Chained(q, e, f) && Newest(q, next)
    && (if q == [] then Ended(last, e, next) else Follows(last, q[0]))
  }

  /** A video lane that is only drained. */
  predicate Drains(q: Queue, last: Option<Packet>, e: Encoder, f: Format) {
    Chained(q, e, f) && (q != [] ==> Follows(last, q[0]))
  }

  predicate KeyItem(x: Option<Packet>, f: Format) {
    x.Some? && x.value.video && x.value.keyframe && FormatOf(x.value) == f
  }

  predicate Opened(q: Queue, e: Encoder, f: Format, next: nat) {
    q != [] && q[0].keyframe && Chained(q, e, f) && Newest(q, next)
  }

  /** n and m number the next live and the next hold video packet; f and g are their formats. */
  predicate Good(v: View, last: Option<Packet>, n: nat, m: nat, f: Format, g: Format) {
    && (v.pf.Some? ==> v.pf.value == f) && (v.gf.Some? ==> v.gf.value == g)
    && match v.mode
       case Bypass => last.Some? ==> Ended(last, Primary, n)
       case Error => last.Some? ==> Ended(last, Primary, n)
       case Preparing =>
         && (last.Some? ==> Ended(last, Primary, n)) && !v.error && v.q == []
         && (v.ready ==> Opened(v.h, Hold, g, m) && KeyItem(v.hf, g))
       case Filling =>
         && !v.error && f == g && Fed(v.h, last, Hold, g, m) && KeyItem(v.hf, g) && Opened(v.q, Primary, f, n)
       case Delayed => !v.error && Fed(v.q, last, Primary, f, n) && KeyItem(v.qf, f)
       case Returning =>
         if v.error then KeyItem(if v.filling then v.hf else v.qf, f) && (v.filling ==> f == g)
         else if v.filling then f == g && Drains(v.h, last, Hold, g) && KeyItem(v.hf, g)
         else
           && KeyItem(v.qf, f)
           && if v.drain then Drains(v.q, last, Primary, f) else Fed(v.q, last, Primary, f, n)
  }

  /** The carrier still carries the same payload. */
  predicate SamePayload(c: Packet, d: Packet) {
    d.encoder == c.encoder && d.id == c.id && d.keyframe == c.keyframe && d.video == c.video && FormatOf(d) == FormatOf(c)
      && d.size == c.size
  }

  predicate Carries(c: Packet, d: Packet, payload: Packet) {
    d.encoder == payload.encoder && d.id == payload.id && d.keyframe == payload.keyframe && d.video == c.video
      && FormatOf(d) == FormatOf(c)
  }

  lemma EpochView(s: State, c: Packet, payload: Packet)
    requires s.Shaped()
    ensures var r := BeginEpoch(s, c, payload); Of(r.state) == Of(s) && SamePayload(c, r.carrier)
  {
    hide Presented, NextSafe, UsecToTicks;
  }

  // ---------------------------------------------------------------------
  // Taking a payload

  lemma TakePrimaryView(s: State, c: Packet, f: Format)
    requires s.Shaped() && FormatOf(c) == f
    requires c.video ==> (Of(s).q != [] ==> FormatOf(Of(s).q[0]) == f && Of(s).q[0].video)
    ensures var v := Of(s); var t := TakePrimary(s, c);
            if !c.video then Of(t.state) == v
            else if v.q != [] then
              && t.ok && !t.fallback && Carries(c, t.carrier, v.q[0])
              && Of(t.state) == v.(q := v.q[1..], qf := if v.q[0].keyframe then Some(v.q[0]) else v.qf)
            else if KeyItem(v.qf, f) then
              t.ok && t.fallback && Of(t.state) == v && Carries(c, t.carrier, v.qf.value)
            else true
  {
    var l := LaneFor(c);
    if s.primary[l] != [] && Compatible(c, s.primary[l][0]) {
      NoteSourceView(s, l, s.primary[l][0].usec);
      PopView(NoteSource(s, l, s.primary[l][0].usec), l);
    } else if s.primaryFallback[l].Some? {
      NoteSourceView(s, l, s.primaryFallback[l].value.usec);
    }
  }

  lemma NoteSourceView(s: State, l: nat, usec: int)
    requires s.Shaped() && l < LANES
    ensures Of(NoteSource(s, l, usec)) == Of(s) && NoteSource(s, l, usec).primary == s.primary
  {
  }

  lemma PopView(s: State, l: nat)
    requires s.Shaped() && l < LANES && s.primary[l] != []
    ensures var v := Of(s); var chosen := s.primary[l][0];
            Of(PopPrimary(s, l))
              == if l != 0 then v
                 else v.(q := v.q[1..], qf := if !chosen.video || chosen.keyframe then Some(chosen) else v.qf)
  {
  }

  lemma TakeHoldView(s: State, c: Packet, f: Format)
    requires s.Shaped() && FormatOf(c) == f
    requires c.video ==> (Of(s).h != [] ==> FormatOf(Of(s).h[0]) == f)
    ensures var v := Of(s); var t := TakeHold(s, c);
            if !c.video then Of(t.state) == v
            else if v.h != [] then
              t.ok && !t.fallback && Of(t.state) == v.(h := v.h[1..]) && Carries(c, t.carrier, v.h[0])
            else if KeyItem(v.hf, f) then
              t.ok && t.fallback && Of(t.state) == v && Carries(c, t.carrier, v.hf.value)
            else true
  {
  }

  lemma FedPop(q: Queue, last: Option<Packet>, e: Encoder, f: Format, next: nat, d: Packet)
    requires Fed(q, last, e, f, next) && q != [] && d.encoder == q[0].encoder && d.id == q[0].id && d.keyframe == q[0].keyframe
    ensures Follows(last, d) && Fed(q[1..], Some(d), e, f, next)
  {
  }

  lemma DrainsPop(q: Queue, last: Option<Packet>, e: Encoder, f: Format, d: Packet)
    requires Drains(q, last, e, f) && q != [] && d.encoder == q[0].encoder && d.id == q[0].id && d.keyframe == q[0].keyframe
    ensures Follows(last, d) && Drains(q[1..], Some(d), e, f)
  {
  }

  lemma FedAppend(q: Queue, last: Option<Packet>, e: Encoder, f: Format, x: Packet)
    requires Fed(q, last, e, f, x.id) && Item(x, e, f)
    ensures Fed(q + [x], last, e, f, x.id + 1)
  {
  }

  lemma OpenedAppend(q: Queue, e: Encoder, f: Format, x: Packet)
    requires Opened(q, e, f, x.id) && Item(x, e, f)
    ensures Opened(q + [x], e, f, x.id + 1)
  {
  }

  /** A lane that opens on a keyframe may be handed out after anything. */
  lemma OpenedFeeds(q: Queue, last: Option<Packet>, e: Encoder, f: Format, next: nat)
    requires Opened(q, e, f, next)
    ensures Fed(q, last, e, f, next)
  {
  }

  // ---------------------------------------------------------------------
  // One live packet

  /** The live packet: the next of its encoder when it is video. */
  predicate Live0(c: Packet, n: nat, f: Format) {
    c.encoder == Primary && (c.video ==> c.id == n && FormatOf(c) == f)
  }

  function Next(c: Packet, n: nat): nat { if c.video then n + 1 else n }

  function LastAfter(last: Option<Packet>, c: Packet): Option<Packet> { if c.video then Some(c) else last }

  /** What one routed packet must come to. */
  predicate Continues(last: Option<Packet>, n: nat, m: nat, f: Format, g: Format, c: Packet, r: Flow) {
    && r.state.Shaped() && r.carrier.video == c.video
    && Good(Of(r.state), LastAfter(last, r.carrier), Next(c, n), m, f, g)
    && (c.video ==> last.None? || Follows(last, r.carrier))
  }

  lemma UnderrunContinues(s: State, c: Packet, t: Taken, fromFilling: bool, last: Option<Packet>, n: nat, m: nat, f: Format, g: Format)
    requires t.state.Shaped() && t.carrier.video == c.video && (c.video ==> t.carrier.keyframe)
    requires var v := Of(t.state);
             && KeyItem(if fromFilling then v.hf else v.qf, f) && (fromFilling ==> f == g)
             && (v.pf.Some? ==> v.pf.value == f) && (v.gf.Some? ==> v.gf.value == g)
    ensures Continues(last, n, m, f, g, c, Underrun(t, fromFilling))
    ensures !c.video ==> Continues(last, n, m, f, g, c, Flow(ReturnWithError(t.state, fromFilling), t.carrier))
  {
    hide BeginEpoch;
    EpochView(t.state, t.carrier, t.carrier);
  }

  predicate DrainsOrFed(v: View, last: Option<Packet>, f: Format, next: nat) {
    if v.mode == Returning && v.drain then Drains(v.q, last, Primary, f) else Fed(v.q, last, Primary, f, next)
  }

  /** A delayed video packet leaves. */
  lemma PoppedContinues(s: State, c: Packet, last: Option<Packet>, n: nat, m: nat, f: Format, g: Format)
    requires s.Shaped() && Live0(c, n, f) && c.video && Of(s).q != [] && (s.mode == Delayed || s.mode == Returning)
    requires !s.errorReturn && (s.mode == Returning ==> !s.fromFilling)
    requires var v := Of(s);
             && (v.pf.Some? ==> v.pf.value == f) && (v.gf.Some? ==> v.gf.value == g)
             && DrainsOrFed(v, last, f, Next(c, n)) && (KeyItem(v.qf, f) || v.q[0].keyframe)
    ensures Continues(last, n, m, f, g, c, DrainDelayed(s, c))
  {
    hide TakePrimary, Underrun, Chained, Fed, Drains, Follows, ReturnWithError;
    var v := Of(s);
    FedItem(v.q, last, f, Next(c, n), v);
    TakePrimaryView(s, c, f);
    TakenSame(s, c);
    var t := TakePrimary(s, c);
    if v.mode == Returning && v.drain {
      DrainsPop(v.q, last, Primary, f, t.carrier);
    } else {
      FedPop(v.q, last, Primary, f, Next(c, n), t.carrier);
    }
    HeadItem(v.q, f, v.q[0]);
  }

  /** A delayed video packet leaves, or the keyframe that stands in for it. */
  lemma DrainContinues(s: State, c: Packet, last: Option<Packet>, n: nat, m: nat, f: Format, g: Format)
    requires s.Shaped() && Live0(c, n, f) && (s.mode == Delayed || s.mode == Returning) && !s.errorReturn
    requires s.mode == Returning ==> !s.fromFilling
    requires var v := Of(s);
             && (v.pf.Some? ==> v.pf.value == f) && (v.gf.Some? ==> v.gf.value == g)
             && DrainsOrFed(v, last, f, Next(c, n))
             && (KeyItem(v.qf, f) || (c.video && v.q != [] && v.q[0].keyframe))
    ensures Continues(last, n, m, f, g, c, DrainDelayed(s, c))
  {
    hide TakePrimary, Underrun, ReturnWithError, Chained, Fed, Drains, Follows;
    var v := Of(s);
    if c.video && v.q != [] {
      PoppedContinues(s, c, last, n, m, f, g);
    } else {
      FedItem(v.q, last, f, Next(c, n), v);
      TakePrimaryView(s, c, FormatOf(c));
      TakenSame(s, c);
      UnderrunContinues(s, c, TakePrimary(s, c), false, last, n, m, f, g);
    }
  }

  lemma FedItem(q: Queue, last: Option<Packet>, f: Format, next: nat, v: View)
    requires v.q == q && DrainsOrFed(v, last, f, next)
    ensures Chained(q, Primary, f) && (q != [] ==> FormatOf(q[0]) == f && q[0].video)
  {
  }

  lemma HeadItem(q: Queue, f: Format, x: Packet)
    requires q != [] && x == q[0] && Chained(q, Primary, f)
    ensures x.keyframe ==> KeyItem(Some(x), f)
  {
  }

  lemma TakenSame(s: State, c: Packet)
    requires s.Shaped()
    ensures TakePrimary(s, c).carrier.video == c.video && TakeHold(s, c).carrier.video == c.video
    ensures Of(TakePrimary(s, c).state).pf == Of(s).pf && Of(TakePrimary(s, c).state).gf == Of(s).gf
  {
  }

  // ---------------------------------------------------------------------
  // Buffering and realignment

  lemma BufferView(s: State, c: Packet, raw: int)
    requires s.Shaped()
    ensures Of(Buffer(s, c, raw)) == if c.video then Of(s).(q := Of(s).q + [c.(usec := raw)]) else Of(s)
  {
  }

  lemma BufferFed(s: State, c: Packet, raw: int, last: Option<Packet>, n: nat, f: Format)
    requires s.Shaped() && Live0(c, n, f) && Fed(Of(s).q, last, Primary, f, n)
    ensures Fed(Of(Buffer(s, c, raw)).q, last, Primary, f, Next(c, n))
    ensures c.video ==> Of(Buffer(s, c, raw)).q != []
  {
    BufferView(s, c, raw);
    if c.video {
      FedAppend(Of(s).q, last, Primary, f, c.(usec := raw));
    }
  }

  /** The video packet that a realignment would leave at the head of its lane. */
  function CutHead(b: State, c: Packet, raw: int): Option<Packet>
    requires b.Shaped()
  {
    var origin := CutOrigin(b, c, raw);
    if origin.None? then None
    else
      var q := From(b.primary[0], origin.value);
      if q == [] then None else Some(q[0])
  }

  /** A realignment that would leave the video lane without a keyframe in front. */
  predicate OffKey(b: State, c: Packet, raw: int)
    requires b.Shaped()
  {
    var head := CutHead(b, c, raw);
    head.Some? && !head.value.keyframe
  }

  /** Realignment restarts the video lane on a keyframe or leaves it alone. */
  predicate Realigned(v: View, w: View) {
    w == v || (w.q != [] && w.q[0].keyframe && Tail(w.q, v.q) && w == v.(q := w.q, qf := None))
  }

  lemma CutView(s: State, origin: int)
    requires s.Shaped()
    ensures Of(CutAt(s, origin)) == Of(s).(q := From(Of(s).q, origin), qf := None)
  {
    hide From, TotalSize;
    assert CutAt(s, origin).primary[0] == From(s.primary[0], origin);
  }

  /** The packet chosen as the origin is kept. */
  lemma {:induction false} OriginKept(q: Queue, i: nat)
    requires i < |q|
    ensures From(q, q[i].usec) != []
    decreases |q|
  {
    if q[0].usec < q[i].usec {
      OriginLater(q, i, q[i].usec);
    }
  }

  lemma {:induction false} OriginLater(q: Queue, i: nat, origin: int)
    requires i < |q| && q[i].usec >= origin
    ensures From(q, origin) != []
  {
    if q[0].usec < origin {
      OriginLater(q[1..], i - 1, origin);
    }
  }

  lemma CutOriginKept(b: State, c: Packet, raw: int)
    requires b.Shaped() && CutOrigin(b, c, raw).Some?
    ensures From(b.primary[0], CutOrigin(b, c, raw).value) != []
  {
    hide Scan, Skewed, LowerBound, Covered, Hole, From;
    var s1 := HeadChecked(b);
    var pick := Pick(s1, raw - s1.target * 1_000_000);
    OriginKept(b.primary[0], pick.value);
  }

  lemma RealignView(s: State, c: Packet, raw: int)
    requires s.Shaped() && !OffKey(s, c, raw)
    ensures var r := Realign(s, c, raw);
            Realigned(Of(s), Of(r.state)) && SamePayload(c, r.carrier) && (!c.video ==> r.state == s && r.carrier == c)
  {
    hide Realign, CutOrigin, CutAt, BeginEpoch, From, Hole;
    RealignIs(s, c, raw);
    if !c.video {
      AudioNeverCuts(s, c, raw);
    } else if CutOrigin(s, c, raw).Some? {
      var origin := CutOrigin(s, c, raw).value;
      CutOriginKept(s, c, raw);
      CutView(HeadChecked(s), origin);
      CutDropsPrefix(s.primary[0], Some(origin));
      FromRemains(s.primary[0], origin);
      var cut := CutAt(HeadChecked(s), origin);
      EpochView(cut, c, cut.primary[0][0]);
    }
  }

  lemma AudioNeverCuts(s: State, c: Packet, raw: int)
    requires s.Shaped() && !c.video
    ensures Realign(s, c, raw) == Flow(s, c) && CutOrigin(s, c, raw).None?
  {
  }

  lemma RealignedFed(v: View, w: View, last: Option<Packet>, f: Format, next: nat)
    requires Realigned(v, w) && Fed(v.q, last, Primary, f, next) && v.q != []
    ensures Fed(w.q, last, Primary, f, next) && w.q != []
    ensures w.qf == v.qf || w.q[0].keyframe
  {
  }

  // ---------------------------------------------------------------------
  // Each mode

  predicate Formats(v: View, f: Format, g: Format) {
    (v.pf.Some? ==> v.pf.value == f) && (v.gf.Some? ==> v.gf.value == g)
  }

  lemma SamePacket(c: Packet, d: Packet, n: nat, f: Format)
    requires SamePayload(c, d) && Live0(c, n, f)
    ensures Live0(d, n, f) && Next(d, n) == Next(c, n)
  {
  }

  lemma ContinuesSame(last: Option<Packet>, n: nat, m: nat, f: Format, g: Format, c: Packet, d: Packet, r: Flow)
    requires SamePayload(c, d) && Continues(last, n, m, f, g, d, r)
    ensures Continues(last, n, m, f, g, c, r)
  {
  }

  /** Going live on a packet of the primary encoder. */
  lemma LiveContinues(s: State, c: Packet, r: Flow, last: Option<Packet>, n: nat, m: nat, f: Format, g: Format)
    requires s.Shaped() && Live0(c, n, f) && Formats(Of(s), f, g)
    requires r.state.Shaped() && SamePayload(c, r.carrier) && c.video
    requires c.keyframe || (last.Some? ==> Ended(last, Primary, n))
    requires (r.state.mode == Bypass || r.state.mode == Error)
    requires Of(r.state).pf == Of(s).pf && Of(r.state).gf == Of(s).gf
    ensures Continues(last, n, m, f, g, c, r)
  {
  }

  lemma DelayContinues(s: State, c: Packet, raw: int, last: Option<Packet>, n: nat, m: nat, f: Format, g: Format)
    requires s.Shaped() && Live0(c, n, f) && s.mode == Delayed
    requires Good(Of(s), last, n, m, f, g) && (Fits(MAX_PRIMARY_BYTES, s.buffered, c.size) ==> !OffKey(Buffer(s, c, raw), c, raw))
    ensures Continues(last, n, m, f, g, c, DelayStep(s, c, raw))
  {
    hide Continues, Realign, DrainDelayed, BeginEpoch, Fed, Drains, Chained, OffKey;
    if !Fits(MAX_PRIMARY_BYTES, s.buffered, c.size) {
      var s1 := s.(fromFilling := false, drain := true, mode := Returning);
      EpochView(s1, c, c);
      if c.video && c.keyframe {
        LiveContinues(s, c, DelayStep(s, c, raw), last, n, m, f, g);
      } else {
        FedDrains(Of(s).q, last, Primary, f, n);
        DrainContinues(s1, c, last, n, m, f, g);
      }
    } else {
      var s1 := Buffer(s, c, raw);
      BufferView(s, c, raw);
      BufferFed(s, c, raw, last, n, f);
      RealignView(s1, c, raw);
      var a := Realign(s1, c, raw);
      if c.video {
        RealignedFed(Of(s1), Of(a.state), last, f, Next(c, n));
        RealignedRest(Of(s1), Of(a.state));
      }
      SamePayloadSelf(c);
      SamePacket(c, a.carrier, n, f);
      DrainContinues(a.state, a.carrier, last, n, m, f, g);
      ContinuesSame(last, n, m, f, g, c, a.carrier, DelayStep(s, c, raw));
    }
  }

  lemma SamePayloadSelf(c: Packet)
    ensures SamePayload(c, c)
  {
  }

  lemma RealignedRest(v: View, w: View)
    requires Realigned(v, w)
    ensures w == v.(q := w.q, qf := w.qf)
  {
  }

  lemma FedDrains(q: Queue, last: Option<Packet>, e: Encoder, f: Format, next: nat)
    requires Fed(q, last, e, f, next)
    ensures Drains(q, last, e, f)
  {
  }

  lemma HoldContinues(s: State, c: Packet, starting: bool, last: Option<Packet>, n: nat, f: Format, g: Format)
    requires s.Shaped() && Live0(c, n, f) && f == g && Drains(Of(s).h, last, Hold, g) && KeyItem(Of(s).hf, g)
    ensures var b := StartHold(s, c, starting); var t := TakeHold(b.state, b.carrier); var w := Of(t.state);
            && t.state.Shaped() && t.carrier.video == c.video && w == Of(s).(h := w.h)
            && (!c.video ==> w == Of(s))
            && (c.video ==> t.ok && (t.fallback <==> Of(s).h == []) && Follows(last, t.carrier) && (t.fallback ==> t.carrier.keyframe))
            && (c.video ==> Drains(w.h, Some(t.carrier), Hold, g))
            && (c.video && !t.fallback ==> Of(s).h != [] && w.h == Of(s).h[1..] && Named0(t.carrier, Of(s).h[0]))
  {
    hide BeginEpoch, TakeHold, Chained;
    var b := StartHold(s, c, starting);
    if starting && s.hold[0] != [] {
      EpochView(s, c, s.hold[0][0]);
    }
    HoldHead(Of(s).h, last, g);
    TakeHoldView(b.state, b.carrier, FormatOf(b.carrier));
    TakenSame(b.state, b.carrier);
    var t := TakeHold(b.state, b.carrier);
    if c.video && Of(s).h != [] {
      DrainsPop(Of(s).h, last, Hold, g, t.carrier);
    }
  }

  lemma HoldHead(q: Queue, last: Option<Packet>, g: Format)
    requires Drains(q, last, Hold, g)
    ensures (q != [] ==> FormatOf(q[0]) == g) && (q == [] ==> Chained(q, Hold, g))
  {
  }

  /** The carrier of a payload. */
  predicate Named0(d: Packet, payload: Packet) {
    d.encoder == payload.encoder && d.id == payload.id && d.keyframe == payload.keyframe
  }

  lemma EnterContinues(s: State, c: Packet, last: Option<Packet>, n: nat, m: nat, f: Format, g: Format)
    requires s.Shaped() && Live0(c, n, f) && c.video && Formats(Of(s), f, g) && !s.errorReturn
    requires Opened(Of(s).q, Primary, f, n + 1)
    ensures Continues(last, n, m, f, g, c, EnterDelayed(s, c)) && EnterDelayed(s, c).state.mode == Delayed
  {
    hide BeginEpoch, TakePrimary, Chained, TakeFallback;
    var b := BeginEpoch(s, c, s.primary[0][0]);
    EpochView(s, c, s.primary[0][0]);
    var s1 := b.state.(mode := Delayed, lastEmitted := Nothing());
    OpenedHead(Of(s).q, f, n + 1);
    TakePrimaryView(s1, b.carrier, f);
    TakenSame(s1, b.carrier);
    var t := TakePrimary(s1, b.carrier);
    OpenedFeeds(Of(s).q, last, Primary, f, n + 1);
    FedPop(Of(s).q, last, Primary, f, n + 1, t.carrier);
  }

  lemma OpenedHead(q: Queue, f: Format, next: nat)
    requires Opened(q, Primary, f, next)
    ensures q != [] && q[0].keyframe && q[0].video && FormatOf(q[0]) == f
  {
  }

  /** A carrier that gets a hold payload while filling. */
  lemma FillHoldContinues(s: State, c: Packet, starting: bool, last: Option<Packet>, n: nat, m: nat, f: Format, g: Format)
    requires s.Shaped() && Live0(c, n, f) && f == g && s.mode == Filling && !s.errorReturn && Formats(Of(s), f, g)
    requires Fed(Of(s).h, last, Hold, g, m) && KeyItem(Of(s).hf, g)
    requires Opened(Of(s).q, Primary, f, Next(c, n))
    ensures var b := StartHold(s, c, starting); var t := TakeHold(b.state, b.carrier);
            Continues(last, n, m, f, g, c,
                      if !t.ok then Flow(ReturnWithError(t.state, true), t.carrier)
                      else if t.fallback then Underrun(t, true) else Flow(t.state, t.carrier))
  {
    hide StartHold, TakeHold, Underrun, Fed, Chained, Drains;
    FedDrains(Of(s).h, last, Hold, g, m);
    HoldContinues(s, c, starting, last, n, f, g);
    var b := StartHold(s, c, starting);
    var t := TakeHold(b.state, b.carrier);
    if !t.ok || t.fallback {
      UnderrunContinues(s, c, t, true, last, n, m, f, g);
    } else if c.video {
      FedPop(Of(s).h, last, Hold, g, m, t.carrier);
    }
  }

  /** The buffer is full while filling: keep handing out hold packets until a live keyframe. */
  lemma FillFullContinues(s: State, c: Packet, starting: bool, last: Option<Packet>, n: nat, m: nat, f: Format, g: Format)
    requires s.Shaped() && Live0(c, n, f) && f == g && !s.errorReturn && Formats(Of(s), f, g)
    requires Fed(Of(s).h, last, Hold, g, m) && KeyItem(Of(s).hf, g)
    ensures Continues(last, n, m, f, g, c, FillFull(s, c, starting))
  {
    hide StartHold, TakeHold, Underrun, Fed, Chained, Drains;
    var s1 := s.(fromFilling := true, mode := Returning);
    FedDrains(Of(s).h, last, Hold, g, m);
    HoldContinues(s1, c, starting, last, n, f, g);
    var b := StartHold(s1, c, starting);
    var t := TakeHold(b.state, b.carrier);
    if !t.ok {
      UnderrunContinues(s1, c, t, true, last, n, m, f, g);
    }
  }

  lemma FillContinues(s: State, c: Packet, raw: int, starting: bool, last: Option<Packet>, n: nat, m: nat, f: Format, g: Format)
    requires s.Shaped() && Live0(c, n, f) && f == g && s.mode == Filling && !s.errorReturn && Formats(Of(s), f, g)
    requires Fed(Of(s).h, last, Hold, g, m) && KeyItem(Of(s).hf, g)
    requires if starting then c.video && c.keyframe && Of(s).q == [] else Opened(Of(s).q, Primary, f, n)
    ensures Continues(last, n, m, f, g, c, FillStep(s, c, raw, starting))
  {
    hide Continues, FillFull, EnterDelayed, StartHold, TakeHold, Underrun, Fed, Chained, Opened;
    if !Fits(MAX_PRIMARY_BYTES, s.buffered, c.size) {
      FillFullContinues(s, c, starting, last, n, m, f, g);
    } else {
      var s1 := Buffer(s, c, raw);
      BufferView(s, c, raw);
      BufferOpened(s, c, raw, starting, n, f);
      if FillReady(s1, c, raw) {
        EnterContinues(s1, c, last, n, m, f, g);
      } else {
        FillHoldContinues(s1, c, starting, last, n, m, f, g);
      }
    }
  }

  lemma BufferOpened(s: State, c: Packet, raw: int, starting: bool, n: nat, f: Format)
    requires s.Shaped() && Live0(c, n, f)
    requires if starting then c.video && c.keyframe && Of(s).q == [] else Opened(Of(s).q, Primary, f, n)
    ensures Opened(Of(Buffer(s, c, raw)).q, Primary, f, Next(c, n))
  {
    BufferView(s, c, raw);
    if c.video && !starting {
      OpenedAppend(Of(s).q, Primary, f, c.(usec := raw));
    }
  }

  lemma ReturnContinues(s: State, c: Packet, raw: int, last: Option<Packet>, n: nat, m: nat, f: Format, g: Format)
    requires s.Shaped() && Live0(c, n, f) && s.mode == Returning && !(c.video && c.keyframe)
    requires Good(Of(s), last, n, m, f, g)
    ensures Continues(last, n, m, f, g, c, ReturnStep(s, c, raw))
  {
    hide TakeHold, DrainDelayed, Fed, Drains, Chained;
    if s.errorReturn {
      FallbackContinues(s, c, last, n, m, f, g);
    } else if s.fromFilling {
      HoldContinues(s, c, false, last, n, f, g);
      var t := TakeHold(s, c);
      if !t.ok {
        UnderrunContinues(s, c, t, true, last, n, m, f, g);
      }
    } else if s.drain {
      DrainContinues(s, c, last, n, m, f, g);
    } else if Fits(MAX_PRIMARY_BYTES, s.buffered, c.size) {
      BufferView(s, c, raw);
      BufferFed(s, c, raw, last, n, f);
      DrainContinues(Buffer(s, c, raw), c, last, n, m, f, g);
    } else {
      FedDrains(Of(s).q, last, Primary, f, n);
      DrainContinues(s.(drain := true), c, last, n, m, f, g);
    }
  }

  lemma FallbackContinues(s: State, c: Packet, last: Option<Packet>, n: nat, m: nat, f: Format, g: Format)
    requires s.Shaped() && Live0(c, n, f) && s.mode == Returning && s.errorReturn && !(c.video && c.keyframe)
    requires Good(Of(s), last, n, m, f, g)
    ensures forall raw :: Continues(last, n, m, f, g, c, ReturnStep(s, c, raw))
  {
    hide Fed, Drains, Chained;
  }

  // ---------------------------------------------------------------------
  // A whole live packet

  lemma CadenceView(s: State, p: Packet, audioStep: nat)
    requires s.Shaped()
    ensures var v := Of(s); var r := NoteCadence(s, p, audioStep);
            && Of(r) == (if p.video then v.(pf := Some(FormatOf(p))) else v)
            && r.buffered == s.buffered
  {
    hide StepAfter, Hole;
  }

  lemma CadenceGood(s: State, p: Packet, audioStep: nat, last: Option<Packet>, n: nat, m: nat, f: Format, g: Format)
    requires s.Shaped() && Good(Of(s), last, n, m, f, g) && Live0(p, n, f)
    ensures var v := Of(NoteCadence(s, p, audioStep)); Good(v, last, n, m, f, g) && Formats(v, f, g)
  {
    hide NoteCadence, Fed, Drains, Chained, Opened, KeyItem;
    CadenceView(s, p, audioStep);
  }

  lemma RouteContinues(s: State, c: Packet, raw: int, last: Option<Packet>, n: nat, m: nat, f: Format, g: Format)
    requires s.Shaped() && Live0(c, n, f) && Good(Of(s), last, n, m, f, g)
    requires s.mode == Delayed && Fits(MAX_PRIMARY_BYTES, s.buffered, c.size) ==> !OffKey(Buffer(s, c, raw), c, raw)
    ensures Continues(last, n, m, f, g, c, Route(s, c, raw))
  {
    hide FillStep, DelayStep, ReturnStep, BeginEpoch, PrerollReady, Fed, Drains, Chained, Opened;
    match s.mode {
      case Bypass => StillLive(s, c, last, n, m, f, g);
      case Error => StillLive(s, c, last, n, m, f, g);
      case Preparing =>
        if c.video && c.keyframe && PrerollReady(s) {
          var s1 := s.(fillStart := raw, mode := Filling);
          PrerollMeans(s);
          OpenedFeeds(Of(s).h, last, Hold, g, m);
          FillContinues(s1, c, raw, true, last, n, m, f, g);
        } else {
          StillLive(s, c, last, n, m, f, g);
        }
      case Filling => FillContinues(s, c, raw, false, last, n, m, f, g);
      case Delayed => DelayContinues(s, c, raw, last, n, m, f, g);
      case Returning =>
        if c.video && c.keyframe {
          EpochView(s, c, c);
          LiveContinues(s, c, GoLive(s, c), last, n, m, f, g);
        } else {
          ReturnContinues(s, c, raw, last, n, m, f, g);
        }
    }
  }

  lemma PrerollMeans(s: State)
    requires s.Shaped() && PrerollReady(s)
    ensures Of(s).ready && Of(s).pf.Some? && Of(s).gf == Of(s).pf
  {
    assert Required(s, 0);
  }

  lemma StillLive(s: State, c: Packet, last: Option<Packet>, n: nat, m: nat, f: Format, g: Format)
    requires s.Shaped() && Live0(c, n, f) && Good(Of(s), last, n, m, f, g)
    requires s.mode == Bypass || s.mode == Error || s.mode == Preparing
    ensures Continues(last, n, m, f, g, c, Flow(s, c))
  {
    hide Opened;
  }

  lemma ShiftView(s: State, p: Packet)
    ensures SamePayload(p, Shift(p, s.offset))
  {
    hide UsecToTicks;
  }

  lemma NotedView(s: State, c: Packet)
    requires s.Shaped()
    ensures Of(NoteEmitted(s, c)) == Of(s)
  {
    hide Presented;
  }

  /** A live packet whose realignment would leave the video lane without a keyframe in front. */
  predicate CutsOffKey(s: State, p: Packet, audioStep: nat)
    requires s.Shaped()
  {
    var c := Shift(p, s.offset);
    s.mode == Delayed && Fits(MAX_PRIMARY_BYTES, s.buffered, p.size) && OffKey(Buffer(NoteCadence(s, p, audioStep), c, p.usec), c, p.usec)
  }

  lemma ProcessContinues(s: State, p: Packet, audioStep: nat, last: Option<Packet>, n: nat, m: nat, f: Format, g: Format)
    requires s.Shaped() && Live0(p, n, f) && Good(Of(s), last, n, m, f, g) && !CutsOffKey(s, p, audioStep)
    ensures Continues(last, n, m, f, g, p, Process(s, p, audioStep))
  {
    hide Route, NoteCadence, NoteEmitted, Good, Fits;
    if Idle(s) {
      StillLive(s, p, last, n, m, f, g);
    } else {
      var s1 := NoteCadence(s, p, audioStep);
      var c := Shift(p, s.offset);
      CadenceView(s, p, audioStep);
      CadenceGood(s, p, audioStep, last, n, m, f, g);
      ShiftView(s, p);
      SamePacket(p, c, n, f);
      RouteContinues(s1, c, p.usec, last, n, m, f, g);
      var routed := Route(s1, c, p.usec);
      NotedView(routed.state, routed.carrier);
      ContinuesSame(last, n, m, f, g, p, c, routed);
    }
  }

  // ---------------------------------------------------------------------
  // Hold packets and requests

  /** The hold packet: the next of its encoder when it is video. */
  predicate Held0(p: Packet, m: nat, g: Format) {
    p.encoder == Hold && (p.video ==> p.id == m && FormatOf(p) == g)
  }

  lemma {:induction false} TrimView(s: State, l: nat)
    requires s.Shaped() && l < LANES
    ensures Of(TrimHold(s, l)) == Of(s)
    decreases |s.hold[l]|
  {
    if s.mode == Preparing && l != 0 && |s.hold[l]| > MAX_HOLD_LANE_PACKETS {
      TrimView(s.(hold := s.hold[l := s.hold[l][1..]], holdBuffered := Less(s.holdBuffered, s.hold[l][0].size)), l);
    }
  }

  lemma NoteHoldView(s: State, p: Packet)
    requires s.Shaped()
    ensures var v := Of(s);
            Of(NoteHold(s, p))
              == if p.video then
                   v.(gf := Some(FormatOf(p)), h := if OpensHold(s, p) then [] else v.h,
                      hf := if p.keyframe then Some(p) else v.hf)
                 else v
  {
    hide From, TotalSize;
  }

  lemma ReceiveView(s: State, p: Packet, compatible: bool)
    requires s.Shaped() && TakesHold(s)
    ensures var v := Of(NoteHold(s, p)); var r := Of(ReceiveHold(s, p, compatible));
            var stored := if p.video then v.(h := v.h + [p]) else v;
            if !Fits(MAX_HOLD_BYTES, NoteHold(s, p).holdBuffered, p.size) then
              r == if s.mode == Preparing then v.(mode := Error) else v.(filling := true, mode := Returning)
            else
              || r == stored
              || (s.mode == Preparing && r == stored.(mode := Error))
              || (OpensHold(s, p) && r == stored.(ready := true))
  {
    hide NoteHold, FormatClash, TrimHold, StoreHold;
    var s1 := NoteHold(s, p);
    StoreView(s1, p);
    var s2 := StoreHold(s1, p);
    TrimView(s2, LaneFor(p));
    TrimView(s2.(holdReady := true), LaneFor(p));
    TrimView(s2.(mode := Error), LaneFor(p));
  }

  lemma StoreView(s: State, p: Packet)
    requires s.Shaped()
    ensures var v := Of(s); Of(StoreHold(s, p)) == if p.video then v.(h := v.h + [p]) else v
  {
  }

  /** A hold packet that carries on from what is handed out before it. */
  predicate Joins(s: State, last: Option<Packet>, p: Packet)
    requires s.Shaped()
  {
    var q := s.hold[0];
    p.keyframe || (if q != [] then q[|q| - 1].id + 1 == p.id else Ended(last, Hold, p.id))
  }

  /** A hold packet that joins the lane after a gap while returning from filling: hold packets before it were lost
      because they did not fit, or a dry lane had repeated its fallback. */
  predicate JoinsGap(s: State, last: Option<Packet>, p: Packet)
    requires s.Shaped()
  {
    && s.mode == Returning && s.fromFilling && !s.errorReturn && p.video && Fits(MAX_HOLD_BYTES, s.holdBuffered, p.size)
    && !Joins(s, last, p)
  }

  lemma HoldGood(s: State, p: Packet, compatible: bool, last: Option<Packet>, n: nat, m: nat, f: Format, g: Format)
    requires s.Shaped() && Held0(p, m, g) && Good(Of(s), last, n, m, f, g) && !JoinsGap(s, last, p)
    ensures Good(Of(ReceiveHold(s, p, compatible)), last, n, if p.video then m + 1 else m, f, g)
  {
    hide ReceiveHold, NoteHold, Chained, Drains;
    if TakesHold(s) {
      NoteHoldView(s, p);
      ReceiveView(s, p, compatible);
      if p.video {
        HoldVideoGood(s, p, compatible, last, n, m, f, g);
      } else if s.mode == Filling {
        FedDrains(Of(s).h, last, Hold, g, m);
      }
    } else {
      HoldIgnored(s, p, compatible);
    }
  }

  lemma HoldIgnored(s: State, p: Packet, compatible: bool)
    requires s.Shaped() && !TakesHold(s)
    ensures ReceiveHold(s, p, compatible) == s
  {
  }

  lemma HoldBytes(s: State, p: Packet)
    requires s.Shaped() && s.mode != Preparing
    ensures NoteHold(s, p).holdBuffered == s.holdBuffered
  {
  }

  lemma HoldVideoGood(s: State, p: Packet, compatible: bool, last: Option<Packet>, n: nat, m: nat, f: Format, g: Format)
    requires s.Shaped() && p.video && Held0(p, m, g) && Good(Of(s), last, n, m, f, g) && TakesHold(s)
    requires !JoinsGap(s, last, p)
    ensures Good(Of(ReceiveHold(s, p, compatible)), last, n, m + 1, f, g)
  {
    hide ReceiveHold, NoteHold, Good;
    if s.mode == Preparing {
      HoldPreparingGood(s, p, compatible, last, n, m, f, g);
    } else {
      HoldRunningGood(s, p, compatible, last, n, m, f, g);
    }
  }

  lemma HoldPreparingGood(s: State, p: Packet, compatible: bool, last: Option<Packet>, n: nat, m: nat, f: Format, g: Format)
    requires s.Shaped() && p.video && Held0(p, m, g) && Good(Of(s), last, n, m, f, g) && s.mode == Preparing
    ensures Good(Of(ReceiveHold(s, p, compatible)), last, n, m + 1, f, g)
  {
    hide ReceiveHold, NoteHold, Opened, Fed, Drains;
    NoteHoldView(s, p);
    ReceiveView(s, p, compatible);
    if OpensHold(s, p) {
      assert [] + [p] == [p];
      OpensOn(p, g);
    } else if s.holdReady {
      OpenedAppend(Of(s).h, Hold, g, p);
    }
  }

  lemma HoldRunningGood(s: State, p: Packet, compatible: bool, last: Option<Packet>, n: nat, m: nat, f: Format, g: Format)
    requires s.Shaped() && p.video && Held0(p, m, g) && Good(Of(s), last, n, m, f, g) && TakesHold(s)
    requires s.mode != Preparing && !JoinsGap(s, last, p)
    ensures Good(Of(ReceiveHold(s, p, compatible)), last, n, m + 1, f, g)
  {
    hide ReceiveHold, NoteHold, Opened, Fed, Drains, Chained, JoinsGap;
    NoteHoldView(s, p);
    ReceiveView(s, p, compatible);
    HoldBytes(s, p);
    if s.mode == Filling {
      FedAppend(Of(s).h, last, Hold, g, p);
      FedDrains(Of(s).h, last, Hold, g, m);
    } else if !s.errorReturn && Fits(MAX_HOLD_BYTES, s.holdBuffered, p.size) {
      JoinedDrains(s, p, last, g);
    }
  }

  lemma JoinedDrains(s: State, p: Packet, last: Option<Packet>, g: Format)
    requires s.Shaped() && s.mode == Returning && s.fromFilling && !s.errorReturn && Fits(MAX_HOLD_BYTES, s.holdBuffered, p.size)
    requires p.video && p.encoder == Hold && FormatOf(p) == g && Drains(s.hold[0], last, Hold, g) && !JoinsGap(s, last, p)
    ensures Drains(s.hold[0] + [p], last, Hold, g)
  {
  }

  lemma OpensOn(p: Packet, g: Format)
    requires p.video && p.keyframe && p.encoder == Hold && FormatOf(p) == g
    ensures Opened([p], Hold, g, p.id + 1)
  {
  }

  lemma RequestGood(s: State, op: Op, last: Option<Packet>, n: nat, m: nat, f: Format, g: Format)
    requires s.Shaped() && Good(Of(s), last, n, m, f, g) && !op.Live? && !op.HoldPacket?
    ensures Good(Of(Step(s, op)), if op.Activate? then None else last, n, m, f, g)
  {
    hide RequestDelay, RequestBypass, Reconnected, Retire, Good;
    match op
    case Delay(seconds, active, started) => DelayGood(s, seconds, active, started, last, n, m, f, g);
    case Cancel => CancelGood(s, last, n, m, f, g);
    case Activate => ActivateGood(s, n, m, f, g);
    case Maintain => RetireGood(s, last, n, m, f, g);
  }

  lemma DelayGood(s: State, seconds: nat, active: set<nat>, started: bool, last: Option<Packet>, n: nat, m: nat, f: Format, g: Format)
    requires s.Shaped() && Good(Of(s), last, n, m, f, g)
    ensures Good(Of(RequestDelay(s, seconds, active, started)), last, n, m, f, g)
  {
    hide Chained, Drains, Fed, Opened;
  }

  lemma ActivateGood(s: State, n: nat, m: nat, f: Format, g: Format)
    requires s.Shaped()
    ensures Good(Of(Reconnected(s)), None, n, m, f, g)
  {
  }

  lemma RetireGood(s: State, last: Option<Packet>, n: nat, m: nat, f: Format, g: Format)
    requires s.Shaped() && Good(Of(s), last, n, m, f, g)
    ensures Good(Of(Retire(s)), last, n, m, f, g)
  {
    hide Chained, Drains, Fed, Opened;
  }

  lemma CancelGood(s: State, last: Option<Packet>, n: nat, m: nat, f: Format, g: Format)
    requires s.Shaped() && Good(Of(s), last, n, m, f, g)
    ensures Good(Of(RequestBypass(s)), last, n, m, f, g)
  {
    hide Chained, Drains, Fed, Opened, KeyItem, Ended;
    match s.mode
    case Bypass =>
    case Returning =>
    case Preparing =>
    case Error =>
    case Filling => FedDrains(Of(s).h, last, Hold, g, m);
    case Delayed =>
  }

  // ---------------------------------------------------------------------
  // Runs

  /** A session with the last video payload handed out and the next numbers of both encoders. */
  datatype Run = Run(state: State, last: Option<Packet>, nextLive: nat, nextHold: nat)

  /** The call with its video packet named as its encoder's next one. */
  function Named(r: Run, op: Op): Op {
    match op
    case Live(p, audioStep) =>
      Live(if p.video then p.(encoder := Primary, id := r.nextLive) else p.(encoder := Primary), audioStep)
    case HoldPacket(p, compatible) =>
      HoldPacket(if p.video then p.(encoder := Hold, id := r.nextHold) else p.(encoder := Hold), compatible)
    case _ => op
  }

  function Out(r: Run, op: Op): Packet
    requires r.state.Shaped() && op.Live?
  {
    Process(r.state, Named(r, op).packet, op.audioStep).carrier
  }

  function Played(r: Run, op: Op): (after: Run)
    requires r.state.Shaped()
    ensures after.state.Shaped()
  {
    var state := Step(r.state, Named(r, op));
    match op
    case Live(p, _) =>
      if p.video then Run(state, Some(Out(r, op)), r.nextLive + 1, r.nextHold) else r.(state := state)
    case HoldPacket(p, _) => Run(state, r.last, r.nextLive, if p.video then r.nextHold + 1 else r.nextHold)
    case Activate => Run(state, None, r.nextLive, r.nextHold)
    case _ => r.(state := state)
  }

  function Play(ops: seq<Op>): (r: Run)
    ensures r.state.Shaped()
  {
    if ops == [] then Run(Initial(), None, 0, 0) else Played(Play(ops[..|ops| - 1]), ops[|ops| - 1])
  }

  /** What breaks the chain: a realignment that starts the lane off a keyframe, a hold packet that joins after a gap. */
  predicate Breaks(r: Run, op: Op)
    requires r.state.Shaped()
  {
    match Named(r, op)
    case Live(p, audioStep) => CutsOffKey(r.state, p, audioStep)
    case HoldPacket(p, _) => JoinsGap(r.state, r.last, p)
    case _ => false
  }

  /** Constant video formats and nothing that breaks the chain. */
  predicate Admissible(r: Run, op: Op, f: Format, g: Format)
    requires r.state.Shaped()
  {
    && (op.Live? && op.packet.video ==> FormatOf(op.packet) == f)
    && (op.HoldPacket? && op.packet.video ==> FormatOf(op.packet) == g)
    && !Breaks(r, op)
  }

  predicate AllAdmissible(ops: seq<Op>, f: Format, g: Format) {
    forall i :: 0 <= i < |ops| ==> Admissible(Play(ops[..i]), ops[i], f, g)
  }

  predicate RunGood(r: Run, f: Format, g: Format)
    requires r.state.Shaped()
  {
    Good(Of(r.state), r.last, r.nextLive, r.nextHold, f, g)
  }

  lemma PlayedGood(r: Run, op: Op, f: Format, g: Format)
    requires r.state.Shaped() && RunGood(r, f, g) && Admissible(r, op, f, g)
    ensures RunGood(Played(r, op), f, g)
    ensures op.Live? && op.packet.video ==> r.last.None? || Follows(r.last, Out(r, op))
  {
    hide Process, Good, ReceiveHold, CutsOffKey, JoinsGap;
    match op {
      case Live(p, audioStep) =>
        ProcessContinues(r.state, Named(r, op).packet, audioStep, r.last, r.nextLive, r.nextHold, f, g);
      case HoldPacket(p, compatible) =>
        HoldGood(r.state, Named(r, op).packet, compatible, r.last, r.nextLive, r.nextHold, f, g);
      case _ =>
        RequestGood(r.state, op, r.last, r.nextLive, r.nextHold, f, g);
    }
  }

  lemma {:induction false} EveryRunGood(ops: seq<Op>, f: Format, g: Format)
    requires AllAdmissible(ops, f, g)
    ensures RunGood(Play(ops), f, g)
  {
    hide Good, Admissible;
    if ops == [] {
      StartsGood(f, g);
    } else {
      var before := ops[..|ops| - 1];
      forall i | 0 <= i < |before| ensures Admissible(Play(before[..i]), before[i], f, g) {
        assert before[..i] == ops[..i];
      }
      EveryRunGood(before, f, g);
      PlayedGood(Play(before), ops[|ops| - 1], f, g);
    }
  }

  lemma StartsGood(f: Format, g: Format)
    ensures Good(Of(Initial()), None, 0, 0, f, g)
  {
  }

  /** Over every admissible run each video payload is the next one of the encoder before it, or a keyframe. */
  lemma EveryVideoContinues(ops: seq<Op>, f: Format, g: Format, i: nat)
    requires AllAdmissible(ops, f, g) && i < |ops| && ops[i].Live? && ops[i].packet.video
    ensures var before := Play(ops[..i]); before.last.None? || Follows(before.last, Out(before, ops[i]))
  {
    hide Play, RunGood, Follows, Out;
    var before := ops[..i];
    forall j | 0 <= j < |before| ensures Admissible(Play(before[..j]), before[j], f, g) {
      assert before[..j] == ops[..j];
    }
    EveryRunGood(before, f, g);
    PlayedGood(Play(before), ops[i], f, g);
  }

  // ---------------------------------------------------------------------
  // The excluded calls do break it

  /** The run after further calls. */
  function On(r: Run, ops: seq<Op>): (after: Run)
    requires r.state.Shaped()
    ensures after.state.Shaped()
    decreases |ops|
  {
    if ops == [] then r else On(Played(r, ops[0]), ops[1..])
  }

  /** Returning from filling on hold packets. */
  predicate Holding(s: State, g: Format)
    requires s.Shaped()
  {
    && s.mode == Returning && s.fromFilling && !s.errorReturn && KeyItem(s.holdFallback[0], g)
    && forall i :: 0 <= i < |s.hold[0]| ==> Item(s.hold[0][i], Hold, g)
  }

  /** A live video packet that does not end a return. */
  predicate Between(op: Op, g: Format) {
    op.Live? && op.packet.video && !op.packet.keyframe && FormatOf(op.packet) == g
  }

  /** A carrier while returning from filling takes the hold head, or the fallback without an error. */
  lemma HoldingTakes(r: Run, op: Op, g: Format)
    requires r.state.Shaped() && Holding(r.state, g) && Between(op, g)
    ensures var q, next := r.state.hold[0], Played(r, op);
            && Holding(next.state, g) && next.last == Some(Out(r, op))
            && next.state.hold[0] == (if q == [] then q else q[1..]) && next.state.holdFallback[0] == r.state.holdFallback[0]
            && next.nextHold == r.nextHold && next.state.holdBuffered <= r.state.holdBuffered
            && Named0(Out(r, op), if q == [] then r.state.holdFallback[0].value else q[0])
  {
    hide TakeHold, NoteCadence, NoteEmitted, Shift;
    var s, p := r.state, Named(r, op).packet;
    var s1, c := NoteCadence(s, p, op.audioStep), Shift(p, s.offset);
    CadenceView(s, p, op.audioStep);
    ShiftView(s, p);
    TakeHoldView(s1, c, g);
    var t := TakeHold(s1, c);
    NotedView(t.state, t.carrier);
    HoldBytesFall(s, p, op.audioStep, s1, c, t.state, t.carrier);
  }

  /** Live packets never add to the hold bytes. */
  lemma HoldBytesFall(s: State, p: Packet, audioStep: nat, s1: State, c: Packet, taken: State, carrier: Packet)
    requires s.Shaped() && s1.Shaped() && s1 == NoteCadence(s, p, audioStep) && taken == TakeHold(s1, c).state
    ensures NoteEmitted(taken, carrier).holdBuffered <= s.holdBuffered
  {
    hide StepAfter, Hole, Presented;
  }

  /** The lane is handed out packet by packet. */
  lemma {:induction false} HoldingDrains(r: Run, ops: seq<Op>, g: Format)
    requires r.state.Shaped() && Holding(r.state, g) && |ops| <= |r.state.hold[0]| && forall i :: 0 <= i < |ops| ==> Between(ops[i], g)
    ensures var q, after := r.state.hold[0], On(r, ops);
            && Holding(after.state, g) && after.state.hold[0] == q[|ops|..]
            && (if ops == [] then after == r else after.last.Some? && Named0(after.last.value, q[|ops| - 1]))
    decreases |ops|
  {
    hide Played, Out, Holding, Between, Named0;
    if ops != [] {
      HoldingTakes(r, ops[0], g);
      HoldingDrains(Played(r, ops[0]), ops[1..], g);
    }
  }

  lemma HoldingStores(r: Run, op: Op, g: Format)
    requires r.state.Shaped() && Holding(r.state, g) && op.HoldPacket? && op.packet.video && FormatOf(op.packet) == g
    requires Fits(MAX_HOLD_BYTES, r.state.holdBuffered, op.packet.size)
    ensures var next := Played(r, op);
            Holding(next.state, g) && next.state.hold[0] == r.state.hold[0] + [Named(r, op).packet] && next.last == r.last
  {
    hide ReceiveHold, NoteHold, Fits;
    var p := Named(r, op).packet;
    NoteHoldView(r.state, p);
    ReceiveView(r.state, p, op.compatible);
    HoldBytes(r.state, p);
  }

  /** While returning from filling a hold packet that is stored breaks the chain, as soon as it is handed out, exactly
      when it does not join. */
  lemma JoinExactly(r: Run, op: Op, lives: seq<Op>, next: Op, g: Format)
    requires r.state.Shaped() && Holding(r.state, g) && op.HoldPacket? && op.packet.video && FormatOf(op.packet) == g
    requires Fits(MAX_HOLD_BYTES, r.state.holdBuffered, op.packet.size)
    requires |lives| == |r.state.hold[0]| && Between(next, g) && forall i :: 0 <= i < |lives| ==> Between(lives[i], g)
    ensures var before := On(Played(r, op), lives);
            Follows(before.last, Out(before, next)) <==> !Breaks(r, op)
  {
    hide Played, Out, On, Between, Fits;
    HoldingStores(r, op, g);
    var stored := Played(r, op);
    HoldingDrains(stored, lives, g);
    HoldingTakes(On(stored, lives), next, g);
  }

  /** Once a dry hold lane has repeated its fallback, the next hold packet breaks the chain exactly when it is neither
      a keyframe nor the successor of the fallback. */
  lemma DryHoldExactly(r: Run, p: Op, x: Op, later: Op, g: Format)
    requires r.state.Shaped() && Holding(r.state, g) && r.state.hold[0] == [] && Between(p, g) && Between(later, g)
    requires x.HoldPacket? && x.packet.video && FormatOf(x.packet) == g
    requires Fits(MAX_HOLD_BYTES, Played(r, p).state.holdBuffered, x.packet.size)
    ensures var before := Played(Played(r, p), x); var fallback := r.state.holdFallback[0].value;
            Follows(before.last, Out(before, later)) <==> x.packet.keyframe || (fallback.encoder == Hold && fallback.id + 1 == r.nextHold)
  {
    hide Played, Out, Between, Fits;
    HoldingTakes(r, p, g);
    JoinExactly(Played(r, p), x, [], later, g);
    assert On(Played(Played(r, p), x), []) == Played(Played(r, p), x);
  }

  /** A realignment hands out the new head of the lane, so it breaks the chain exactly when that head is neither a
      keyframe nor the next packet. */
  lemma CutExactlyContinues(s: State, p: Packet, audioStep: nat, last: Option<Packet>, f: Format)
    requires s.Shaped() && s.mode == Delayed && p.video && FormatOf(p) == f && p.encoder == Primary
    requires forall i :: 0 <= i < |s.primary[0]| ==> Item(s.primary[0][i], Primary, f)
    requires Fits(MAX_PRIMARY_BYTES, s.buffered, p.size) && Cutting(s, Live(p, audioStep)).Some?
    ensures var c := Shift(p, s.offset);
            var head := CutHead(Buffer(NoteCadence(s, p, audioStep), c, p.usec), c, p.usec);
            && head.Some?
            && (Follows(last, Process(s, p, audioStep).carrier) <==> head.value.keyframe || Ended(last, Primary, head.value.id))
  {
    hide NoteCadence, Shift, Realign, From, CutAt, BeginEpoch, CutOrigin, NoteEmitted, TakePrimary, Underrun, Follows, HeadChecked;
    var s1, c := NoteCadence(s, p, audioStep), Shift(p, s.offset);
    CadenceView(s, p, audioStep);
    CadenceRest(s, p, audioStep);
    ShiftView(s, p);
    var b := Buffer(s1, c, p.usec);
    RealignIs(b, c, p.usec);
    CutOriginKept(b, c, p.usec);
    var origin := CutOrigin(b, c, p.usec).value;
    CutItems(b, c, p.usec, origin, f);
    var a := Realign(b, c, p.usec);
    TakePrimaryView(a.state, a.carrier, f);
    HeadFollows(last, TakePrimary(a.state, a.carrier).carrier, a.state.primary[0][0]);
  }

  lemma HeadFollows(last: Option<Packet>, out: Packet, head: Packet)
    requires Named0(out, head) && head.encoder == Primary
    ensures Follows(last, out) <==> head.keyframe || Ended(last, Primary, head.id)
  {
  }

  lemma CutItems(b: State, c: Packet, raw: int, origin: int, f: Format)
    requires b.Shaped() && b.primary[0] != [] && From(b.primary[0], origin) != []
    requires forall i :: 0 <= i < |b.primary[0]| ==> Item(b.primary[0][i], Primary, f)
    ensures var cut := CutAt(HeadChecked(b), origin); var q := From(b.primary[0], origin);
            && cut.primary[0] == q && Item(q[0], Primary, f)
            && var a := BeginEpoch(cut, c, q[0]); a.state.primary[0] == q && SamePayload(c, a.carrier) && a.state.mode == b.mode
  {
    hide CutAt, BeginEpoch, From;
    CutView(HeadChecked(b), origin);
    CutDropsPrefix(b.primary[0], Some(origin));
    FromRemains(b.primary[0], origin);
    var cut := CutAt(HeadChecked(b), origin);
    EpochView(cut, c, cut.primary[0][0]);
  }
}
