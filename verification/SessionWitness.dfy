/** Runs from a new session that break the chain, one for each exclusion. */
module SessionWitness {
  // One audio track, a delay of one second and steps of a millisecond.

  import opened Options
  import opened SessionSpec
  import opened SessionRealign
  import opened SessionDelayLine
  import opened SessionContinuity
  import opened SessionPaced

  function Video(usec: int, keyframe: bool, encoder: Encoder, id: nat, size: nat): Packet {
    Packet(true, 0, 1, 1000, 0, 0, usec, keyframe, size, encoder, id)
  }

  function Sound(usec: int, encoder: Encoder): Packet {
    Packet(false, 0, 1, 1000, 0, 0, usec, false, 1, encoder, 0)
  }

  const VIDEO: Format := Format(true, 0, 1, 1000)
  const SOUND: Format := Format(false, 0, 1, 1000)

  function HoldKey(): Packet { Video(0, true, Hold, 0, 1) }
  function HoldNext(): Packet { Video(500_000, false, Hold, 1, 1) }
  function HoldSound(): Packet { Sound(500_000, Hold) }
  function FirstSound(): Packet { Sound(0, Primary) }
  function LiveKey(): Packet { Video(0, true, Primary, 0, 1) }

  function Requested(): State {
    State(Preparing, NoQueues(), NoQueues(), Nothing(), Nothing(), Nothing(), Nothing(), Nothing(), NoSteps(), Nothing(),
          0, 16667, None, 0, 0, 1, {1}, 0, false, false, false, false, false, 0)
  }

  lemma StartsRequested()
    ensures Step(Initial(), Delay(1, {1}, true)) == Requested()
  {
    assert RequestDelay(Initial(), 1, {1}, true).active == {1};
  }

  function Opening(): State {
    Requested().(hold := NoQueues()[0 := [HoldKey()]], holdFallback := Nothing()[0 := Some(HoldKey())],
                 holdFormats := Nothing()[0 := Some(VIDEO)], holdBuffered := 1, holdReady := true)
  }

  lemma StartsOpening()
    ensures Step(Requested(), HoldPacket(HoldKey(), true)) == Opening()
  {
    hide RestartHold, FormatClash;
    var s := Requested().(holdFormats := Nothing()[0 := Some(VIDEO)]);
    NothingToRestart(s);
    NoClash(StoreHold(NoteHold(Requested(), HoldKey()), HoldKey()));
    assert [] + [HoldKey()] == [HoldKey()];
  }

  lemma NothingToRestart(s: State)
    requires s.Shaped() && s.hold == NoQueues() && s.holdBuffered == 0 && s.holdStart == 0
    ensures RestartHold(s, HoldKey()) == s
  {
    hide TotalSize;
    var kept := seq(LANES, l requires 0 <= l < LANES => if l == 0 then [] else From(s.hold[l], 0));
    assert kept == NoQueues();
  }

  lemma NoClash(s: State)
    requires s.Shaped() && s.primaryFormats == Nothing()
    ensures !FormatClash(s)
  {
  }

  function Prerolling(): State {
    Opening().(hold := NoQueues()[0 := [HoldKey(), HoldNext()]], holdBuffered := 2)
  }

  lemma StartsPrerolling()
    ensures Step(Opening(), HoldPacket(HoldNext(), true)) == Prerolling()
  {
    assert [HoldKey()] + [HoldNext()] == [HoldKey(), HoldNext()];
    assert NoQueues()[0 := [HoldKey()]][0 := [HoldKey(), HoldNext()]] == NoQueues()[0 := [HoldKey(), HoldNext()]];
    assert Opening().holdFormats[0 := Some(VIDEO)] == Opening().holdFormats;
  }

  function Prerolled0(): State {
    Prerolling().(hold := Prerolling().hold[1 := [HoldSound()]], holdFallback := Opening().holdFallback[1 := Some(HoldSound())],
                  holdFormats := Opening().holdFormats[1 := Some(SOUND)], holdBuffered := 3)
  }

  lemma StartsPrerolled()
    ensures Step(Prerolling(), HoldPacket(HoldSound(), true)) == Prerolled0()
  {
    assert [] + [HoldSound()] == [HoldSound()];
  }

  function Sounding(): State {
    Prerolled0().(lastPrimary := Nothing()[1 := Some(0)], steps := NoSteps()[1 := 1000], primaryFormats := Nothing()[1 := Some(SOUND)])
  }

  lemma StartsSounding()
    ensures Step(Prerolled0(), Live(FirstSound(), 1000)) == Sounding()
  {
  }

  function Filling0(): State {
    Sounding().(mode := Filling, primary := NoQueues()[0 := [LiveKey()]], buffered := 1, maxPts := Some(0), frame := 1000,
                lastPrimary := Sounding().lastPrimary[0 := Some(0)], steps := Sounding().steps[0 := 1000],
                primaryFormats := Sounding().primaryFormats[0 := Some(VIDEO)],
                hold := Prerolled0().hold[0 := [HoldNext()]], holdBuffered := 2)
  }

  /** The first live keyframe is noted. */
  function KeyNoted(): State {
    Sounding().(frame := 1000, lastPrimary := Sounding().lastPrimary[0 := Some(0)], steps := Sounding().steps[0 := 1000],
                primaryFormats := Sounding().primaryFormats[0 := Some(VIDEO)])
  }

  lemma NotesKey()
    ensures NoteCadence(Sounding(), LiveKey(), 1000) == KeyNoted() && PrerollReady(KeyNoted())
    ensures Sounding().mode == KeyNoted().mode == Preparing && Sounding().offset == 0
  {
  }

  lemma FillsKey()
    ensures FillStep(KeyNoted().(fillStart := 0, mode := Filling), LiveKey(), 0, true)
              == Flow(Filling0().(maxPts := None), LiveKey().(encoder := Hold))
  {
    hide EnterDelayed, FillFull, Underrun;
    assert [] + [LiveKey()] == [LiveKey()];
    assert [HoldKey(), HoldNext()][1..] == [HoldNext()];
  }

  lemma EmitsKey()
    ensures NoteEmitted(Filling0().(maxPts := None), LiveKey().(encoder := Hold)) == Filling0()
  {
  }

  lemma StartsFilling()
    ensures Process(Sounding(), LiveKey(), 1000) == Flow(Filling0(), LiveKey().(encoder := Hold))
  {
    hide NoteCadence, FillStep, NoteEmitted, PrerollReady, Sounding, KeyNoted, Filling0;
    NotesKey();
    FillsKey();
    EmitsKey();
  }

  // ---------------------------------------------------------------------
  // The run until the session fills

  /** The run is intact so far and ends here. */
  ghost predicate Intact(ops: seq<Op>, r: Run) {
    Play(ops) == r && AllAdmissible(ops, VIDEO, VIDEO)
  }

  /** One more call, not in a delay and no hold packet while returning. */
  lemma GoesOn(ops: seq<Op>, r: Run, op: Op)
    requires r.state.Shaped() && Intact(ops, r) && r.state.mode != Delayed && (op.HoldPacket? ==> r.state.mode != Returning)
    requires op.Live? && op.packet.video ==> FormatOf(op.packet) == VIDEO
    requires op.HoldPacket? && op.packet.video ==> FormatOf(op.packet) == VIDEO
    ensures Intact(ops + [op], Played(r, op))
  {
    hide Played, Play, OffKey, Joins;
    PlayOn(ops, op);
    assert (ops + [op])[..|ops|] == ops;
    forall i | 0 <= i < |ops + [op]| ensures Admissible(Play((ops + [op])[..i]), (ops + [op])[i], VIDEO, VIDEO) {
      if i < |ops| {
        assert (ops + [op])[..i] == ops[..i];
      }
    }
  }

  lemma PlayOn(ops: seq<Op>, op: Op)
    ensures Play(ops + [op]) == Played(Play(ops), op)
  {
    assert (ops + [op])[..|ops|] == ops;
  }

  function FillOps(): seq<Op> {
    [] + [Delay(1, {1}, true)] + [HoldPacket(HoldKey(), true)] + [HoldPacket(HoldNext(), true)] + [HoldPacket(HoldSound(), true)] +
    [Live(FirstSound(), 1000)] + [Live(LiveKey(), 1000)]
  }

  function FillRun(): Run { Run(Filling0(), Some(LiveKey().(encoder := Hold)), 1, 2) }

  lemma FillPlays()
    ensures Intact(FillOps(), FillRun())
  {
    hide Step, Process, Play, Requested, Opening, Prerolling, Prerolled0, Sounding, Filling0, Intact;
    var o1: seq<Op> := [] + [Delay(1, {1}, true)];
    var o2 := o1 + [HoldPacket(HoldKey(), true)];
    var o3 := o2 + [HoldPacket(HoldNext(), true)];
    var o4 := o3 + [HoldPacket(HoldSound(), true)];
    var o5 := o4 + [Live(FirstSound(), 1000)];
    EarlyModes();
    IntactNothing();
    GoesOn([], Run(Initial(), None, 0, 0), Delay(1, {1}, true));
    StartsRequested();
    GoesOn(o1, Run(Requested(), None, 0, 0), HoldPacket(HoldKey(), true));
    StartsOpening();
    GoesOn(o2, Run(Opening(), None, 0, 1), HoldPacket(HoldNext(), true));
    StartsPrerolling();
    GoesOn(o3, Run(Prerolling(), None, 0, 2), HoldPacket(HoldSound(), true));
    StartsPrerolled();
    GoesOn(o4, Run(Prerolled0(), None, 0, 2), Live(FirstSound(), 1000));
    StartsSounding();
    GoesOn(o5, Run(Sounding(), None, 0, 2), Live(LiveKey(), 1000));
    StartsFilling();
    LiveIs(Sounding(), LiveKey(), 1000);
  }

  lemma EarlyModes()
    ensures Requested().mode == Opening().mode == Prerolling().mode == Prerolled0().mode == Sounding().mode == Preparing
    ensures Filling0().mode == Filling
  {
  }

  lemma LiveIs(s: State, p: Packet, audioStep: nat)
    requires s.Shaped()
    ensures Step(s, Live(p, audioStep)) == Process(s, p, audioStep).state
  {
  }

  lemma IntactNothing()
    ensures Intact([], Run(Initial(), None, 0, 0))
  {
  }

  // ---------------------------------------------------------------------
  // A hold packet that joins after a gap

  /** An intact run goes on with an excluded call, and a video payload follows that its decoder cannot continue on. */
  ghost predicate BreaksRun(ops: seq<Op>, x: Op, lives: seq<Op>, next: Op) {
    && AllAdmissible(ops, VIDEO, VIDEO) && Breaks(Play(ops), x)
    && next.Live? && next.packet.video && FormatOf(next.packet) == VIDEO
    && (forall i :: 0 <= i < |lives| ==> Between(lives[i], VIDEO))
    && var before := SessionContinuity.On(Play(ops + [x]), lives);
       before.last.Some? && !Follows(before.last, Out(before, next))
  }

  function LiveNext(usec: int, id: nat): Op { Live(Video(usec, false, Primary, id, 1), 1000) }

  function HoldLater(id: nat, size: nat): Op { HoldPacket(Video(533_333, false, Hold, id, size), true) }

  /** The delay is cancelled while it fills; the hold lane runs dry and its keyframe is repeated. */
  function DryOps(): seq<Op> { FillOps() + [Cancel] + [LiveNext(10_000, 1)] + [LiveNext(20_000, 2)] }

  lemma CancelsHolding()
    ensures var r := Played(FillRun(), Cancel);
            && Holding(r.state, VIDEO) && r.state.hold[0] == [HoldNext()] && r.nextHold == 2
            && r.state.holdFallback[0] == Some(HoldKey()) && r.state.holdBuffered == 2
  {
  }

  /** The next hold packet breaks the chain. */
  lemma DryHoldRun()
    ensures BreaksRun(DryOps(), HoldLater(2, 1), [], LiveNext(30_000, 3))
    ensures Play(DryOps()).state.hold[0] == []
  {
    hide Play, Played, Intact, FillRun, Process, Holding, FillOps, Out, CutsOffKey;
    FillPlays();
    FillMode();
    CancelsHolding();
    var r1 := Played(FillRun(), Cancel);
    var r2 := Played(r1, LiveNext(10_000, 1));
    var r3 := Played(r2, LiveNext(20_000, 2));
    GoesOn(FillOps(), FillRun(), Cancel);
    HoldingMode(r1);
    HoldingTakes(r1, LiveNext(10_000, 1), VIDEO);
    GoesOn(FillOps() + [Cancel], r1, LiveNext(10_000, 1));
    HoldingMode(r2);
    HoldingTakes(r2, LiveNext(20_000, 2), VIDEO);
    GoesOn(FillOps() + [Cancel] + [LiveNext(10_000, 1)], r2, LiveNext(20_000, 2));
    HoldingMode(r3);
    GapBreaks(DryOps(), r3, HoldLater(2, 1), [], LiveNext(30_000, 3));
    IntactIs(DryOps(), r3);
  }

  lemma IntactIs(ops: seq<Op>, r: Run)
    requires Intact(ops, r)
    ensures Play(ops) == r
  {
  }

  lemma HoldingMode(r: Run)
    requires r.state.Shaped() && Holding(r.state, VIDEO)
    ensures r.state.mode == Returning && r.state.fromFilling && !r.state.errorReturn
  {
  }

  /** A hold packet with a gap before it, and enough live packets to hand it out. */
  lemma GapBreaks(ops: seq<Op>, r: Run, x: Op, lives: seq<Op>, next: Op)
    requires r.state.Shaped() && Intact(ops, r) && Holding(r.state, VIDEO) && r.last.Some? && Breaks(r, x)
    requires x.HoldPacket? && x.packet.video && FormatOf(x.packet) == VIDEO && Between(next, VIDEO)
    requires |lives| == |r.state.hold[0]| && forall i :: 0 <= i < |lives| ==> Between(lives[i], VIDEO)
    ensures BreaksRun(ops, x, lives, next)
  {
    hide Play, Played, Holding, Fits, Joins, CutsOffKey, Out, Between, SessionContinuity.On;
    PlayOn(ops, x);
    JoinExactly(r, x, lives, next, VIDEO);
    HoldingStores(r, x, VIDEO);
    HoldingDrains(Played(r, x), lives, VIDEO);
    BetweenIs(next);
  }

  lemma BetweenIs(op: Op)
    requires Between(op, VIDEO)
    ensures op.Live? && op.packet.video && FormatOf(op.packet) == VIDEO
  {
  }

  lemma FillMode()
    ensures FillRun().state.Shaped() && FillRun().state.mode == Filling
  {
  }

  /** The hold buffer overflows while the session fills: the packet is lost and the session returns. */
  function LossOps(): seq<Op> { FillOps() + [HoldLater(2, MAX_HOLD_BYTES)] }

  lemma LosesHold()
    ensures var r := Played(FillRun(), HoldLater(2, MAX_HOLD_BYTES));
            && Holding(r.state, VIDEO) && r.state.hold[0] == [HoldNext()] && r.nextHold == 3 && r.state.holdBuffered == 2
            && r.last.Some?
  {
    hide TotalSize;
  }

  /** The hold packet after the lost one breaks the chain. */
  lemma LostHoldRun()
    ensures BreaksRun(LossOps(), HoldLater(3, 1), [LiveNext(10_000, 1)], LiveNext(20_000, 2))
    ensures Play(LossOps()).nextHold == 3 && Play(LossOps()).state.hold[0] == [HoldNext()]
  {
    hide Play, Played, Intact, FillRun, Process, Holding, FillOps, Out, CutsOffKey;
    FillPlays();
    FillMode();
    LosesHold();
    var r := Played(FillRun(), HoldLater(2, MAX_HOLD_BYTES));
    GoesOn(FillOps(), FillRun(), HoldLater(2, MAX_HOLD_BYTES));
    HoldingMode(r);
    GapBreaks(LossOps(), r, HoldLater(3, 1), [LiveNext(10_000, 1)], LiveNext(20_000, 2));
    IntactIs(LossOps(), r);
  }

  // ---------------------------------------------------------------------
  // A cut off a keyframe

  function Second(): Packet { Video(500_000, false, Primary, 1, 1) }
  function SecondSound(): Packet { Sound(900_000, Primary) }
  function Third(): Packet { Video(1_000_000, false, Primary, 2, 1) }
  function Back(): Packet { Video(900_000, true, Primary, 3, 1) }

  function Filling1(): State {
    var s := Filling0();
    s.(primary := s.primary[0 := [LiveKey(), Second()]], buffered := 2, maxPts := Some(500_000),
       lastPrimary := s.lastPrimary[0 := Some(500_000)], realign := true, hold := s.hold[0 := []], holdBuffered := 1)
  }

  lemma FillsSecond()
    ensures Process(Filling0(), Second(), 1000) == Flow(Filling1(), Second().(encoder := Hold))
  {
    assert [LiveKey()] + [Second()] == [LiveKey(), Second()];
    assert [HoldNext()][1..] == [];
  }

  function Filling2(): State {
    var s := Filling1();
    s.(primary := s.primary[1 := [SecondSound()]], buffered := 3, lastPrimary := s.lastPrimary[1 := Some(900_000)],
       hold := s.hold[1 := []], holdBuffered := 0)
  }

  lemma NotesSound()
    ensures NoteCadence(Filling1(), SecondSound(), 1000) == Filling1().(lastPrimary := Filling2().lastPrimary)
    ensures Filling1().mode == Filling && Filling1().offset == 0
  {
  }

  lemma TakesSound()
    ensures FillStep(Filling1().(lastPrimary := Filling2().lastPrimary), SecondSound(), 900_000, false)
              == Flow(Filling2(), SecondSound().(encoder := Hold))
  {
    hide EnterDelayed, FillFull, Underrun;
    assert [] + [SecondSound()] == [SecondSound()];
    assert [HoldSound()][1..] == [];
  }

  lemma FillsSound()
    ensures Step(Filling1(), Live(SecondSound(), 1000)) == Filling2()
  {
    hide NoteCadence, FillStep, Filling1, Filling2;
    NotesSound();
    TakesSound();
  }

  function Delaying(): State {
    var s := Filling2();
    s.(mode := Delayed, primary := s.primary[0 := [Second(), Third()]], maxPts := Some(1_000_000),
       lastPrimary := s.lastPrimary[0 := Some(1_000_000)], lastEmitted := Nothing()[0 := Some(0)],
       primaryFallback := Nothing()[0 := Some(LiveKey())])
  }

  /** The third live packet is noted and buffered. */
  function Ready(): State {
    var s := Filling2();
    s.(primary := s.primary[0 := [LiveKey(), Second(), Third()]], buffered := 4, lastPrimary := s.lastPrimary[0 := Some(1_000_000)])
  }

  lemma NotesThird()
    ensures Buffer(NoteCadence(Filling2(), Third(), 1000), Third(), 1_000_000) == Ready()
    ensures Fits(MAX_PRIMARY_BYTES, NoteCadence(Filling2(), Third(), 1000).buffered, 1)
    ensures NoteCadence(Filling2(), Third(), 1000).mode == Filling && Filling2().offset == 0 && Filling2().mode == Filling
  {
    assert [LiveKey(), Second()] + [Third()] == [LiveKey(), Second(), Third()];
  }

  lemma NoEpoch()
    ensures FillReady(Ready(), Third(), 1_000_000)
    ensures BeginEpoch(Ready(), Third(), LiveKey()) == Flow(Ready(), Third())
  {
  }

  /** The delay has just begun. */
  function Begun(): State { Ready().(mode := Delayed, lastEmitted := Nothing()) }

  lemma NotesHead()
    ensures NoteSource(Begun(), 0, 0) == Begun().(lastEmitted := Nothing()[0 := Some(0)])
    ensures Begun().primary[0] == [LiveKey(), Second(), Third()]
  {
  }

  lemma PopsHead()
    ensures PopPrimary(Begun().(lastEmitted := Nothing()[0 := Some(0)]), 0) == Delaying().(maxPts := Some(500_000))
  {
    assert [LiveKey(), Second(), Third()][1..] == [Second(), Third()];
  }

  lemma TakesKey()
    ensures TakePrimary(Begun(), Third()) == Taken(Delaying().(maxPts := Some(500_000)), Third().(keyframe := true, id := 0), true, false)
  {
    hide NoteSource, PopPrimary, Begun, Delaying;
    NotesHead();
    PopsHead();
  }

  lemma Enters()
    ensures EnterDelayed(Ready(), Third()) == Flow(Delaying().(maxPts := Some(500_000)), Third().(keyframe := true, id := 0))
  {
    hide BeginEpoch, TakePrimary, Delaying;
    NoEpoch();
    TakesKey();
  }

  lemma FillsThird()
    ensures var n := NoteCadence(Filling2(), Third(), 1000);
            FillStep(n, Third(), 1_000_000, false) == Flow(Delaying().(maxPts := Some(500_000)), Third().(keyframe := true, id := 0))
  {
    hide NoteCadence, EnterDelayed, Buffer, FillReady, FillFull, StartHold, TakeHold, Underrun, BeginEpoch, Fits, Ready, Delaying, Filling2;
    NotesThird();
    NoEpoch();
    Enters();
  }

  lemma Delays()
    ensures Process(Filling2(), Third(), 1000) == Flow(Delaying(), Third().(keyframe := true, id := 0))
  {
    hide NoteCadence, FillStep, NoteEmitted, Ready, Delaying, Filling2, Buffer, FillReady, BeginEpoch;
    NotesThird();
    FillsThird();
    EmitsThird();
  }

  lemma EmitsThird()
    ensures NoteEmitted(Delaying().(maxPts := Some(500_000)), Third().(keyframe := true, id := 0)) == Delaying()
  {
  }

  // The keyframe that went back in time asks for the cut.

  function Joined0(): State {
    var s := Delaying();
    s.(primary := s.primary[0 := [Second(), Third(), Back()]], buffered := 4, lastPrimary := s.lastPrimary[0 := Some(900_000)])
  }

  lemma BacksJoin()
    ensures Buffer(NoteCadence(Delaying(), Back(), 1000), Back(), 900_000) == Joined0()
  {
    assert [Second(), Third()] + [Back()] == [Second(), Third(), Back()];
  }

  lemma SkewedLanes()
    ensures LanesReady(Joined0()) && HeadChecked(Joined0()) == Joined0() && Joined0().realign
    ensures Skewed(Joined0(), 400_000)
  {
    var s := Joined0();
    assert 1 in s.active && Lead(s, 1) == 1000;
  }

  lemma LowerIs()
    ensures LanesReady(Joined0()) && LowerBound(Joined0(), LANES) == 900_000
  {
    var s := Joined0();
    SkewedLanes();
    assert LowerBound(s, 0) == 500_000;
    assert LowerBound(s, 1) == 500_000;
    assert LowerBound(s, 2) == 900_000;
    assert LowerBound(s, 3) == 900_000;
    assert LowerBound(s, 4) == 900_000;
    assert LowerBound(s, 5) == 900_000;
    assert LowerBound(s, 6) == 900_000;
  }

  lemma ProbeIs(cursors: seq<nat>)
    requires |cursors| == LANES && cursors[1] == 0
    ensures var r := ProbeLanes(Joined0(), cursors, 900_000, 1); r.aligned && !r.beyond
  {
    var s := Joined0();
    assert Advance(s.primary[1], 0, 900_000) == 0;
    RestAligned(cursors[1 := 0], 2);
  }

  lemma {:induction false} RestAligned(cursors: seq<nat>, l: nat)
    requires |cursors| == LANES && 2 <= l <= LANES
    ensures ProbeLanes(Joined0(), cursors, 900_000, l) == Probe(cursors, true, false)
    decreases LANES - l
  {
    if l < LANES {
      RestAligned(cursors, l + 1);
    }
  }

  lemma PicksBack()
    ensures LanesReady(Joined0()) && Pick(Joined0(), -100_000) == Some(2)
  {
    hide ProbeLanes, LowerBound;
    var s := Joined0();
    LowerIs();
    var start := seq(LANES, _ => 0);
    ProbeIs(start);
    assert Scan(s, -100_000, 900_000, 2, start, None) == Some(2);
    assert Scan(s, -100_000, 900_000, 1, start, None) == Some(2);
    assert Scan(s, -100_000, 900_000, 0, start, None) == Some(2);
  }

  lemma CutsAtBack()
    ensures CutOrigin(Joined0(), Back(), 900_000) == Some(900_000)
    ensures CutHead(Joined0(), Back(), 900_000) == Some(Third())
  {
    hide Scan, LowerBound, Skewed, HeadChecked;
    SkewedLanes();
    PicksBack();
    var s := Joined0();
    assert Joined0().target == 1;
    assert Covered(s, 900_000);
    assert From(s.primary[0][1..], 900_000) == s.primary[0][1..];
  }

  lemma BackCuts()
    ensures CutsOffKey(Delaying(), Back(), 1000) && Cutting(Delaying(), Live(Back(), 1000)) == Some(900_000)
    ensures var c := Shift(Back(), Delaying().offset);
            CutHead(Buffer(NoteCadence(Delaying(), Back(), 1000), c, 900_000), c, 900_000) == Some(Third())
  {
    hide NoteCadence, Buffer, CutOrigin, CutHead, Joined0;
    CutsAtBack();
    BacksJoin();
    assert Delaying().offset == 0 && Delaying().mode == Delayed && Delaying().buffered == 3;
  }

  /** A live keyframe goes back before a packet that is still delayed, once a hole has asked for a realignment. */
  function BackOps(): seq<Op> { FillOps() + [Live(Second(), 1000)] + [Live(SecondSound(), 1000)] + [Live(Third(), 1000)] }

  lemma BackPlays()
    ensures Intact(BackOps(), Run(Delaying(), Some(Third().(keyframe := true, id := 0)), 3, 2))
  {
    hide Step, Process, Play, Played, Intact, Filling0, Filling1, Filling2, Delaying, FillOps;
    FillPlays();
    FillModes();
    FillMode();
    var o1 := FillOps() + [Live(Second(), 1000)];
    var o2 := o1 + [Live(SecondSound(), 1000)];
    GoesOn(FillOps(), FillRun(), Live(Second(), 1000));
    FillsSecond();
    LivePlays(FillRun(), Second());
    var r1 := Played(FillRun(), Live(Second(), 1000));
    GoesOn(o1, r1, Live(SecondSound(), 1000));
    FillsSound();
    SoundPlays(r1);
    var r2 := Played(r1, Live(SecondSound(), 1000));
    GoesOn(o2, r2, Live(Third(), 1000));
    Delays();
    LivePlays(r2, Third());
  }

  lemma FillModes()
    ensures Filling0().mode == Filling1().mode == Filling2().mode == Filling
    ensures FillRun().state == Filling0()
  {
  }

  lemma LivePlays(r: Run, p: Packet)
    requires r.state.Shaped() && p.video && p.encoder == Primary && p.id == r.nextLive
    ensures var f := Process(r.state, p, 1000); Played(r, Live(p, 1000)) == Run(f.state, Some(f.carrier), r.nextLive + 1, r.nextHold)
  {
    hide Process;
  }

  lemma SoundPlays(r: Run)
    requires r.state.Shaped()
    ensures Played(r, Live(SecondSound(), 1000)) == r.(state := Step(r.state, Live(SecondSound(), 1000)))
  {
    hide Process;
  }

  /** The cut leaves a packet in front that is neither a keyframe nor the next one, and it goes out at once. */
  lemma BackwardTimeRun()
    ensures AllAdmissible(BackOps(), VIDEO, VIDEO) && Breaks(Play(BackOps()), Live(Back(), 1000))
    ensures Play(BackOps()).last.Some? && !Follows(Play(BackOps()).last, Out(Play(BackOps()), Live(Back(), 1000)))
  {
    hide Play, Process, Delaying, BackOps, CutsOffKey, Cutting, CutHead, NoteCadence, Buffer;
    BackPlays();
    BackCuts();
    DelayedItems();
    CutExactlyContinues(Delaying(), Back(), 1000, Some(Third().(keyframe := true, id := 0)), VIDEO);
  }

  lemma DelayedItems()
    ensures Delaying().mode == Delayed && Delaying().buffered == 3 && Delaying().primary[0] == [Second(), Third()]
  {
  }
}
