/** Turns among arrivals. */
module PcmMoves {
  // A call of the consumer is a number of turns. Between any two of them blocks may arrive; between calls a
  // window is handed out, silent where nothing was written.

  import opened Options
  import opened PcmCursor

  /** Everything handed out, and the cursor with its queue and the window under way. */
  datatype Machine = Machine(total: seq<Option<nat>>, w: Window)

  datatype Move = Arrive(block: Block) | Turning(rate: nat, out: nat) | HandOut(out: nat)

  /** Nothing handed out, nothing buffered. */
  function Silent(c: Cursor): Machine { Machine([], Window(c.(sourceOffset := 0), [], 0, [])) }

  function Moved(m: Machine, move: Move): (r: Machine)
    requires Shaped(m.w)
    ensures Shaped(r.w)
  {
    match move
    case Arrive(block) => m.(w := m.w.(queue := m.w.queue + [block]))
    case Turning(rate, out) => if rate > 0 && |m.w.window| < out then m.(w := OneTurn(m.w, rate, out).after) else m
    case HandOut(out) => Machine(m.total + m.w.window + Silence(Max(0, out - |m.w.window|)), m.w.(window := []))
  }

  function AllMoved(m: Machine, moves: seq<Move>): (r: Machine)
    requires Shaped(m.w)
    ensures Shaped(r.w)
    decreases |moves|
  {
    if moves == [] then m else AllMoved(Moved(m, moves[0]), moves[1..])
  }

  /** Every position written so far, in order. */
  function Written(m: Machine): seq<Option<nat>> { m.total + m.w.window }

  // ---------------------------------------------------------------------
  // A call is a number of turns

  function CallMoves(w: Window, rate: nat, out: nat): seq<Move>
    requires Shaped(w) && rate > 0 && |w.window| <= out
    decreases Size(w, out)
  {
    if |w.window| == out then []
    else
      var t := OneTurn(w, rate, out);
      [Turning(rate, out)] + if t.more then CallMoves(t.after, rate, out) else []
  }

  lemma {:induction false} ConsumeIsMoves(m: Machine, rate: nat, out: nat)
    requires Shaped(m.w) && rate > 0 && |m.w.window| <= out
    ensures AllMoved(m, CallMoves(m.w, rate, out)) == m.(w := Consume(m.w, rate, out).after)
    decreases Size(m.w, out)
  {
    hide OneTurn;
    if |m.w.window| < out {
      var t := OneTurn(m.w, rate, out);
      var moves := CallMoves(m.w, rate, out);
      assert Moved(m, moves[0]) == m.(w := t.after);
      if t.more {
        assert moves[1..] == CallMoves(t.after, rate, out);
        ConsumeIsMoves(m.(w := t.after), rate, out);
      }
    }
  }

  // ---------------------------------------------------------------------
  // Order, wherever blocks arrive

  lemma MoveRises(m: Machine, move: Move)
    requires Shaped(m.w) && Rising(Written(m), Position(m.w))
    ensures Rising(Written(Moved(m, move)), Position(Moved(m, move).w))
  {
    hide OneTurn, Rising;
    match move {
      case Arrive(block) =>
      case Turning(rate, out) =>
        if rate > 0 && |m.w.window| < out {
          TurnContinues(m.total, m.w, rate, out);
        }
      case HandOut(out) =>
        var n := Max(0, out - |m.w.window|);
        RisingSilence(Written(m), Position(m.w), n, Position(m.w));
        assert Written(m) + Silence(n) == Written(Moved(m, move));
    }
  }

  /** Whenever blocks arrive and windows are handed out, source frames are written in order and once each. */
  lemma {:induction false} EveryMoveRises(m: Machine, moves: seq<Move>)
    requires Shaped(m.w) && Rising(Written(m), Position(m.w))
    ensures var r := AllMoved(m, moves); Rising(Written(r), Position(r.w))
    decreases |moves|
  {
    hide Moved, Rising, Written;
    if moves != [] {
      MoveRises(m, moves[0]);
      EveryMoveRises(Moved(m, moves[0]), moves[1..]);
    }
  }

  /** From the start on, for any cursor between blocks. */
  lemma EveryStartRises(c: Cursor, moves: seq<Move>)
    ensures var r := AllMoved(Silent(c), moves); Rising(Written(r), Position(r.w))
  {
    EveryMoveRises(Silent(c), moves);
  }

  // ---------------------------------------------------------------------
  // The debt over any moves

  /** Turns see compatible blocks only. */
  predicate Accepting(m: Machine, move: Move) {
    move.Turning? && m.w.queue != [] ==> Usable(m.w.queue[0], move.rate)
  }

  /** Frames are owed before each of the moves. */
  predicate OwesThrough(m: Machine, moves: seq<Move>)
    requires Shaped(m.w)
    decreases |moves|
  {
    Owing(m.w.cursor) &&
    (moves != [] ==> Accepting(m, moves[0]) && (|moves| == 1 || OwesThrough(Moved(m, moves[0]), moves[1..])))
  }

  /** Nothing but silence was written. */
  predicate OnlySilence(before: seq<Option<nat>>, after: seq<Option<nat>>) {
    before <= after && forall i :: |before| <= i < |after| ==> after[i].None?
  }

  /** Frames skipped since a position plus what is still owed are the debt, and only silence was written; once it is
      paid exactly the owed frames were skipped and the next frame written is the one behind them. */
  ghost predicate Repays(position: nat, pending: int, before: seq<Option<nat>>, m: Machine) {
    if Owing(m.w.cursor) then
      OnlySilence(before, Written(m)) && Position(m.w) - position == m.w.cursor.pending - pending
    else
      || (OnlySilence(before, Written(m)) && Position(m.w) == position - pending)
      || exists i :: |before| <= i < |Written(m)| && Written(m)[i] == Some(position - pending) && OnlySilence(before, Written(m)[..i])
  }

  lemma SilenceOnce(before: seq<Option<nat>>, m: Machine, out: nat)
    requires OnlySilence(before, Written(m)) && Shaped(m.w)
    ensures OnlySilence(before, Written(Moved(m, HandOut(out))))
  {
    var n := Max(0, out - |m.w.window|);
    assert Written(Moved(m, HandOut(out))) == Written(m) + Silence(n);
  }

  lemma MoveRepays(position: nat, pending: int, before: seq<Option<nat>>, m: Machine, move: Move)
    requires Shaped(m.w) && Owing(m.w.cursor) && Accepting(m, move) && Repays(position, pending, before, m)
    ensures Repays(position, pending, before, Moved(m, move))
  {
    hide OneTurn, Usable, OnlySilence;
    match move {
      case Arrive(block) =>
      case HandOut(out) => SilenceOnce(before, m, out);
      case Turning(rate, out) =>
        if rate > 0 && |m.w.window| < out {
          DebtConserved(m.w, rate, out);
          TurnRepays(position, pending, before, m, m.(w := OneTurn(m.w, rate, out).after));
        }
    }
  }

  lemma TurnRepays(position: nat, pending: int, before: seq<Option<nat>>, m: Machine, r: Machine)
    requires Owing(m.w.cursor) && Repays(position, pending, before, m) && r.total == m.total
    requires Pays(Position(m.w), m.w.cursor.pending, m.w.window, r.w)
    ensures Repays(position, pending, before, r)
  {
    if r.w.window != m.w.window {
      var i := |Written(m)|;
      assert Written(r)[i] == r.w.window[|m.w.window|];
      assert Written(r)[..i] == Written(m);
    }
  }

  lemma {:induction false} DebtThrough(position: nat, pending: int, before: seq<Option<nat>>, m: Machine, moves: seq<Move>)
    requires Shaped(m.w) && OwesThrough(m, moves) && Repays(position, pending, before, m)
    ensures Repays(position, pending, before, AllMoved(m, moves))
    decreases |moves|
  {
    hide Moved, Repays, Accepting;
    if moves != [] {
      MoveRepays(position, pending, before, m, moves[0]);
      if |moves| > 1 {
        DebtThrough(position, pending, before, Moved(m, moves[0]), moves[1..]);
      }
    }
  }

  /** From the turn that loads a debt on, over any turns, arrivals and windows until it is paid. */
  lemma DebtSinceLoaded(m: Machine, rate: nat, out: nat, moves: seq<Move>)
    requires Shaped(m.w) && rate > 0 && |m.w.window| < out && m.w.queue != [] && Usable(m.w.queue[0], rate) && !MustWait(m.w)
    requires !m.w.cursor.aligned && !m.w.cursor.alignmentPending
    requires var loaded := LoadAlignment(m.w.cursor, m.w.queue[0], rate); loaded.alignmentPending && loaded.pending < 0
    requires moves != [] ==> OwesThrough(Moved(m, Turning(rate, out)), moves)
    ensures Repays(Position(m.w), LoadAlignment(m.w.cursor, m.w.queue[0], rate).pending, Written(m),
                   AllMoved(Moved(m, Turning(rate, out)), moves))
  {
    hide OneTurn, Usable, LoadAlignment, MustWait, OwesThrough, Repays;
    DebtLoaded(m.w, rate, out);
    var r := Moved(m, Turning(rate, out));
    FirstRepays(m, LoadAlignment(m.w.cursor, m.w.queue[0], rate).pending, r);
    if moves != [] {
      DebtThrough(Position(m.w), LoadAlignment(m.w.cursor, m.w.queue[0], rate).pending, Written(m), r, moves);
    }
  }

  lemma FirstRepays(m: Machine, pending: int, r: Machine)
    requires r.total == m.total && Pays(Position(m.w), pending, m.w.window, r.w)
    ensures Repays(Position(m.w), pending, Written(m), r)
  {
    if r.w.window != m.w.window && !Owing(r.w.cursor) {
      var i := |Written(m)|;
      assert Written(r)[i] == r.w.window[|m.w.window|];
      assert Written(r)[..i] == Written(m);
    }
  }
}
