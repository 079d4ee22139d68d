/** The audio ring and cursor as objects. */
module PcmEngine {
  // Slots and sequence numbers are updated in place; a consumer loop writes one output window.

  import opened Options
  import opened PcmCursor
  import PcmRing

  function SlotOf(sequence: nat, capacity: nat): (slot: nat)
    requires capacity > 0
    ensures slot < capacity
  {
    sequence % capacity
  }

  /** The values in the slots of a range of sequence numbers. */
  function Between(slots: seq<Block>, read: nat, write: nat): seq<Block>
    requires slots != [] && read <= write
  {
    seq(write - read, i requires 0 <= i => slots[SlotOf(read + i, |slots|)])
  }

  /** The slot after the range is none of the range's own. */
  lemma BetweenKeeps(slots: seq<Block>, read: nat, write: nat, value: Block)
    requires read <= write < read + |slots|
    ensures Between(slots[SlotOf(write, |slots|) := value], read, write) == Between(slots, read, write)
  {
    var n := |slots|;
    var after := slots[SlotOf(write, n) := value];
    forall s: nat | read <= s < write ensures after[SlotOf(s, n)] == slots[SlotOf(s, n)] {
      PcmRing.SlotsDiffer(s, write, n);
    }
    assert |after| == n;
  }

  /** The ring seen by one thread at a time; the interleaving of its steps is PcmRing. */
  class PcmSpscFifo {
    const slots: array<Block>
    var write: nat
    var read: nat
    var dropped: nat
    var underruns: nat

    predicate Valid()
      reads `write, `read
    {
      slots.Length >= 2 && read <= write <= read + slots.Length
    }

    function Slot(sequence: nat): nat
      requires slots.Length > 0
    {
      SlotOf(sequence, slots.Length)
    }

    /** The blocks committed and not yet popped. */
    function Contents(): seq<Block>
      requires Valid()
      reads `write, `read, slots
    {
      Between(slots[..], read, write)
    }

    constructor (capacity: nat, silent: Block)
      requires capacity >= 2
      ensures Valid() && fresh(slots) && slots.Length == capacity && Contents() == [] && read == 0
    {
      slots := new Block[capacity](_ => silent);
      write, read, dropped, underruns := 0, 0, 0, 0;
    }

    /** The slot the producer may fill, none when the ring is full. */
    method BeginPush() returns (slot: Option<nat>)
      requires Valid()
      modifies `dropped
      ensures Valid() && slot == if |Contents()| >= slots.Length then None else Some(Slot(write))
      ensures dropped == if slot.None? then old(dropped) + 1 else old(dropped)
    {
      if write - read >= slots.Length {
        dropped := dropped + 1;
        return None;
      }
      slot := Some(Slot(write));
    }

    /** Filling the producer's slot changes nothing the consumer can see. */
    method Fill(slot: nat, value: Block)
      requires Valid() && write - read < slots.Length && slot == Slot(write)
      modifies slots
      ensures Valid() && Contents() == old(Contents()) && slots[Slot(write)] == value
    {
      BetweenKeeps(slots[..], read, write, value);
      ghost var before := slots[..];
      slots[slot] := value;
      assert slots[..] == before[slot := value];
    }

    method CommitPush()
      requires Valid() && write - read < slots.Length
      modifies `write
      ensures Valid() && Contents() == old(Contents()) + [slots[Slot(old(write))]]
    {
      write := write + 1;
    }

    method BeginPop() returns (slot: Option<nat>)
      requires Valid()
      modifies `underruns
      ensures Valid() && (slot.None? <==> Contents() == [])
      ensures slot.Some? ==> slot.value < slots.Length && slots[slot.value] == Contents()[0]
      ensures underruns == if slot.None? then old(underruns) + 1 else old(underruns)
    {
      if read == write {
        underruns := underruns + 1;
        return None;
      }
      slot := Some(Slot(read));
      assert slots[slot.value] == Contents()[0];
    }

    method CommitPop()
      requires Valid() && Contents() != []
      modifies `read
      ensures Valid() && Contents() == old(Contents())[1..] && read == old(read) + 1
    {
      read := read + 1;
    }

    method Reset()
      requires Valid()
      modifies `read, `write, `dropped, `underruns
      ensures Valid() && Contents() == [] && read == 0 && dropped == 0 && underruns == 0
    {
      read, write, dropped, underruns := 0, 0, 0, 0;
    }
  }

  /** The consumer side: one cursor over the ring, writing windows in place. */
  class PcmWindowCursor {
    var cursor: Cursor

    constructor ()
      ensures cursor == START
    {
      cursor := START;
    }

    /** The call so far: what is still in the ring and what the window holds up to the destination. */
    ghost function Progress(fifo: PcmSpscFifo, window: array<Option<nat>>, destination: nat): Window
      requires fifo.Valid() && destination <= window.Length
      reads this, fifo`write, fifo`read, fifo.slots, window
    {
      Window(cursor, fifo.Contents(), fifo.read, window[..destination])
    }

    method ResetAlignmentLocked()
      modifies this
      ensures cursor == ResetAlignment(old(cursor))
    {
      cursor := cursor.(expected := 0, pending := 0);
      cursor := cursor.(aligned := false, alignmentPending := false, continuity := false);
    }

    method FinishBlockLocked(fifo: PcmSpscFifo, block: Block, rate: nat, ghost w: Window)
      requires fifo.Valid() && fifo.Contents() != [] && fifo.Contents()[0] == block
      requires w.cursor == cursor && w.queue == fifo.Contents() && w.popped == fifo.read
      modifies this, fifo`read
      ensures fifo.Valid()
      ensures var r := FinishBlock(w, rate); cursor == r.cursor && fifo.Contents() == r.queue && fifo.read == r.popped
    {
      cursor := cursor.(expected := SatAddNs(block.timestamp, FramesToNs(FRAMES, rate)), continuity := true);
      fifo.CommitPop();
      cursor := cursor.(sourceOffset := 0, aligned := false);
      if cursor.alignmentPending && cursor.pending == 0 {
        cursor := cursor.(alignmentPending := false);
      }
    }

    /** Writes frames of the front block to the window. */
    method CopyFrames(window: array<Option<nat>>, destination: nat, from: nat, frames: nat)
      requires destination + frames <= window.Length
      modifies window
      ensures window[..destination + frames] == old(window[..destination]) + Copied(from, frames)
      ensures forall i :: destination + frames <= i < window.Length ==> window[i] == old(window[i])
    {
      var i := 0;
      while i < frames
        invariant i <= frames && window[..destination + i] == old(window[..destination]) + Copied(from, i)
        invariant forall k :: destination + i <= k < window.Length ==> window[k] == old(window[k])
      {
        ghost var before := window[..destination + i];
        window[destination + i] := Some(from + i);
        assert window[..destination + i + 1] == before + [Some(from + i)];
        assert Copied(from, i + 1) == Copied(from, i) + [Some(from + i)];
        i := i + 1;
      }
    }

    method CopyBlockLocked(fifo: PcmSpscFifo, rate: nat, window: array<Option<nat>>, destination: nat) returns (next: nat)
      requires fifo.Valid() && fifo.Contents() != [] && destination < window.Length
      requires Shaped(Progress(fifo, window, destination))
      modifies this, fifo`read, fifo`underruns, window
      ensures fifo.Valid() && destination <= next <= window.Length
      ensures Progress(fifo, window, next) == old(CopyBlock(Progress(fifo, window, destination), rate, window.Length).after)
      ensures forall i :: next <= i < window.Length ==> window[i] == old(window[i])
    {
      hide FramesToNs, SatAddNs, Copied;
      ghost var w := Progress(fifo, window, destination);
      var slot := fifo.BeginPop();
      var block := fifo.slots[slot.value];
      var frames := Min(FRAMES - cursor.sourceOffset, window.Length - destination);
      CopyFrames(window, destination, fifo.read * FRAMES + cursor.sourceOffset, frames);
      next := destination + frames;
      cursor := cursor.(sourceOffset := cursor.sourceOffset + frames);
      if cursor.sourceOffset == FRAMES {
        FinishBlockLocked(fifo, block, rate, Progress(fifo, window, next));
      }
    }

    method SkipBlockLocked(fifo: PcmSpscFifo, rate: nat, window: array<Option<nat>>, destination: nat) returns (next: nat)
      requires fifo.Valid() && fifo.Contents() != [] && destination < window.Length
      requires Shaped(Progress(fifo, window, destination))
      modifies this, fifo`read, fifo`underruns, window
      ensures fifo.Valid() && destination <= next <= window.Length
      ensures Progress(fifo, window, next) == old(SkipBlock(Progress(fifo, window, destination), rate, window.Length).after)
      ensures forall i :: next <= i < window.Length ==> window[i] == old(window[i])
    {
      hide FramesToNs, SatAddNs, CopyBlock;
      ghost var w := Progress(fifo, window, destination);
      next := destination;
      if cursor.alignmentPending && cursor.pending < 0 {
        var skip := Min(-cursor.pending, FRAMES - cursor.sourceOffset);
        cursor := cursor.(sourceOffset := cursor.sourceOffset + skip);
        cursor := cursor.(pending := cursor.pending + skip);
        if cursor.sourceOffset == FRAMES {
          var slot := fifo.BeginPop();
          FinishBlockLocked(fifo, fifo.slots[slot.value], rate, Progress(fifo, window, destination));
          return;
        }
      }
      cursor := cursor.(alignmentPending := false, pending := 0, aligned := true);
      next := CopyBlockLocked(fifo, rate, window, destination);
    }

    /** A late block leaves silence in the window. */
    method QuietLocked(fifo: PcmSpscFifo, window: array<Option<nat>>, destination: nat) returns (next: nat)
      requires fifo.Valid() && destination < window.Length
      requires forall i :: destination <= i < window.Length ==> window[i] == None
      modifies this
      ensures destination <= next <= window.Length
      ensures Progress(fifo, window, next) == old(Quiet(Progress(fifo, window, destination), window.Length))
    {
      next := destination;
      if cursor.alignmentPending && cursor.pending > 0 {
        var silence := Min(cursor.pending, window.Length - destination);
        next := destination + silence;
        cursor := cursor.(pending := cursor.pending - silence);
        assert window[..next] == window[..destination] + Silence(silence);
      } else {
        assert window[..destination] + Silence(0) == window[..destination];
      }
    }

    method AlignBlockLocked(fifo: PcmSpscFifo, block: Block, rate: nat, window: array<Option<nat>>, destination: nat)
      returns (next: nat, more: bool)
      requires fifo.Valid() && fifo.Contents() != [] && fifo.Contents()[0] == block && destination < window.Length && rate > 0
      requires Shaped(Progress(fifo, window, destination))
      requires forall i :: destination <= i < window.Length ==> window[i] == None
      modifies this, fifo`read, fifo`underruns, window
      ensures fifo.Valid() && destination <= next <= window.Length
      ensures var t := old(AlignBlock(Progress(fifo, window, destination), rate, window.Length));
              Progress(fifo, window, next) == t.after && more == t.more
      ensures forall i :: next <= i < window.Length ==> window[i] == None
    {
      hide SkipBlock, Quiet, Contiguous, DeltaFrames;
      ghost var w := Progress(fifo, window, destination);
      LoadKeeps(cursor, block, rate);
      var contiguous := cursor.continuity && Contiguous(cursor.expected, block.timestamp, rate);
      if !cursor.alignmentPending && !contiguous {
        var correction := if cursor.continuity && cursor.expected != 0
                          then DeltaFrames(cursor.expected, block.timestamp, rate) else block.alignment;
        cursor := cursor.(pending := correction, alignmentPending := true, continuity := false);
      }
      QuietShape(Progress(fifo, window, destination), window.Length);
      next := QuietLocked(fifo, window, destination);
      if next == window.Length {
        more := false;
        return;
      }
      more := true;
      next := SkipBlockLocked(fifo, rate, window, next);
      SkipGoesOn(w, rate, window.Length);
    }

    /** True when the cursor may take the front block; a first block waits for one more behind it. */
    method PrimeLocked(fifo: PcmSpscFifo, ghost w: Window) returns (ready: bool)
      requires fifo.Valid() && w.cursor == cursor && w.queue == fifo.Contents()
      modifies this, fifo`underruns
      ensures fifo.Valid() && ready == !MustWait(w)
      ensures cursor == if ready then old(cursor).(primed := true) else old(cursor)
    {
      if !cursor.primed {
        if fifo.write - fifo.read == 0 {
          return false;
        }
        if fifo.write - fifo.read < 2 {
          var slot := fifo.BeginPop();
          if slot.None? || fifo.slots[slot.value].alignment <= 0 {
            return false;
          }
        }
        cursor := cursor.(primed := true);
      }
      ready := true;
    }

    method TurnLocked(fifo: PcmSpscFifo, rate: nat, window: array<Option<nat>>, destination: nat) returns (next: nat, more: bool)
      requires fifo.Valid() && destination < window.Length && rate > 0 && Shaped(Progress(fifo, window, destination))
      requires forall i :: destination <= i < window.Length ==> window[i] == None
      modifies this, fifo`read, fifo`underruns, window
      ensures fifo.Valid() && destination <= next <= window.Length
      ensures var t := old(OneTurn(Progress(fifo, window, destination), rate, window.Length));
              Progress(fifo, window, next) == t.after && more == t.more
      ensures forall i :: next <= i < window.Length ==> window[i] == None
    {
      hide AlignBlock, CopyBlock, MustWait, Usable;
      ghost var w := Progress(fifo, window, destination);
      next, more := destination, false;
      var ready := PrimeLocked(fifo, w);
      if !ready {
        return;
      }
      ghost var primed := Progress(fifo, window, destination);
      var slot := fifo.BeginPop();
      if slot.None? {
        RunDryLocked();
        return;
      }
      var block := fifo.slots[slot.value];
      if !Usable(block, rate) {
        RejectLocked(fifo, primed);
        more := true;
      } else if cursor.aligned {
        next := CopyBlockLocked(fifo, rate, window, destination);
        CopyMore(primed, rate, window.Length);
        more := true;
      } else {
        next, more := AlignBlockLocked(fifo, block, rate, window, destination);
      }
    }

    method RunDryLocked()
      modifies this
      ensures forall w: Window :: w.cursor == old(cursor) ==> cursor == RunDry(w).cursor
    {
      cursor := cursor.(primed := false);
      if !(cursor.alignmentPending && cursor.pending < 0) {
        ResetAlignmentLocked();
      }
    }

    method RejectLocked(fifo: PcmSpscFifo, ghost w: Window)
      requires fifo.Valid() && fifo.Contents() != []
      requires w.cursor == cursor && w.queue == fifo.Contents() && w.popped == fifo.read
      modifies this, fifo`read
      ensures fifo.Valid()
      ensures var r := Reject(w); cursor == r.cursor && fifo.Contents() == r.queue && fifo.read == r.popped
    {
      fifo.CommitPop();
      cursor := cursor.(sourceOffset := 0, primed := false);
      ResetAlignmentLocked();
    }

    /** Fills one output window; what is not reached stays silent. */
    method Consume(fifo: PcmSpscFifo, rate: nat, window: array<Option<nat>>)
      requires fifo.Valid() && Shaped(Progress(fifo, window, 0))
      requires forall i :: 0 <= i < window.Length ==> window[i] == None
      modifies this, fifo`read, fifo`underruns, window
      ensures fifo.Valid()
      ensures rate == 0 || window.Length == 0 ==> cursor == old(cursor) && fifo.Contents() == old(fifo.Contents())
      ensures rate > 0 && window.Length > 0 ==>
                var r := old(PcmCursor.Consume(Progress(fifo, window, 0), rate, window.Length).after);
                && cursor == r.cursor && fifo.Contents() == r.queue && fifo.read == r.popped
                && window[..] == r.window + Silence(window.Length - |r.window|)
    {
      hide OneTurn;
      if rate == 0 || window.Length == 0 {
        return;
      }
      ghost var whole := PcmCursor.Consume(Progress(fifo, window, 0), rate, window.Length);
      var destination, more := 0, true;
      while destination < window.Length && more
        invariant fifo.Valid() && destination <= window.Length && Shaped(Progress(fifo, window, destination))
        invariant forall i :: destination <= i < window.Length ==> window[i] == None
        invariant more || destination == window.Length ==>
                    whole.after == PcmCursor.Consume(Progress(fifo, window, destination), rate, window.Length).after
        invariant !more && destination < window.Length ==> whole.after == Progress(fifo, window, destination)
        decreases more, Size(Progress(fifo, window, destination), window.Length)
      {
        ghost var w := Progress(fifo, window, destination);
        destination, more := TurnLocked(fifo, rate, window, destination);
      }
      assert window[..] == window[..destination] + Silence(window.Length - destination);
    }
  }

  lemma CopyMore(w: Window, rate: nat, out: nat)
    requires Shaped(w) && w.queue != [] && |w.window| < out
    ensures CopyBlock(w, rate, out).more
  {
  }

  lemma SkipGoesOn(w: Window, rate: nat, out: nat)
    requires Shaped(w) && w.queue != [] && rate > 0 && |w.window| < out
    ensures var quiet := Quiet(w.(cursor := LoadAlignment(w.cursor, w.queue[0], rate)), out);
            |quiet.window| < out ==> AlignBlock(w, rate, out).more
  {
    hide LoadAlignment, FramesToNs;
  }
}
