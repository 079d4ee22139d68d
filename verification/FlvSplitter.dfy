/** Cutting a byte stream into FLV tags. */
module FlvSplitter {
  // Whatever the chunks, the same tags are written. The layout is that of the Adobe Flash Video File Format
  // Specification, version 10.1, Annex E, sections E.2 to E.4.1.

  import opened Options

  type byte = x: int | 0 <= x < 256

  const MAX_TAG_BYTES: nat := 16 * 1024 * 1024
  /** File header of nine bytes and the first back pointer of four. */
  const HEADER_BYTES: nat := 13
  /** Tag header of eleven bytes, payload, back pointer of four. */
  const TAG_HEADER: nat := 11
  const TAG_OVERHEAD: nat := 15

  type Bytes = seq<byte>

  /** Length of the tag at the front, from the 24-bit payload size in its header. */
  function TagLength(b: Bytes): (n: nat)
    requires |b| >= TAG_HEADER
    ensures n >= TAG_OVERHEAD
  {
    b[1] * 0x10000 + b[2] * 0x100 + b[3] + TAG_OVERHEAD
  }

  /** The length is in the header alone. */
  lemma LengthInHeader(b: Bytes, c: Bytes)
    requires |b| >= TAG_HEADER && |c| >= TAG_HEADER && b[..TAG_HEADER] == c[..TAG_HEADER]
    ensures TagLength(b) == TagLength(c)
  {
    assert forall i :: 0 <= i < TAG_HEADER ==> b[i] == b[..TAG_HEADER][i] && c[i] == c[..TAG_HEADER][i];
  }

  /** The complete tags of a byte string, what is left of it, and whether a tag is too long. */
  datatype Parsed = Parsed(tags: seq<Bytes>, rest: Bytes, ok: bool)

  function Parse(b: Bytes): Parsed {
    if |b| < TAG_HEADER then Parsed([], b, true)
    else if TagLength(b) > MAX_TAG_BYTES then Parsed([], b, false)
    else if |b| < TagLength(b) then Parsed([], b, true)
    else
      var later := Parse(b[TagLength(b)..]);
      Parsed([b[..TagLength(b)]] + later.tags, later.rest, later.ok)
  }

  lemma ParseFront(b: Bytes)
    ensures Parse(b)
         == if |b| < TAG_HEADER then Parsed([], b, true)
            else if TagLength(b) > MAX_TAG_BYTES then Parsed([], b, false)
            else if |b| < TagLength(b) then Parsed([], b, true)
            else
              var later := Parse(b[TagLength(b)..]);
              Parsed([b[..TagLength(b)]] + later.tags, later.rest, later.ok)
  {
  }

  function Concat(tags: seq<Bytes>): Bytes {
    if tags == [] then [] else tags[0] + Concat(tags[1..])
  }

  /** Nothing is lost. */
  lemma {:induction false} ParseConcat(b: Bytes)
    ensures Concat(Parse(b).tags) + Parse(b).rest == b
  {
    hide Parse, TagLength;
    ParseFront(b);
    if |b| >= TAG_HEADER && TagLength(b) <= MAX_TAG_BYTES && |b| >= TagLength(b) {
      var n := TagLength(b);
      ParseConcat(b[n..]);
      ConcatFront(b[..n], Parse(b[n..]).tags);
      assert b[..n] + Concat(Parse(b[n..]).tags) + Parse(b[n..]).rest == b[..n] + b[n..] == b;
    }
  }

  lemma ConcatFront(tag: Bytes, tags: seq<Bytes>)
    ensures Concat([tag] + tags) == tag + Concat(tags)
  {
    assert ([tag] + tags)[1..] == tags;
  }

  predicate Whole(tag: Bytes) { |tag| >= TAG_HEADER && |tag| == TagLength(tag) }

  predicate Incomplete(rest: Bytes) {
    |rest| >= TAG_HEADER ==> TagLength(rest) <= MAX_TAG_BYTES && |rest| < TagLength(rest)
  }

  /** Every tag is exactly as long as its header says, and what is left is no complete tag. */
  lemma {:induction false} ParseWhole(b: Bytes)
    ensures var p := Parse(b);
            (p.ok ==> Incomplete(p.rest)) && forall i :: 0 <= i < |p.tags| ==> Whole(p.tags[i])
  {
    hide Parse, TagLength;
    ParseFront(b);
    if |b| >= TAG_HEADER && TagLength(b) <= MAX_TAG_BYTES && |b| >= TagLength(b) {
      var n := TagLength(b);
      ParseWhole(b[n..]);
      assert b[..n][..TAG_HEADER] == b[..TAG_HEADER];
      LengthInHeader(b[..n], b);
    }
  }

  /** Parsing may stop anywhere and resume with what was left. */
  lemma {:induction false} ParseResumes(b: Bytes, more: Bytes)
    requires Parse(b).ok
    ensures var first := Parse(b); var second := Parse(first.rest + more);
            Parse(b + more) == Parsed(first.tags + second.tags, second.rest, second.ok)
  {
    hide TagLength;
    if |b| >= TAG_HEADER {
      assert (b + more)[..TAG_HEADER] == b[..TAG_HEADER];
      LengthInHeader(b + more, b);
    }
    if |b| < TAG_HEADER || |b| < TagLength(b) {
      assert [] + Parse(b + more).tags == Parse(b + more).tags;
    } else {
      var n := TagLength(b);
      ParseResumes(b[n..], more);
      assert (b + more)[..n] == b[..n] && (b + more)[n..] == b[n..] + more;
      var later := Parse(b[n..]);
      var second := Parse(later.rest + more);
      assert [b[..n]] + (later.tags + second.tags) == [b[..n]] + later.tags + second.tags;
    }
  }

  // ---------------------------------------------------------------------
  // One write of the muxer

  datatype State = State(pending: Bytes, header: bool)

  const CLOSED := State([], false)

  datatype Outcome = Taken | Interrupted | NoSpace | InvalidData | NetworkError

  /** State, the tags handed to the network, and what the muxer is told. */
  datatype Written = Written(state: State, tags: seq<Bytes>, outcome: Outcome)

  predicate Flv(b: Bytes) { |b| >= 3 && b[0] == 'F' as int && b[1] == 'L' as int && b[2] == 'V' as int }

  function Min(a: nat, b: nat): nat { if a <= b then a else b }

  /** accepts is how many tags the network still takes. */
  function Split(s: State, accepts: nat): Written {
    if !s.header && |s.pending| < HEADER_BYTES then Written(s, [], Taken)
    else if !s.header && !Flv(s.pending) then Written(s, [], InvalidData)
    else
      var parsed := Parse(if s.header then s.pending else s.pending[HEADER_BYTES..]);
      if |parsed.tags| > accepts then Written(State(s.pending, true), parsed.tags[..accepts], NetworkError)
      else if !parsed.ok then Written(State(s.pending, true), parsed.tags, InvalidData)
      else Written(State(parsed.rest, true), parsed.tags, Taken)
  }

  function Write(s: State, chunk: Bytes, accepts: nat): Written {
    if |chunk| > MAX_TAG_BYTES - Min(|s.pending|, MAX_TAG_BYTES) then Written(s, [], NoSpace)
    else Split(s.(pending := s.pending + chunk), accepts)
  }

  // ---------------------------------------------------------------------
  // Any chunking of one byte string

  datatype Call = Call(chunk: Bytes, accepts: nat)

  datatype Fed = Fed(state: State, tags: seq<Bytes>, taken: bool)

  function Feed(calls: seq<Call>): Fed {
    if calls == [] then Fed(CLOSED, [], true)
    else
      var before := Feed(calls[..|calls| - 1]);
      var w := Write(before.state, calls[|calls| - 1].chunk, calls[|calls| - 1].accepts);
      Fed(w.state, before.tags + w.tags, before.taken && w.outcome == Taken)
  }

  function Fedbytes(calls: seq<Call>): Bytes {
    if calls == [] then [] else Fedbytes(calls[..|calls| - 1]) + calls[|calls| - 1].chunk
  }

  /** What a byte string comes to, whatever its chunks. */
  predicate Stands(all: Bytes, f: Fed) {
    if |all| < HEADER_BYTES then f.state == State(all, false) && f.tags == []
    else
      var parsed := Parse(all[HEADER_BYTES..]);
      Flv(all) && parsed.ok && f.state == State(parsed.rest, true) && f.tags == parsed.tags
  }

  lemma WriteStands(all: Bytes, f: Fed, chunk: Bytes, accepts: nat)
    requires Stands(all, f) && Write(f.state, chunk, accepts).outcome == Taken
    ensures var w := Write(f.state, chunk, accepts); Stands(all + chunk, Fed(w.state, f.tags + w.tags, true))
  {
    hide Parse;
    if |all| >= HEADER_BYTES {
      ParseResumes(all[HEADER_BYTES..], chunk);
      assert (all + chunk)[HEADER_BYTES..] == all[HEADER_BYTES..] + chunk;
    } else {
      assert f.state.pending + chunk == all + chunk;
    }
  }

  lemma {:induction false} EveryFeedStands(calls: seq<Call>)
    requires Feed(calls).taken
    ensures Stands(Fedbytes(calls), Feed(calls))
  {
    hide Parse, Stands, Write;
    if calls == [] {
      NothingStands();
    } else {
      var before := calls[..|calls| - 1];
      EveryFeedStands(before);
      WriteStands(Fedbytes(before), Feed(before), calls[|calls| - 1].chunk, calls[|calls| - 1].accepts);
    }
  }

  lemma NothingStands()
    ensures Stands([], Fed(CLOSED, [], true))
  {
  }

  /** Two accepted chunkings of the same bytes write the same tags and keep the same bytes. */
  lemma ChunkingInvisible(a: seq<Call>, b: seq<Call>)
    requires Feed(a).taken && Feed(b).taken && Fedbytes(a) == Fedbytes(b)
    ensures Feed(a).tags == Feed(b).tags && Feed(a).state == Feed(b).state
  {
    hide Parse, Feed, Fedbytes;
    EveryFeedStands(a);
    EveryFeedStands(b);
  }

  /** Header, written tags and pending bytes are exactly the bytes fed; no complete tag stays pending. */
  lemma NothingLost(calls: seq<Call>)
    requires Feed(calls).taken
    ensures var f, all := Feed(calls), Fedbytes(calls);
            && (if f.state.header then |all| >= HEADER_BYTES && all[..HEADER_BYTES] + Concat(f.tags) + f.state.pending == all
                else f.tags == [] && f.state.pending == all)
            && (f.state.header ==> Incomplete(f.state.pending))
            && (forall i :: 0 <= i < |f.tags| ==> Whole(f.tags[i]))
  {
    hide Parse, Feed, Fedbytes;
    EveryFeedStands(calls);
    var f, all := Feed(calls), Fedbytes(calls);
    if f.state.header {
      ParseConcat(all[HEADER_BYTES..]);
      ParseWhole(all[HEADER_BYTES..]);
      assert all == all[..HEADER_BYTES] + all[HEADER_BYTES..];
      assert all[..HEADER_BYTES] + Concat(f.tags) + f.state.pending == all[..HEADER_BYTES] + (Concat(f.tags) + f.state.pending);
    }
  }

  // ---------------------------------------------------------------------
  // The object

  class Destination {
    var flvPending: Bytes
    var haveFlvHeader: bool
    /** Tags the network has taken, in order. */
    var network: seq<Bytes>

    function Abs(): State
      reads this
    {
      State(flvPending, haveFlvHeader)
    }

    constructor ()
      ensures Abs() == CLOSED && network == []
    {
      flvPending, haveFlvHeader, network := [], false, [];
    }

    /** Writes the complete tags of the pending bytes from a position on. */
    method WriteTags(start: nat, accepts: nat) returns (consumed: nat, outcome: Outcome)
      requires start <= |flvPending|
      modifies `network
      ensures start <= consumed <= |flvPending|
      ensures var p := Parse(flvPending[start..]);
              if |p.tags| > accepts then outcome == NetworkError && network == old(network) + p.tags[..accepts]
              else network == old(network) + p.tags && flvPending[consumed..] == p.rest &&
                   outcome == if p.ok then Taken else InvalidData
    {
      hide TagLength, Parse;
      ghost var whole := Parse(flvPending[start..]);
      var sent := 0;
      consumed := start;
      while |flvPending| - consumed >= TAG_HEADER
        invariant start <= consumed <= |flvPending| && sent <= accepts && sent <= |whole.tags|
        invariant network == old(network) + whole.tags[..sent]
        invariant Parse(flvPending[consumed..]) == Parsed(whole.tags[sent..], whole.rest, whole.ok)
        decreases |flvPending| - consumed
      {
        var tag := flvPending[consumed..];
        ParseFront(tag);
        var total := TagLength(tag);
        if total > MAX_TAG_BYTES {
          NoTagsLeft(whole.tags, sent);
          return consumed, InvalidData;
        }
        if |tag| < total {
          break;
        }
        OneTagLeft(whole.tags, sent, tag[..total], Parse(tag[total..]).tags);
        if sent >= accepts {
          return consumed, NetworkError;
        }
        network := network + [tag[..total]];
        assert flvPending[consumed + total..] == tag[total..];
        consumed := consumed + total;
        sent := sent + 1;
      }
      ParseFront(flvPending[consumed..]);
      NoTagsLeft(whole.tags, sent);
      outcome := Taken;
    }

    /** One callback of the muxer; interrupted covers a missing connection as well. */
    method WriteFlv(bytes: Bytes, interrupted: bool, accepts: nat) returns (outcome: Outcome)
      modifies this
      ensures interrupted ==> outcome == Interrupted && Abs() == old(Abs()) && network == old(network)
      ensures !interrupted ==>
                var w := Write(old(Abs()), bytes, accepts);
                outcome == w.outcome && Abs() == w.state && network == old(network) + w.tags
    {
      hide Parse;
      if interrupted {
        return Interrupted;
      }
      if |bytes| > MAX_TAG_BYTES - Min(|flvPending|, MAX_TAG_BYTES) {
        return NoSpace;
      }
      flvPending := flvPending + bytes;
      var consumed: nat := 0;
      if !haveFlvHeader {
        if |flvPending| < HEADER_BYTES {
          return Taken;
        }
        if !Flv(flvPending) {
          return InvalidData;
        }
        consumed := HEADER_BYTES;
        haveFlvHeader := true;
      }
      assert flvPending[0..] == flvPending;
      consumed, outcome := WriteTags(consumed, accepts);
      if outcome == Taken {
        flvPending := flvPending[consumed..];
      }
    }
  }

  lemma NoTagsLeft(tags: seq<Bytes>, sent: nat)
    requires sent <= |tags| && tags[sent..] == []
    ensures tags[..sent] == tags && |tags| == sent
  {
  }

  lemma OneTagLeft(tags: seq<Bytes>, sent: nat, tag: Bytes, later: seq<Bytes>)
    requires sent <= |tags| && tags[sent..] == [tag] + later
    ensures sent < |tags| && tags[..sent + 1] == tags[..sent] + [tag] && tags[sent + 1..] == later
  {
    assert tags[sent] == tags[sent..][0];
    assert tags[sent + 1..] == tags[sent..][1..];
  }
}
