/** What is encoded is cut. */
module FlvEncoding {
  // Tags are built here from their payloads alone: a type, the payload size in three bytes, seven more header bytes,
  // the payload, and the size of all that in four bytes.

  import opened Options
  import opened FlvSplitter

  datatype Media = Media(kind: byte, stamp: Bytes, payload: Bytes)

  function BigEndian(n: nat, digits: nat): (b: Bytes)
    ensures |b| == digits
  {
    if digits == 0 then [] else BigEndian(n / 256, digits - 1) + [n % 256]
  }

  function Encoded(m: Media): Bytes {
    [m.kind] + BigEndian(|m.payload|, 3) + m.stamp + m.payload + BigEndian(|m.payload| + 11, 4)
  }

  /** A tag that may be written: seven header bytes besides type and size, and 16 MiB at most. */
  predicate Writable(m: Media) { |m.stamp| == 7 && |m.payload| <= 16 * 1024 * 1024 - 15 }

  predicate AllWritable(media: seq<Media>) { forall i :: 0 <= i < |media| ==> Writable(media[i]) }

  function Tags(media: seq<Media>): (tags: seq<Bytes>)
    ensures |tags| == |media| && forall i :: 0 <= i < |media| ==> tags[i] == Encoded(media[i])
  {
    if media == [] then [] else [Encoded(media[0])] + Tags(media[1..])
  }

  function Stream(media: seq<Media>): Bytes {
    if media == [] then [] else Encoded(media[0]) + Stream(media[1..])
  }

  /** How many tags are complete within so many bytes. */
  function Complete(media: seq<Media>, n: nat): (k: nat)
    ensures k <= |media|
  {
    if media == [] || n < |Encoded(media[0])| then 0 else 1 + Complete(media[1..], n - |Encoded(media[0])|)
  }

  /** How many bytes lie behind the last complete tag. */
  function Left(media: seq<Media>, n: nat): (k: nat)
    ensures k <= n
  {
    if media == [] || n < |Encoded(media[0])| then n else Left(media[1..], n - |Encoded(media[0])|)
  }

  lemma EncodedLength(m: Media)
    requires |m.stamp| == 7
    ensures |Encoded(m)| == |m.payload| + 15
  {
  }

  lemma ThreeBytes(n: nat)
    requires n < 0x1000000
    ensures var b := BigEndian(n, 3); (b[0] as int) * 0x10000 + (b[1] as int) * 0x100 + b[2] == n
  {
    var b := BigEndian(n, 3);
    assert b[2] == n % 256;
    assert b[1] == BigEndian(n / 256, 2)[1] == n / 256 % 256;
    assert b[0] == BigEndian(n / 256, 2)[0] == BigEndian(n / 256 / 256, 1)[0] == n / 256 / 256 % 256;
  }

  lemma AnnouncesLength(m: Media, b: Bytes)
    requires |m.stamp| == 7 && |m.payload| < 0x1000000 && |b| >= TAG_HEADER && b[..TAG_HEADER] == Encoded(m)[..TAG_HEADER]
    ensures TagLength(b) == |m.payload| + 15
  {
    var size := BigEndian(|m.payload|, 3);
    ThreeBytes(|m.payload|);
    forall i | 0 <= i < 3 ensures b[i + 1] == size[i] {
      assert b[i + 1] == b[..TAG_HEADER][i + 1] == Encoded(m)[i + 1];
    }
  }

  lemma {:induction false} ParsesPrefix(media: seq<Media>, b: Bytes)
    requires AllWritable(media) && b <= Stream(media)
    ensures Parse(b) == Parsed(Tags(media)[..Complete(media, |b|)], b[|b| - Left(media, |b|)..], true)
  {
    hide Encoded, TagLength, Parse;
    ParseFront(b);
    if media != [] {
      var m := media[0];
      EncodedLength(m);
      if |b| >= TAG_HEADER {
        assert b[..TAG_HEADER] == Encoded(m)[..TAG_HEADER];
        AnnouncesLength(m, b);
      }
      if |b| >= |Encoded(m)| {
        var n := |Encoded(m)|;
        assert b[..n] == Encoded(m);
        assert b[n..] <= Stream(media[1..]);
        ParsesPrefix(media[1..], b[n..]);
        var k := Complete(media[1..], |b| - n);
        assert Tags(media)[..k + 1] == [Encoded(m)] + Tags(media[1..])[..k];
      }
    }
  }

  // ---------------------------------------------------------------------
  // Any chunking

  predicate Header(h: Bytes) { |h| == HEADER_BYTES && Flv(h) }

  /** The bytes still held after so many of a stream. */
  function Held(media: seq<Media>, fed: nat): nat {
    if fed < HEADER_BYTES then fed else Left(media, fed - HEADER_BYTES)
  }

  /** The network takes every tag, and no chunk is longer than the room left beside the bytes held. */
  predicate Roomy(calls: seq<Call>, media: seq<Media>) {
    forall i :: 0 <= i < |calls| ==>
      calls[i].accepts >= |media| && |calls[i].chunk| + Held(media, |Fedbytes(calls[..i])|) <= 16 * 1024 * 1024
  }

  /** Exactly the complete tags were written, and what lies behind them is held. */
  predicate Cut(h: Bytes, media: seq<Media>, fed: Bytes, f: Fed) {
    && f.taken && f.state.header == (|fed| >= HEADER_BYTES)
    && f.state.pending == fed[|fed| - Held(media, |fed|)..]
    && f.tags == if |fed| < HEADER_BYTES then [] else Tags(media)[..Complete(media, |fed| - HEADER_BYTES)]
  }

  lemma BehindHeader(h: Bytes, rest: Bytes, fed: Bytes)
    requires |h| == HEADER_BYTES && |fed| >= HEADER_BYTES && fed <= h + rest
    ensures fed[HEADER_BYTES..] <= rest && fed[..HEADER_BYTES] == h
  {
  }

  lemma LastBytes(fed: Bytes, k: nat)
    requires HEADER_BYTES + k <= |fed|
    ensures fed[HEADER_BYTES..][|fed| - HEADER_BYTES - k..] == fed[|fed| - k..]
  {
  }

  lemma StandsCut(h: Bytes, media: seq<Media>, fed: Bytes, f: Fed)
    requires Header(h) && AllWritable(media) && fed <= h + Stream(media) && f.taken && Stands(fed, f)
    ensures Cut(h, media, fed, f)
  {
    hide Parse, Encoded, Stream, Complete, Left, Tags, Flv, AllWritable;
    if |fed| >= HEADER_BYTES {
      BehindHeader(h, Stream(media), fed);
      ParsesPrefix(media, fed[HEADER_BYTES..]);
      LastBytes(fed, Left(media, |fed| - HEADER_BYTES));
    }
  }

  lemma HeaderFlv(h: Bytes, all: Bytes)
    requires |all| >= HEADER_BYTES && all[..HEADER_BYTES] == h
    ensures Flv(all) == Flv(h)
  {
    assert forall i :: 0 <= i < 3 ==> all[i] == h[i];
  }

  /** The next chunk of a stream is taken. */
  lemma ChunkTaken(h: Bytes, media: seq<Media>, fed: Bytes, f: Fed, chunk: Bytes, accepts: nat)
    requires Header(h) && AllWritable(media) && fed + chunk <= h + Stream(media) && fed <= h + Stream(media)
    requires f.taken && Stands(fed, f) && accepts >= |media| && |chunk| + Held(media, |fed|) <= 16 * 1024 * 1024
    ensures Write(f.state, chunk, accepts).outcome == Taken
  {
    hide Parse, Encoded, Stream, Complete, Left, Tags, Flv, AllWritable, Stands;
    StandsCut(h, media, fed, f);
    StandsState(fed, f);
    var all := fed + chunk;
    if |all| >= HEADER_BYTES {
      BehindHeader(h, Stream(media), all);
      HeaderFlv(h, all);
      ParsesPrefix(media, all[HEADER_BYTES..]);
    }
    if |fed| >= HEADER_BYTES {
      assert all[HEADER_BYTES..] == fed[HEADER_BYTES..] + chunk;
      ParseResumes(fed[HEADER_BYTES..], chunk);
      var first, second := Parse(fed[HEADER_BYTES..]), Parse(f.state.pending + chunk);
      assert Parse(all[HEADER_BYTES..]) == Parsed(first.tags + second.tags, second.rest, second.ok);
      assert second.ok;
      assert |first.tags + second.tags| == Complete(media, |all| - HEADER_BYTES) <= |media|;
      assert |second.tags| <= |media|;
      assert |f.state.pending| == Held(media, |fed|);
    }
  }

  lemma StandsState(fed: Bytes, f: Fed)
    requires Stands(fed, f)
    ensures |fed| < HEADER_BYTES ==> f.state == State(fed, false)
    ensures |fed| >= HEADER_BYTES ==>
              var p := Parse(fed[HEADER_BYTES..]); p.ok && f.state == State(p.rest, true) && f.tags == p.tags
  {
    hide Parse;
  }

  lemma PrefixOf(a: Bytes, b: Bytes, all: Bytes)
    requires a + b <= all
    ensures a <= all
  {
    assert a <= a + b;
  }

  lemma RoomyBefore(calls: seq<Call>, media: seq<Media>)
    requires calls != [] && Roomy(calls, media)
    ensures Roomy(calls[..|calls| - 1], media)
  {
    var before := calls[..|calls| - 1];
    forall i | 0 <= i < |before|
      ensures before[i].accepts >= |media| && |before[i].chunk| + Held(media, |Fedbytes(before[..i])|) <= 16 * 1024 * 1024
    {
      assert before[..i] == calls[..i] && before[i] == calls[i];
    }
  }

  lemma {:induction false} EveryChunkTaken(h: Bytes, media: seq<Media>, calls: seq<Call>)
    requires Header(h) && AllWritable(media) && Fedbytes(calls) <= h + Stream(media) && Roomy(calls, media)
    ensures Feed(calls).taken && Stands(Fedbytes(calls), Feed(calls))
  {
    hide Stands, Write, Roomy, Stream, Held, Encoded;
    if calls == [] {
      NothingStands();
    } else {
      var n := |calls| - 1;
      PrefixOf(Fedbytes(calls[..n]), calls[n].chunk, h + Stream(media));
      RoomyBefore(calls, media);
      EveryChunkTaken(h, media, calls[..n]);
      assert calls[n].accepts >= |media| && |calls[n].chunk| + Held(media, |Fedbytes(calls[..n])|) <= 16 * 1024 * 1024 by {
        LastRoomy(calls, media);
      }
      ChunkTaken(h, media, Fedbytes(calls[..n]), Feed(calls[..n]), calls[n].chunk, calls[n].accepts);
      WriteStands(Fedbytes(calls[..n]), Feed(calls[..n]), calls[n].chunk, calls[n].accepts);
    }
  }

  lemma LastRoomy(calls: seq<Call>, media: seq<Media>)
    requires calls != [] && Roomy(calls, media)
    ensures var n := |calls| - 1;
            calls[n].accepts >= |media| && |calls[n].chunk| + Held(media, |Fedbytes(calls[..n])|) <= 16 * 1024 * 1024
  {
  }

  /** Any chunks of a header and encoded tags that leave room are taken; the complete tags are written, in order and
      unchanged, and the bytes behind them are held. */
  lemma EveryStreamCut(h: Bytes, media: seq<Media>, calls: seq<Call>)
    requires Header(h) && AllWritable(media) && Fedbytes(calls) <= h + Stream(media) && Roomy(calls, media)
    ensures Cut(h, media, Fedbytes(calls), Feed(calls))
  {
    hide Stands, Roomy, Stream, Cut, Feed, Fedbytes;
    EveryChunkTaken(h, media, calls);
    StandsCut(h, media, Fedbytes(calls), Feed(calls));
  }

  lemma {:induction false} AllComplete(media: seq<Media>)
    ensures Complete(media, |Stream(media)|) == |media| && Left(media, |Stream(media)|) == 0
  {
    if media != [] {
      AllComplete(media[1..]);
    }
  }

  /** What was encoded is written back tag by tag, and nothing stays behind. */
  lemma RoundTrip(h: Bytes, media: seq<Media>, calls: seq<Call>)
    requires Header(h) && AllWritable(media) && Fedbytes(calls) == h + Stream(media) && Roomy(calls, media)
    ensures var f := Feed(calls); f.taken && f.tags == Tags(media) && f.state.pending == []
  {
    hide Roomy, Stream, Feed, Fedbytes, Tags;
    EveryStreamCut(h, media, calls);
    AllComplete(media);
  }

  // ---------------------------------------------------------------------
  // Tags that are too long

  lemma {:induction false} ParsesTooLong(media: seq<Media>, m: Media, b: Bytes)
    requires AllWritable(media) && |m.stamp| == 7 && 16 * 1024 * 1024 - 15 < |m.payload| < 0x1000000
    requires |b| >= TAG_HEADER && b <= Encoded(m)
    ensures !Parse(Stream(media) + b).ok
  {
    hide Encoded, TagLength, Parse;
    var all := Stream(media) + b;
    ParseFront(all);
    if media == [] {
      assert all == b && b[..TAG_HEADER] == Encoded(m)[..TAG_HEADER];
      AnnouncesLength(m, b);
    } else {
      var front := media[0];
      EncodedLength(front);
      var n := |Encoded(front)|;
      assert all == Encoded(front) + (Stream(media[1..]) + b);
      assert all[..TAG_HEADER] == Encoded(front)[..TAG_HEADER];
      AnnouncesLength(front, all);
      assert all[n..] == Stream(media[1..]) + b;
      ParsesTooLong(media[1..], m, b);
    }
  }

  /** Behind any tags, the header of one that would be too long is refused, in any chunking. */
  lemma TooLongRefused(h: Bytes, media: seq<Media>, m: Media, b: Bytes, calls: seq<Call>)
    requires |h| == HEADER_BYTES && AllWritable(media) && |m.stamp| == 7 && 16 * 1024 * 1024 - 15 < |m.payload| < 0x1000000
    requires |b| >= TAG_HEADER && b <= Encoded(m) && Fedbytes(calls) == h + (Stream(media) + b)
    ensures !Feed(calls).taken
  {
    hide Feed, Fedbytes, Parse, Stream, Encoded;
    ParsesTooLong(media, m, b);
    assert Fedbytes(calls)[HEADER_BYTES..] == Stream(media) + b;
    if Feed(calls).taken {
      EveryFeedStands(calls);
      assert false;
    }
  }

  /** What does not begin as FLV is refused, in any chunking. */
  lemma OtherRefused(calls: seq<Call>)
    requires |Fedbytes(calls)| >= HEADER_BYTES && Fedbytes(calls)[..3] != ['F' as byte, 'L' as byte, 'V' as byte]
    ensures !Feed(calls).taken
  {
    hide Feed, Fedbytes, Parse;
    var b := Fedbytes(calls);
    assert b[..3] == [b[0], b[1], b[2]];
    if Feed(calls).taken {
      EveryFeedStands(calls);
      assert false;
    }
  }
}
