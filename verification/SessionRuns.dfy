/** Runs of the incremental parser: what successive calls of unpack deliver, and why it
    does not depend on where the stream was cut. */
module SessionRuns {
  import opened Wire
  import opened Wrappers
  import opened SessionSpec

  // The parser between calls: the bytes it still holds for the next message (cached, or
  // already moved into the head and the body file), and whether it rejected a header.
  datatype State = State(pending: seq<Byte>, rejected: bool)

  datatype Fed = Fed(state: State, calls: seq<Message>)

  const INIT := State([], false)
  const EMPTY_MESSAGE := Message([], [])

  // One call of unpack. A parser that rejected a header first hands the listener an
  // empty message, then looks at the same header again.
  function Feed(st: State, data: seq<Byte>): Fed {
    if st.rejected && data == [] then
      Fed(State(st.pending, false), [EMPTY_MESSAGE])
    else
      var r := Parse(st.pending + data);
      Fed(State(r.rest, r.status == BadVersion), (if st.rejected then [EMPTY_MESSAGE] else []) + r.msgs)
  }

  function Run(st: State, chunks: seq<seq<Byte>>): Fed
    decreases |chunks|
  {
    if chunks == [] then Fed(st, [])
    else
      var first := Feed(st, chunks[0]);
      var later := Run(first.state, chunks[1..]);
      Fed(later.state, first.calls + later.calls)
  }

  function Flatten(chunks: seq<seq<Byte>>): (s: seq<Byte>)
  {
    if chunks == [] then [] else chunks[0] + Flatten(chunks[1..])
  }

  lemma FlattenCons(chunk: seq<Byte>, rest: seq<seq<Byte>>)
    ensures Flatten([chunk] + rest) == chunk + Flatten(rest)
  {
    assert ([chunk] + rest)[1..] == rest;
  }

  lemma {:induction false} FlattenConcat(a: seq<seq<Byte>>, b: seq<seq<Byte>>)
    ensures Flatten(a + b) == Flatten(a) + Flatten(b)
  {
    if a == [] {
      assert a + b == b;
    } else {
      hide Flatten;
      FlattenConcat(a[1..], b);
      assert a == [a[0]] + a[1..];
      ConcatAssociative([a[0]], a[1..], b);
      FlattenCons(a[0], a[1..]);
      FlattenCons(a[0], a[1..] + b);
      ConcatAssociative(a[0], Flatten(a[1..]), Flatten(b));
    }
  }

  // -------------------------------------------------------------------------
  // Chunking
  // -------------------------------------------------------------------------

  // A header that stops the parser stops it for every continuation of the stream.
  lemma {:induction false} StoppedExtend(s: seq<Byte>, more: seq<Byte>)
    requires Parse(s).status != Waiting
    ensures Parse(s + more) == Parse(s).(rest := Parse(s).rest + more)
    decreases |s|
  {
    var t := s[Hunt(s)..];
    HuntExtend(s, more);
    HuntAligned(s);
    ParseExtended(t, more);
    if HoldsFrame(t) {
      FrameExtend(t, more);
      StoppedExtend(t[FrameEnd(DecodeInfo(t))..], more);
    } else {
      DecodeExtend(t, more);
    }
  }

  // Between calls a parser that rejected nothing holds no complete message.
  ghost predicate Ready(st: State) {
    !st.rejected && Parse(st.pending) == Parsed([], st.pending, Waiting)
  }

  lemma FeedContinues(st: State, chunk: seq<Byte>, more: seq<Byte>)
    requires Ready(st)
    requires Parse(st.pending + chunk + more).status == Waiting
    ensures var a := Feed(st, chunk);
            && Ready(a.state)
            && Continues(Parse(st.pending + chunk + more), Parsed(a.calls, [], Waiting), Parse(a.state.pending + more))
  {
    var s := st.pending + chunk;
    if Parse(s).status != Waiting {
      StoppedExtend(s, more);
    }
    assert [] + Parse(s).msgs == Parse(s).msgs;
    ParseConcat(s, more);
    ParseRest(s);
  }

  lemma {:induction false} RunContinues(st: State, chunks: seq<seq<Byte>>)
    requires Ready(st)
    requires Parse(st.pending + Flatten(chunks)).status == Waiting
    ensures var whole := Parse(st.pending + Flatten(chunks));
            Run(st, chunks) == Fed(State(whole.rest, false), whole.msgs)
    decreases |chunks|
  {
    if chunks == [] {
      assert st.pending + Flatten(chunks) == st.pending;
    } else {
      var more := Flatten(chunks[1..]);
      assert st.pending + Flatten(chunks) == st.pending + chunks[0] + more;
      FeedContinues(st, chunks[0], more);
      RunContinues(Feed(st, chunks[0]).state, chunks[1..]);
    }
  }

  // However a stream is cut, the calls of unpack together deliver the messages of the
  // one-shot parse, in order, and end in the state of a single call.
  lemma ChunkingInvariance(chunks: seq<seq<Byte>>)
    requires Parse(Flatten(chunks)).status == Waiting
    ensures var whole := Parse(Flatten(chunks));
            && Run(INIT, chunks) == Fed(State(whole.rest, false), whole.msgs)
            && Run(INIT, chunks) == Feed(INIT, Flatten(chunks))
  {
    hide Parse, Run, Flatten;
    var s := Flatten(chunks);
    assert [] + s == s;
    EmptyStream();
    RunContinues(INIT, chunks);
    assert [] + Parse(s).msgs == Parse(s).msgs;
  }

  lemma EmptyStream()
    ensures Parse([]) == Parsed([], [], Waiting)
  {
    HuntAtMagic([]);
  }

  // -------------------------------------------------------------------------
  // Rejected headers
  // -------------------------------------------------------------------------

  // After a rejected header no frame is delivered any more: each further chunk yields
  // one empty message and the rejection again.
  lemma {:induction false} RejectionIsForever(st: State, chunks: seq<seq<Byte>>)
    requires st.rejected && Parse(st.pending) == Parsed([], st.pending, BadVersion)
    requires forall i :: 0 <= i < |chunks| ==> chunks[i] != []
    ensures var r := Run(st, chunks);
            && r.state == State(st.pending + Flatten(chunks), true)
            && r.calls == seq(|chunks|, i => EMPTY_MESSAGE)
    decreases |chunks|
  {
    hide Parse, Feed;
    if chunks == [] {
      assert st.pending + Flatten(chunks) == st.pending;
    } else {
      var next := State(st.pending + chunks[0], true);
      FeedRejected(st, chunks[0]);
      RejectionIsForever(next, chunks[1..]);
      assert st.pending + Flatten(chunks) == next.pending + Flatten(chunks[1..]);
    }
  }

  lemma FeedRejected(st: State, data: seq<Byte>)
    requires st.rejected && Parse(st.pending) == Parsed([], st.pending, BadVersion) && data != []
    ensures Feed(st, data) == Fed(State(st.pending + data, true), [EMPTY_MESSAGE])
    ensures Parse(st.pending + data) == Parsed([], st.pending + data, BadVersion)
  {
    RejectExtend(st.pending, data);
    assert [EMPTY_MESSAGE] + [] == [EMPTY_MESSAGE];
  }

  // Chunking is invisible exactly for the streams with no rejected header.
  lemma ChunkingInvarianceExactly(s: seq<Byte>)
    requires Parse(s).status != NegativeSize
    ensures (forall chunks :: Flatten(chunks) == s ==> Run(INIT, chunks).calls == Parse(s).msgs)
            <==> Parse(s).status == Waiting
  {
    if Parse(s).status == Waiting {
      forall chunks | Flatten(chunks) == s
        ensures Run(INIT, chunks).calls == Parse(s).msgs
      {
        ChunkingInvariance(chunks);
      }
    } else {
      CutAfterRejection(s);
    }
  }

  // A concrete cut of a rejected stream that delivers one message too many.
  lemma CutAfterRejection(s: seq<Byte>)
    requires Parse(s).status == BadVersion
    ensures Flatten([s, []]) == s && Run(INIT, [s, []]).calls == Parse(s).msgs + [EMPTY_MESSAGE]
  {
    var chunks: seq<seq<Byte>> := [s, []];
    assert chunks[1..] == [[]];
    var one: seq<seq<Byte>> := [[]];
    assert one[1..] == [];
    assert Flatten(one) == [] + Flatten(one[1..]);
    assert Flatten(chunks) == s;
    assert [] + s == s;
    var st := Feed(INIT, s).state;
    assert Feed(st, []).calls == [EMPTY_MESSAGE];
    assert Run(st, one) == Fed(Feed(st, []).state, [EMPTY_MESSAGE] + []);
    assert [EMPTY_MESSAGE] + [] == [EMPTY_MESSAGE];
    assert Run(INIT, chunks).calls == Feed(INIT, s).calls + Run(st, one).calls;
    assert [] + Parse(s).msgs == Parse(s).msgs;
  }

  lemma {:induction false} RunSnoc(st: State, chunks: seq<seq<Byte>>, last: seq<Byte>)
    ensures var r := Run(st, chunks);
            var f := Feed(r.state, last);
            Run(st, chunks + [last]) == Fed(f.state, r.calls + f.calls)
    decreases |chunks|
  {
    hide Feed;
    if chunks == [] {
      var none: seq<seq<Byte>> := [];
      assert chunks + [last] == [last] && [last][1..] == none;
      var f := Feed(st, last);
      assert Run(st, [last]) == Fed(Run(f.state, none).state, f.calls + Run(f.state, none).calls);
      assert f.calls + [] == [] + f.calls;
    } else {
      var first := Feed(st, chunks[0]);
      assert (chunks + [last])[1..] == chunks[1..] + [last];
      RunSnoc(first.state, chunks[1..], last);
      var r := Run(first.state, chunks[1..]);
      ConcatAssociative(first.calls, r.calls, Feed(r.state, last).calls);
    }
  }

  lemma NothingRun()
    ensures Run(INIT, []) == Fed(INIT, []) && Flatten([]) == []
  {
  }

  lemma FlattenSnoc(chunks: seq<seq<Byte>>, last: seq<Byte>)
    ensures Flatten(chunks + [last]) == Flatten(chunks) + last
  {
    var none: seq<seq<Byte>> := [];
    FlattenConcat(chunks, [last]);
    FlattenCons(last, none);
    assert [last] + none == [last] && Flatten(none) == [];
    assert last + [] == last;
  }

  ghost predicate NonEmpty(chunks: seq<seq<Byte>>) {
    forall i :: 0 <= i < |chunks| ==> chunks[i] != []
  }

  // A rejected header that ends the stream is completed by the last byte only.
  lemma RejectedAtTheEnd(s: seq<Byte>, last: seq<Byte>)
    requires last != [] && Parse(s + last).status == BadVersion && |Parse(s + last).rest| == INFO_SIZE
    ensures Parse(s).status == Waiting
  {
    if Parse(s).status != Waiting {
      StoppedExtend(s, last);
      ParseRest(s);
    }
  }

  // A rejected header with bytes behind it was there one byte earlier.
  lemma RejectedBefore(s: seq<Byte>, b: Byte)
    requires Parse(s + [b]).status == BadVersion && |Parse(s + [b]).rest| > INFO_SIZE
    ensures Parse(s).status == BadVersion
  {
    if Parse(s).status == Waiting {
      var r := Parse(s).rest;
      ParseConcat(s, [b]);
      ParseRest(s);
      assert Parse(r + [b]).status == BadVersion && Parse(r + [b]).rest == Parse(s + [b]).rest;
      RejectedByOneByte(r, b);
    } else {
      StoppedExtend(s, [b]);
    }
  }

  lemma {:induction false} RestBound(s: seq<Byte>)
    ensures |Parse(s).rest| <= |s|
    decreases |s|
  {
    var t := s[Hunt(s)..];
    if HoldsFrame(t) {
      RestBound(t[FrameEnd(DecodeInfo(t))..]);
    }
  }

  lemma OneByteMore(r: seq<Byte>, b: Byte)
    requires Parse(r) == Parsed([], r, Waiting) && |r| >= INFO_SIZE && MagicAt(r, 0)
    ensures Parse(r + [b]).status == Waiting
  {
    hide Parse, Hunt, MagicAt, DecodeInfo, FirstMessage;
    HuntAtMagic(r);
    ParseExtended(r, [b]);
    DecodeExtend(r, [b]);
    EmptyStream();
    var end := FrameEnd(DecodeInfo(r));
    if |r| + 1 == end {
      assert (r + [b])[end..] == [];
    }
  }

  lemma RejectedByOneByte(r: seq<Byte>, b: Byte)
    requires Parse(r) == Parsed([], r, Waiting) && (|r| < INFO_SIZE || MagicAt(r, 0))
    requires Parse(r + [b]).status == BadVersion
    ensures |Parse(r + [b]).rest| <= INFO_SIZE
  {
    if |r| >= INFO_SIZE {
      OneByteMore(r, b);
    }
    RestBound(r + [b]);
  }

  lemma FirstCall(t: seq<Byte>)
    ensures Feed(INIT, t) == Fed(State(Parse(t).rest, Parse(t).status == BadVersion), Parse(t).msgs)
  {
    assert [] + t == t && [] + Parse(t).msgs == Parse(t).msgs;
  }

  // The last byte of a rejected stream in a chunk of its own: one message too many.
  lemma CutOffLastByte(s: seq<Byte>)
    requires Parse(s).status == BadVersion && |Parse(s).rest| > INFO_SIZE
    ensures |s| > 1
    ensures var chunks := [s[..|s| - 1], s[|s| - 1..]];
            NonEmpty(chunks) && Flatten(chunks) == s && Run(INIT, chunks).calls == Parse(s).msgs + [EMPTY_MESSAGE]
  {
    hide Parse, Run, Flatten, Feed;
    RestBound(s);
    var t, b := s[..|s| - 1], s[|s| - 1];
    assert s == t + [b] && s[|s| - 1..] == [b];
    RejectedBefore(t, b);
    StoppedExtend(t, [b]);
    ParseRest(t);
    var none: seq<seq<Byte>> := [];
    RunSnoc(INIT, none, t);
    RunSnoc(INIT, [t], [b]);
    FlattenSnoc(none, t);
    FlattenSnoc([t], [b]);
    assert none + [t] == [t] && [t] + [[b]] == [t, [b]];
    NothingRun();
    FirstCall(t);
    FeedRejected(Feed(INIT, t).state, [b]);
    assert [] + Parse(t).msgs == Parse(t).msgs;
  }

  // Over chunks that are not empty, every cut delivers the messages of the stream if and
  // only if no header is rejected or the rejected one ends the stream.
  lemma NonEmptyChunksExactly(s: seq<Byte>)
    requires Parse(s).status != NegativeSize
    ensures (forall chunks :: NonEmpty(chunks) && Flatten(chunks) == s ==> Run(INIT, chunks).calls == Parse(s).msgs)
            <==> Parse(s).status == Waiting || |Parse(s).rest| == INFO_SIZE
  {
    hide Parse, Run, Flatten, Feed;
    if Parse(s).status == Waiting || |Parse(s).rest| == INFO_SIZE {
      forall chunks | NonEmpty(chunks) && Flatten(chunks) == s
        ensures Run(INIT, chunks).calls == Parse(s).msgs
      {
        if Parse(s).status == Waiting {
          ChunkingInvariance(chunks);
        } else {
          RejectedByTheLastChunk(chunks);
        }
      }
    } else {
      RejectedRest(s);
      CutOffLastByte(s);
    }
  }

  lemma RejectedRest(s: seq<Byte>)
    requires Parse(s).status == BadVersion
    ensures |Parse(s).rest| >= INFO_SIZE
  {
    ParseRest(s);
  }

  lemma RejectedByTheLastChunk(chunks: seq<seq<Byte>>)
    requires NonEmpty(chunks) && Parse(Flatten(chunks)).status == BadVersion
             && |Parse(Flatten(chunks)).rest| == INFO_SIZE
    ensures Run(INIT, chunks).calls == Parse(Flatten(chunks)).msgs
  {
    hide Parse, Run, Flatten;
    EmptyStream();
    NothingRun();
    assert chunks != [];
    var init, last := chunks[..|chunks| - 1], chunks[|chunks| - 1];
    assert chunks == init + [last];
    FlattenSnoc(init, last);
    var s := Flatten(init);
    RejectedAtTheEnd(s, last);
    ChunkingInvariance(init);
    RunSnoc(INIT, init, last);
    ParseConcat(s, last);
    var more := Parse(Parse(s).rest + last).msgs;
    assert [] + more == more;
  }

  // -------------------------------------------------------------------------
  // Garbage
  // -------------------------------------------------------------------------

  ghost predicate NoMagic(s: seq<Byte>) {
    forall q: nat :: !MagicAt(s, q)
  }

  // The magic number has no proper border: overlapping it at a distance of 1 to 7
  // always disagrees somewhere.
  lemma MagicHasNoBorder(k: nat)
    requires 0 < k < 8
    ensures MAGIC[k..] != MAGIC[..8 - k]
  {
    assert MAGIC[k..][7 - k] == MAGIC[7];
    assert MAGIC[..8 - k][7 - k] == MAGIC[7 - k];
    assert MAGIC[7 - k] != 0x5A by {
      assert MAGIC[0] != 0x5A && MAGIC[1] != 0x5A && MAGIC[2] != 0x5A && MAGIC[3] != 0x5A;
      assert MAGIC[4] != 0x5A && MAGIC[5] != 0x5A && MAGIC[6] != 0x5A;
    }
  }

  // So garbage cannot form a magic number together with the header it precedes.
  lemma GarbageDoesNotMask(noise: seq<Byte>, t: seq<Byte>, q: nat)
    requires NoMagic(noise) && MagicAt(t, 0) && q < |noise|
    ensures !MagicAt(noise + t, q)
  {
    var s := noise + t;
    if q + 8 <= |noise| {
      MagicAtExtend(noise, t, q);
    } else if MagicAt(s, q) {
      var k := |noise| - q;
      assert s[q..q + 8][k..] == s[|noise|..q + 8];
      assert s[|noise|..q + 8] == t[..8 - k];
      assert t[0..8][..8 - k] == t[..8 - k];
      MagicHasNoBorder(k);
    }
  }

  ghost predicate Sendable(m: Message) {
    |m.head| < TWO_31 && |m.body| < TWO_63
  }

  lemma Middle(a: seq<Byte>, b: seq<Byte>, c: seq<Byte>, s: seq<Byte>)
    requires s == a + b + c
    ensures s[|a|..|a| + |b|] == b
  {
  }

  lemma VersionBytes()
    ensures BigEndian(VERSION_01_00_00, 4) == [0x00, 0x00, 0x27, 0x10]
  {
    assert BigEndian(0, 1) == [0];
    assert BigEndian(0, 2) == [0, 0];
    assert BigEndian(0x27, 3) == [0, 0, 0x27];
  }

  lemma PartsOf(magic: seq<Byte>, version: seq<Byte>, head: seq<Byte>, body: seq<Byte>, rest: seq<Byte>)
    requires |magic| == 8 && |version| == |head| == 4 && |body| == 8
    ensures var s := magic + version + head + body + rest;
            && s[..12] == magic + version && s[12..16] == head && s[16..24] == body && s[24..] == rest
  {
  }

  // Every frame begins with the magic number and version 10000, then the two sizes.
  lemma FrameHeader(m: Message)
    ensures |Frame(m)| == 24 + |m.head| + |m.body|
    ensures Frame(m)[..12] == [0x00, 0x00, 0xA5, 0x20, 0x20, 0x08, 0x27, 0x5A, 0x00, 0x00, 0x27, 0x10]
    ensures Frame(m)[12..16] == BigEndian(|m.head|, 4) && Frame(m)[16..24] == BigEndian(|m.body|, 8)
    ensures Frame(m)[24..] == m.head + m.body
  {
    hide BigEndian;
    VersionBytes();
    var version, head, body := BigEndian(VERSION_01_00_00, 4), BigEndian(|m.head|, 4), BigEndian(|m.body|, 8);
    PartsOf(MAGIC, version, head, body, m.head + m.body);
    ConcatAssociative(MAGIC + version + head + body, m.head, m.body);
  }

  // A header of any other version is rejected, and stays.
  lemma OtherVersionRejected(s: seq<Byte>)
    requires |s| >= 24 && s[..8] == [0x00, 0x00, 0xA5, 0x20, 0x20, 0x08, 0x27, 0x5A]
    requires s[8..12] != [0x00, 0x00, 0x27, 0x10]
    ensures Parse(s) == Parsed([], s, BadVersion)
    ensures Run(INIT, [s]) == Fed(State(s, true), [])
  {
    assert s[0..8] == s[..8];
    HuntAtMagic(s);
    VersionBytes();
    FromBigEndianRoundTrip(s[8..12]);
    FirstCall(s);
    NothingRun();
    var none: seq<seq<Byte>> := [];
    RunSnoc(INIT, none, s);
    assert none + [s] == [s];
    assert [] + Feed(INIT, s).calls == Feed(INIT, s).calls;
  }

  lemma EncodeDecode(info: Info, rest: seq<Byte>)
    requires info.version < TWO_32 && info.headSize < TWO_32 && info.bodySize < TWO_64
    ensures DecodeInfo(EncodeInfo(info) + rest) == info && MagicAt(EncodeInfo(info) + rest, 0)
  {
    var s := EncodeInfo(info) + rest;
    Pow256Values();
    BigEndianRoundTrip(info.version, 4);
    BigEndianRoundTrip(info.headSize, 4);
    BigEndianRoundTrip(info.bodySize, 8);
    var v, h, b := BigEndian(info.version, 4), BigEndian(info.headSize, 4), BigEndian(info.bodySize, 8);
    assert s[0..8] == MAGIC;
    assert s[8..12] == v by { Middle(MAGIC, v, h + b + rest, s); }
    assert s[12..16] == h by { Middle(MAGIC + v, h, b + rest, s); }
    assert s[16..24] == b by { Middle(MAGIC + v + h, b, rest, s); }
  }

  lemma DecodeEncode(s: seq<Byte>)
    requires |s| >= INFO_SIZE && MagicAt(s, 0)
    ensures EncodeInfo(DecodeInfo(s)) == s[..INFO_SIZE]
  {
    FromBigEndianRoundTrip(s[8..12]);
    FromBigEndianRoundTrip(s[12..16]);
    FromBigEndianRoundTrip(s[16..24]);
    assert s[..INFO_SIZE] == s[0..8] + s[8..12] + s[12..16] + s[16..24];
  }

  lemma ParseFrame(m: Message, more: seq<Byte>)
    requires Sendable(m)
    ensures MagicAt(Frame(m) + more, 0)
    ensures Parse(Frame(m) + more) == Prepend(m, Parse(more))
  {
    var info := Info(VERSION_01_00_00, |m.head|, |m.body|);
    var t := Frame(m) + more;
    assert t == EncodeInfo(info) + (m.head + m.body + more);
    EncodeDecode(info, m.head + m.body + more);
    HuntAtMagic(t);
    assert t[FrameEnd(info)..] == more;
    assert t[INFO_SIZE..INFO_SIZE + |m.head|] == m.head;
    assert t[INFO_SIZE + |m.head|..FrameEnd(info)] == m.body;
  }

  // Garbage in front of a frame changes nothing.
  lemma ParseNoisyFrame(noise: seq<Byte>, m: Message, more: seq<Byte>)
    requires NoMagic(noise) && Sendable(m)
    ensures Parse(noise + Frame(m) + more) == Prepend(m, Parse(more))
  {
    var t := Frame(m) + more;
    ParseFrame(m, more);
    var s := noise + t;
    forall q | 0 <= q < |noise|
      ensures !MagicAt(s, q)
    {
      GarbageDoesNotMask(noise, t, q);
    }
    DropGarbage(s, |noise|);
    assert s[|noise|..] == t;
    assert noise + Frame(m) + more == s;
  }

  datatype Item = Item(noise: seq<Byte>, msg: Message)

  ghost predicate ItemsOk(items: seq<Item>) {
    forall i :: 0 <= i < |items| ==> NoMagic(items[i].noise) && Sendable(items[i].msg)
  }

  // Frames with garbage before, between and after them.
  function NoisyStream(items: seq<Item>, tail: seq<Byte>): seq<Byte> {
    if items == [] then tail
    else items[0].noise + Frame(items[0].msg) + NoisyStream(items[1..], tail)
  }

  function Messages(items: seq<Item>): (msgs: seq<Message>)
    ensures |msgs| == |items|
    ensures forall i :: 0 <= i < |items| ==> msgs[i] == items[i].msg
  {
    if items == [] then [] else [items[0].msg] + Messages(items[1..])
  }

  // What is kept of garbage: all of it while under 24 bytes, else its last 23 bytes.
  ghost predicate KeptOf(kept: seq<Byte>, garbage: seq<Byte>) {
    if |garbage| < INFO_SIZE then kept == garbage
    else kept == garbage[|garbage| - (INFO_SIZE - 1)..]
  }

  lemma {:induction false} ParseNoisyStream(items: seq<Item>, tail: seq<Byte>)
    requires ItemsOk(items) && NoMagic(tail)
    ensures var r := Parse(NoisyStream(items, tail));
            && r.msgs == Messages(items) && r.status == Waiting
            && KeptOf(r.rest, tail)
    decreases |items|
  {
    if items == [] {
      assert !MagicAt(tail, Hunt(tail));
    } else {
      ParseNoisyStream(items[1..], tail);
      ParseNoisyFrame(items[0].noise, items[0].msg, NoisyStream(items[1..], tail));
    }
  }

  // Resynchronisation: for every cut of a stream of frames with garbage anywhere between
  // them, exactly the frames' messages are delivered, in order, and only the last
  // undecided bytes of the trailing garbage are kept.
  lemma ResynchronisationLosesNothing(items: seq<Item>, tail: seq<Byte>, chunks: seq<seq<Byte>>)
    requires ItemsOk(items) && NoMagic(tail)
    requires Flatten(chunks) == NoisyStream(items, tail)
    ensures Run(INIT, chunks).calls == Messages(items)
    ensures var kept := Run(INIT, chunks).state.pending;
            && !Run(INIT, chunks).state.rejected
            && KeptOf(kept, tail)
  {
    ParseNoisyStream(items, tail);
    ChunkingInvariance(chunks);
  }
}
