/** The incremental parser: protocol and cache are updated call by call. Proved to mean
    what SessionRuns.Feed says, size_t and int conversions included. */
module SessionParsing {
  import opened Wrappers
  import opened Wire
  import opened SessionSpec
  import opened SessionRuns

  const DATA_NOT_ENOUGH: int := -138
  const UNSUPPORTED_VERSION: int := -139
  const SOURCE_LINE_SECTION: int := -1000000

  // CHECK_ERROR returns its code through this: only codes below the section, which carry
  // a line already, are changed.
  function AppendSourceLine(err: int, line: nat): int {
    if err < SOURCE_LINE_SECTION then err + line * SOURCE_LINE_SECTION else err
  }

  // size_t arithmetic, and the conversion of a size_t to int.
  function SizeT(x: int): nat {
    x % TWO_64
  }

  function ToInt(x: nat): int {
    var low := x % TWO_32;
    if low < TWO_31 then low else low - TWO_32
  }

  lemma SmallSizeToInt(x: int)
    requires -TWO_31 <= x < TWO_31
    ensures ToInt(SizeT(x)) == x
  {
    if x < 0 {
      assert SizeT(x) == x + TWO_64;
      assert SizeT(x) == (TWO_32 - 1) * TWO_32 + (x + TWO_32);
      assert SizeT(x) % TWO_32 == x + TWO_32;
    }
  }

  lemma SizeTSubtract(a: int, b: int)
    ensures SizeT(a - SizeT(b)) == SizeT(a - b)
  {
    var k := b / TWO_64;
    assert a - SizeT(b) == (a - b) + k * TWO_64;
    SizeTPeriod(a - b, k);
  }

  lemma SizeTPeriod(x: int, k: int)
    ensures SizeT(x + k * TWO_64) == SizeT(x)
  {
    var q := x / TWO_64;
    assert x + k * TWO_64 == (q + k) * TWO_64 + SizeT(x);
  }

  lemma MagicBytes()
    ensures BigEndian(MAGIC_NUMBER, 8) == MAGIC
  {
    assert BigEndian(0, 1) == [0];
    assert BigEndian(0, 2) == [0, 0];
    assert BigEndian(0xA5, 3) == [0, 0, 0xA5];
    assert BigEndian(0xA520, 4) == [0, 0, 0xA5, 0x20];
    assert BigEndian(0xA52020, 5) == [0, 0, 0xA5, 0x20, 0x20];
    assert BigEndian(0xA5202008, 6) == [0, 0, 0xA5, 0x20, 0x20, 0x08];
    assert BigEndian(0xA520200827, 7) == [0, 0, 0xA5, 0x20, 0x20, 0x08, 0x27];
  }

  // Comparing the word in memory with the swapped constant compares the bytes.
  lemma MagicWord(s: seq<Byte>)
    requires |s| == 8
    ensures FromLittleEndian(s) == Htonll(MAGIC_NUMBER) <==> s == MAGIC
  {
    MagicBytes();
    HtonllIsNetworkOrder(MAGIC_NUMBER);
    Pow256Values();
    LittleEndianRoundTrip(Htonll(MAGIC_NUMBER), 8);
    FromLittleEndianRoundTrip(s);
  }

  datatype Protocol = Protocol(info: Info, headData: seq<Byte>, bodyData: seq<Byte>)
  {
    predicate HeadComplete() {
      info.headSize == |headData|
    }

    predicate Rejected() {
      info.version != VERSION_01_00_00
    }
  }

  // How far a byte sequence takes a parser that has no complete head yet.
  datatype HeaderStep =
    | NoHeader(cache: seq<Byte>)
    | Refused(version: nat, cache: seq<Byte>)
    | NoHead(info: Info, cache: seq<Byte>)
    | Opened(header: seq<Byte>, head: seq<Byte>, rest: seq<Byte>)

  function Header(s: seq<Byte>): HeaderStep {
    HeaderAligned(s[Hunt(s)..])
  }

  function HeaderAligned(t: seq<Byte>): HeaderStep {
    if |t| < INFO_SIZE then NoHeader(t)
    else
      var info := DecodeInfo(t);
      var bodyAt := INFO_SIZE + info.headSize;
      if info.version != VERSION_01_00_00 then Refused(info.version, t)
      else if |t| < bodyAt then NoHead(info, t)
      else Opened(t[..INFO_SIZE], t[INFO_SIZE..bodyAt], t[bodyAt..])
  }

  // The previous cache size less the garbage removed, as a size_t: it may wrap.
  function RecomputedPrevSize(prevSize: int, garbage: nat): int {
    if garbage > 0 then SizeT(prevSize - garbage) else prevSize
  }

  // The wrapped difference still yields the right body offset.
  lemma BodyOffset(prevSize: nat, garbage: nat, headSize: nat)
    requires 0 <= garbage + INFO_SIZE + headSize - prevSize < TWO_31
    ensures ToInt(SizeT(INFO_SIZE + headSize - RecomputedPrevSize(prevSize, garbage)))
            == garbage + INFO_SIZE + headSize - prevSize
  {
    SizeTSubtract(INFO_SIZE + headSize, prevSize - garbage);
    SmallSizeToInt(garbage + INFO_SIZE + headSize - prevSize);
  }

  // Seen from the chunk, the body starts where header and head end, less what was cached.
  lemma BodyStart(cache: seq<Byte>, data: seq<Byte>, offset: nat, end: nat)
    requires offset <= |data| && |cache| <= end <= |cache| + |data| - offset
    ensures (cache + data[offset..])[end..] == data[offset + end - |cache|..]
  {
  }

  lemma OpenedInChunk(cache: seq<Byte>, data: seq<Byte>, offset: nat)
    requires offset <= |data| && |data| - offset < TWO_31
    requires Header(cache + data[offset..]).Opened?
    requires var s := cache + data[offset..];
             |cache| < Hunt(s) + INFO_SIZE + |Header(s).head|
    ensures var s := cache + data[offset..];
            var h := Header(s);
            var ret := ToInt(SizeT(INFO_SIZE + |h.head| - RecomputedPrevSize(|cache|, Hunt(s))));
            1 <= ret <= |data| - offset && data[offset + ret..] == h.rest
  {
    var s := cache + data[offset..];
    var h := Header(s);
    var end := Hunt(s) + INFO_SIZE + |h.head|;
    assert h.rest == s[end..];
    BodyStart(cache, data, offset, end);
    BodyOffset(|cache|, Hunt(s), |h.head|);
  }

  lemma OpenedInfo(s: seq<Byte>)
    requires Header(s).Opened?
    ensures var t := s[Hunt(s)..];
            |t| >= INFO_SIZE && |Header(s).header| == INFO_SIZE && DecodeInfo(Header(s).header) == DecodeInfo(t)
  {
    var t := s[Hunt(s)..];
    assert t == t[..INFO_SIZE] + t[INFO_SIZE..];
    DecodeExtend(t[..INFO_SIZE], t[INFO_SIZE..]);
  }

  // A cache that starts with a rejected header is rejected again.
  lemma RefusedAgain(cache: seq<Byte>, more: seq<Byte>)
    requires Parse(cache) == Parsed([], cache, BadVersion)
    ensures Header(cache + more).Refused? && Header(cache + more).cache == cache + more
  {
    RejectExtend(cache, more);
    var s := cache + more;
    ParseRest(s);
    HuntAtMagic(s);
    assert s[0..] == s;
  }

  // So a header found while hunting ends in the new chunk.
  lemma OpensBeyondCache(cache: seq<Byte>, more: seq<Byte>)
    requires |cache| < INFO_SIZE || Parse(cache) == Parsed([], cache, BadVersion)
    requires var h := Header(cache + more); h.NoHead? || h.Opened?
    ensures |cache| < INFO_SIZE
  {
    if |cache| >= INFO_SIZE {
      RefusedAgain(cache, more);
    }
  }

  // A cached header stays where it is when more data arrives.
  lemma PendingHeader(cache: seq<Byte>, more: seq<Byte>, info: Info)
    requires |cache| >= INFO_SIZE && MagicAt(cache, 0) && DecodeInfo(cache) == info
    ensures var s := cache + more; Hunt(s) == 0 && s[0..] == s && DecodeInfo(s) == info
  {
    MagicAtExtend(cache, more, 0);
    HuntAtMagic(cache + more);
    DecodeExtend(cache, more);
  }

  // What each outcome of the header step says about the stream.
  lemma HeaderStops(s: seq<Byte>)
    requires Parse(s).status != NegativeSize && !Header(s).Opened?
    ensures var h := Header(s);
            Parse(s) == Parsed([], h.cache, if h.Refused? then BadVersion else Waiting)
    ensures Parse(Header(s).cache) == Parse(s)
    ensures Header(s).NoHeader? ==> |Header(s).cache| < INFO_SIZE
    ensures Header(s).Refused? ==> Header(s).version != VERSION_01_00_00
    ensures Header(s).NoHead? ==>
              var info := Header(s).info; var cache := Header(s).cache;
              && info.Supported() && INFO_SIZE <= |cache| < INFO_SIZE + info.headSize
              && MagicAt(cache, 0) && DecodeInfo(cache) == info
  {
    var t := s[Hunt(s)..];
    HuntAligned(s);
    HuntAtMagic(t);
    AlignedStops(t);
  }

  lemma AlignedStops(t: seq<Byte>)
    requires ParseAligned(t).status != NegativeSize && !HeaderAligned(t).Opened?
    ensures var h := HeaderAligned(t);
            && h.cache == t
            && ParseAligned(t) == Parsed([], t, if h.Refused? then BadVersion else Waiting)
            && (h.NoHeader? ==> |t| < INFO_SIZE)
            && (h.Refused? ==> h.version != VERSION_01_00_00)
            && (h.NoHead? ==> h.info.Supported() && DecodeInfo(t) == h.info)
            && (h.NoHead? ==> INFO_SIZE <= |t| < INFO_SIZE + h.info.headSize)
  {
  }

  lemma AlignedOpens(t: seq<Byte>)
    requires ParseAligned(t).status != NegativeSize && HeaderAligned(t).Opened?
    ensures var h := HeaderAligned(t);
            && |h.header| == INFO_SIZE <= |t| && DecodeInfo(t).Supported() && |h.head| == DecodeInfo(t).headSize
            && t == h.header + h.head + h.rest && t == h.header + t[INFO_SIZE..]
  {
    hide Parse, DecodeInfo;
  }

  lemma ParseHunted(s: seq<Byte>)
    ensures Parse(s) == ParseAligned(s[Hunt(s)..])
  {
    hide ParseAligned, Hunt;
  }

  lemma HeaderOpens(s: seq<Byte>)
    requires Parse(s).status != NegativeSize && Header(s).Opened?
    ensures var h := Header(s);
            && |h.header| == INFO_SIZE && MagicAt(h.header, 0) && DecodeInfo(h.header).Supported()
            && |h.head| == DecodeInfo(h.header).headSize
            && Parse(s) == Parse(h.header + h.head + h.rest)
  {
    hide Parse, ParseAligned, HeaderAligned, MagicAt, DecodeInfo, Hunt;
    var t := s[Hunt(s)..];
    var h := Header(s);
    HuntAligned(s);
    ParseHunted(s);
    AlignedOpens(t);
    HuntAtMagic(t);
    DecodeExtend(h.header, t[INFO_SIZE..]);
    MagicAtExtend(h.header, t[INFO_SIZE..], 0);
  }

  lemma OpenFrame(header: seq<Byte>, head: seq<Byte>, d: seq<Byte>)
    requires |header| == INFO_SIZE && MagicAt(header, 0) && DecodeInfo(header).Supported()
    requires |head| == DecodeInfo(header).headSize
    ensures var bodySize := DecodeInfo(header).bodySize;
            var t := header + head + d;
            if bodySize <= |d| then Parse(t) == Prepend(Message(head, d[..bodySize]), Parse(d[bodySize..]))
            else Parse(t) == Parsed([], t, Waiting)
  {
    var t := header + head + d;
    var info := DecodeInfo(header);
    assert t == header + (head + d);
    DecodeExtend(header, head + d);
    MagicAtExtend(header, head + d, 0);
    HuntAtMagic(t);
    if info.bodySize <= |d| {
      assert FirstMessage(t) == Message(head, d[..info.bodySize]);
      assert t[FrameEnd(info)..] == d[info.bodySize..];
    }
  }

  // What the body step delivers, and what it leaves for later.
  lemma BodyMeaning(header: seq<Byte>, head: seq<Byte>, body: seq<Byte>, d: seq<Byte>)
    requires |header| == INFO_SIZE && MagicAt(header, 0) && DecodeInfo(header).Supported()
    requires |head| == DecodeInfo(header).headSize && |body| <= DecodeInfo(header).bodySize
    ensures var needed := DecodeInfo(header).bodySize - |body|;
            var t := header + head + body + d;
            if needed <= |d| then
              Parse(t) == Prepend(Message(head, body + d[..needed]), Parse(d[needed..]))
            else
              Parse(t) == Parsed([], header + head + (body + d), Waiting)
  {
    var bodySize := DecodeInfo(header).bodySize;
    var needed := bodySize - |body|;
    assert header + head + body + d == header + head + (body + d);
    OpenFrame(header, head, body + d);
    if needed <= |d| {
      assert (body + d)[..bodySize] == body + d[..needed];
      assert (body + d)[bodySize..] == d[needed..];
    }
  }

  // What one round of the loop did with the state st and the input d.
  ghost predicate Round(st: State, d: seq<Byte>, ret: int, calls: seq<Message>, st': State, d': seq<Byte>) {
    if st.rejected then
      calls == [EMPTY_MESSAGE] && st' == State(st.pending, false) && d' == d
    else if ret == 0 then
      && !st'.rejected
      && Continues(Parse(st.pending + d), Parsed(calls, [], Waiting), Parse(st'.pending + d'))
      && (d' == [] ==> Parse(st'.pending) == Parsed([], st'.pending, Waiting))
    else
      calls == [] && Parse(st.pending + d) == Parsed([], st'.pending, if st'.rejected then BadVersion else Waiting)
  }

  function After(calls: seq<Message>, later: Fed): Fed {
    Fed(later.state, calls + later.calls)
  }

  lemma FedNothing(f: Fed)
    ensures After([], f) == f
  {
    assert [] + f.calls == f.calls;
  }

  lemma AfterTwice(a: seq<Message>, b: seq<Message>, f: Fed)
    ensures After(a, After(b, f)) == After(a + b, f)
  {
    assert a + (b + f.calls) == (a + b) + f.calls;
  }

  // So a round accounts for its part of the call.
  lemma RoundMeaning(st: State, d: seq<Byte>, ret: int, calls: seq<Message>, st': State, d': seq<Byte>)
    requires Round(st, d, ret, calls, st', d')
    requires ret != 0 ==> !st.rejected
    requires Parse(st.pending + d).status != NegativeSize
    ensures ret != 0 || d' == [] ==> Feed(st, d) == Fed(st', calls)
    ensures ret == 0 && d' != [] ==>
              Feed(st, d) == After(calls, Feed(st', d')) && Parse(st'.pending + d').status != NegativeSize
  {
    var whole := Parse(st.pending + d);
    assert [] + whole.msgs == whole.msgs;
    if ret == 0 && !st.rejected {
      var b := Parse(st'.pending + d');
      assert [] + b.msgs == b.msgs;
      if d' == [] {
        assert st'.pending + d' == st'.pending;
        assert calls + [] == calls;
      }
    } else if st.rejected && d != [] {
      assert [EMPTY_MESSAGE] + ([] + whole.msgs) == [EMPTY_MESSAGE] + whole.msgs;
    }
  }

  class SessionParser {
    var protocol: Option<Protocol>
    var cachingData: seq<Byte>
    ghost var header: seq<Byte>  // the header bytes of the frame whose body is open

    ghost predicate CacheRejected()
      reads this
    {
      Parse(cachingData) == Parsed([], cachingData, BadVersion)
    }

    ghost predicate HeadPending(info: Info)
      reads this
    {
      && info.Supported()
      && INFO_SIZE <= |cachingData| < INFO_SIZE + info.headSize
      && MagicAt(cachingData, 0) && DecodeInfo(cachingData) == info
    }

    ghost predicate OpenHeader(info: Info)
      reads this
    {
      && info.Supported()
      && |header| == INFO_SIZE && MagicAt(header, 0) && DecodeInfo(header) == info
    }

    // Between calls: no header known and under 24 bytes cached, or a head incomplete and
    // less than header and head cached, or a body incomplete and nothing cached, or a
    // rejected header at the front of the cache.
    ghost predicate Valid()
      reads this
    {
      match protocol
      case None => |cachingData| < INFO_SIZE || CacheRejected()
      case Some(p) =>
        if p.Rejected() then
          p == Protocol(Info(p.info.version, 0, 0), [], []) && CacheRejected()
        else if p.HeadComplete() then
          && cachingData == [] && OpenHeader(p.info)
          && |p.bodyData| < p.info.bodySize
        else
          p.headData == [] && p.bodyData == [] && HeadPending(p.info)
    }

    ghost function Pending(): seq<Byte>
      reads this
    {
      if protocol.Some? && protocol.value.HeadComplete() && !protocol.value.Rejected() then
        header + protocol.value.headData + protocol.value.bodyData
      else
        cachingData
    }

    ghost function Abs(): State
      reads this
    {
      State(Pending(), protocol.Some? && protocol.value.Rejected())
    }

    constructor ()
      ensures Valid() && Abs() == INIT
    {
      protocol, cachingData, header := None, [], [];
    }

    ghost predicate HeadKnown()
      reads this
    {
      protocol.Some? && !protocol.value.Rejected()
    }

    // Every cached position the hunt can visit has an int index.
    ghost predicate Fits(more: nat)
      reads this
    {
      more < TWO_31 && (!HeadKnown() ==> |cachingData| + more < TWO_31 + INFO_SIZE)
    }

    // The search for the first magic number.
    method FindMagic() returns (garbageIdx: int)
      requires |cachingData| < TWO_31 + INFO_SIZE
      ensures garbageIdx == Hunt(cachingData)
    {
      var searchMagicNum := Htonll(MAGIC_NUMBER);
      garbageIdx := 0;
      SmallSizeToInt(|cachingData| - INFO_SIZE);
      while garbageIdx <= ToInt(SizeT(|cachingData| - INFO_SIZE))
        invariant 0 <= garbageIdx <= |cachingData|
        invariant garbageIdx > 0 ==> garbageIdx + INFO_SIZE <= |cachingData| + 1
        invariant forall q :: 0 <= q < garbageIdx ==> !MagicAt(cachingData, q)
      {
        MagicWord(cachingData[garbageIdx..garbageIdx + 8]);
        if searchMagicNum == FromLittleEndian(cachingData[garbageIdx..garbageIdx + 8]) {
          break;
        }
        garbageIdx := garbageIdx + 1;
      }
      HuntUnique(cachingData, garbageIdx);
    }

    // The header fields, each the ntoh of the word in memory.
    method ReadInfo() returns (info: Info)
      requires |cachingData| >= INFO_SIZE
      ensures info == DecodeInfo(cachingData)
    {
      var c := cachingData;
      NtohlReadsNetworkOrder(c[8..12]);
      NtohlReadsNetworkOrder(c[12..16]);
      NtohllReadsNetworkOrder(c[16..20], c[20..24]);
      assert c[16..24] == c[16..20] + c[20..24];
      info := Info(
        Htonl(FromLittleEndian(c[8..12])),
        Htonl(FromLittleEndian(c[12..16])),
        Htonll(FromLittleEndian(c[16..24])));
    }

    // The parser and the return value agree with the outcome of the header step.
    ghost predicate Reached(step: HeaderStep, ret: int, data: seq<Byte>, offset: nat)
      requires offset <= |data|
      reads this
    {
      match step
      case NoHeader(t) => ret == DATA_NOT_ENOUGH && protocol == None && cachingData == t
      case Refused(v, t) =>
        ret == UNSUPPORTED_VERSION && protocol == Some(Protocol(Info(v, 0, 0), [], [])) && cachingData == t
      case NoHead(info, t) => ret == DATA_NOT_ENOUGH && protocol == Some(Protocol(info, [], [])) && cachingData == t
      case Opened(hdr, head, rest) =>
        && 1 <= ret <= |data| - offset && data[offset + ret..] == rest
        && |hdr| == INFO_SIZE && protocol == Some(Protocol(DecodeInfo(hdr), head, []))
        && cachingData == [] && header == hdr
    }

    // The part of unpackProtocol that runs while no header is known.
    method AcquireHeader(prevSize: int, ghost data: seq<Byte>, ghost offset: nat) returns (ret: int, newPrevSize: int)
      requires protocol == None && |cachingData| < TWO_31 + INFO_SIZE && offset <= |data|
      modifies this`protocol, this`cachingData
      ensures cachingData == old(cachingData)[Hunt(old(cachingData))..]
      ensures newPrevSize == RecomputedPrevSize(prevSize, Hunt(old(cachingData)))
      ensures ret == 0 || Reached(Header(old(cachingData)), ret, data, offset)
      ensures ret == 0 ==> KnownHeader()
    {
      var garbageIdx := FindMagic();
      newPrevSize := prevSize;
      if garbageIdx > 0 {
        cachingData := cachingData[garbageIdx..];
        newPrevSize := SizeT(prevSize - garbageIdx);
      }
      assert cachingData == old(cachingData)[Hunt(old(cachingData))..];
      if |cachingData| < INFO_SIZE {
        return DATA_NOT_ENOUGH, newPrevSize;
      }
      var info := ReadInfo();
      protocol := Some(Protocol(Info(info.version, 0, 0), [], []));
      if info.version != VERSION_01_00_00 {
        return UNSUPPORTED_VERSION, newPrevSize;
      }
      protocol := Some(Protocol(info, [], []));
      ret := 0;
    }

    ghost predicate KnownHeader()
      reads this
    {
      && |cachingData| >= INFO_SIZE && DecodeInfo(cachingData).version == VERSION_01_00_00
      && protocol == Some(Protocol(DecodeInfo(cachingData), [], []))
    }

    // The part of unpackProtocol that runs once the header is known.
    method TakeHead(prevSize: int, ghost cache: seq<Byte>, data: seq<Byte>, offset: nat) returns (ret: int)
      requires offset <= |data| && |data| - offset < TWO_31
      requires KnownHeader()
      requires var s := cache + data[offset..];
               && cachingData == s[Hunt(s)..] && prevSize == RecomputedPrevSize(|cache|, Hunt(s))
               && |cache| < Hunt(s) + INFO_SIZE + protocol.value.info.headSize
      modifies this
      ensures Reached(Header(cache + data[offset..]), ret, data, offset)
    {
      ghost var s := cache + data[offset..];
      var info := protocol.value.info;
      if |cachingData| < INFO_SIZE + info.headSize {
        return DATA_NOT_ENOUGH;
      }
      OpenedInChunk(cache, data, offset);
      OpenedInfo(s);
      header := Header(s).header;
      var headData := cachingData[INFO_SIZE..INFO_SIZE + info.headSize];
      protocol := Some(protocol.value.(headData := headData));
      cachingData := [];

      // body offset of input data
      var bodyStartIdx := SizeT(INFO_SIZE + info.headSize - prevSize);
      ret := ToInt(bodyStartIdx);
    }

    method UnpackProtocol(data: seq<Byte>, offset: nat) returns (ret: int)
      requires Valid() && offset <= |data| && Fits(|data| - offset)
      modifies this
      ensures old(protocol.Some? && protocol.value.HeadComplete()) ==> ret == 0 && unchanged(this)
      ensures !old(protocol.Some? && protocol.value.HeadComplete()) ==>
                Reached(Header(old(cachingData) + data[offset..]), ret, data, offset)
    {
      if protocol.Some? && protocol.value.HeadComplete() {
        return 0;
      }
      ghost var cache, more := cachingData, data[offset..];
      var cachingDataPrevSize := |cachingData|;
      cachingData := cachingData + data[offset..];
      if protocol.None? {
        ret, cachingDataPrevSize := AcquireHeader(cachingDataPrevSize, data, offset);
        if ret < 0 {
          return;
        }
        OpensBeyondCache(cache, more);
      } else {
        PendingHeader(cache, more, protocol.value.info);
      }
      ret := TakeHead(cachingDataPrevSize, cache, data, offset);
    }

    // The head is known and the body is open, possibly with nothing left to receive.
    ghost predicate BodyOpen()
      reads this
    {
      && protocol.Some? && protocol.value.HeadComplete() && OpenHeader(protocol.value.info)
      && |protocol.value.bodyData| <= protocol.value.info.bodySize && cachingData == []
    }

    method UnpackBodyData(data: seq<Byte>, offset: nat) returns (ret: int, calls: seq<Message>)
      requires offset <= |data| && (BodyOpen() || (Abs().rejected && Valid()))
      modifies this`protocol
      ensures Valid() && !Abs().rejected
      ensures 0 <= ret <= |data| - offset
      ensures old(|protocol.value.bodyData| < protocol.value.info.bodySize) && offset < |data| ==> 0 < ret
      ensures old(Abs().rejected) ==> ret == 0 && calls == [EMPTY_MESSAGE] && protocol == None
      ensures !old(Abs().rejected) ==>
                && cachingData == []
                && Continues(Parse(old(Pending()) + data[offset..]), Parsed(calls, [], Waiting),
                             Parse(Pending() + data[offset + ret..]))
    {
      hide Parse;
      ghost var wasRejected := Abs().rejected;
      if !wasRejected {
        BodyMeaning(header, protocol.value.headData, protocol.value.bodyData, data[offset..]);
      }
      var neededData := protocol.value.info.bodySize - |protocol.value.bodyData|;
      var realSize := if neededData < |data| - offset then neededData else |data| - offset;
      var body := protocol.value.bodyData + data[offset..offset + realSize];
      ghost var later := data[offset + realSize..];
      assert data[offset..][..realSize] == data[offset..offset + realSize];
      assert data[offset..][realSize..] == later;
      protocol := Some(protocol.value.(bodyData := body));
      calls := [];
      if |body| == protocol.value.info.bodySize {
        calls := [Message(protocol.value.headData, body)];
        protocol := None;
        assert [] + later == later;
      } else {
        assert later == [] && Pending() + later == Pending();
        assert data[offset..offset + realSize] == data[offset..];
        ParseRest(old(Pending()) + data[offset..]);
      }
      ret := realSize;
    }

    // With nothing cached, what is pending is the open body's frame, or nothing.
    lemma NothingCached()
      requires Valid() && !Abs().rejected && cachingData == []
      ensures Parse(Pending()) == Parsed([], Pending(), Waiting)
    {
      if protocol.None? {
        EmptyStream();
      } else {
        var p := protocol.value;
        BodyMeaning(header, p.headData, p.bodyData, []);
        assert p.bodyData + [] == p.bodyData && Pending() + [] == Pending();
      }
    }

    // One round of the loop in unpack.
    method UnpackStep(data: seq<Byte>, pos: nat) returns (ret: int, newPos: nat, calls: seq<Message>)
      requires Valid() && pos <= |data| && Fits(|data| - pos)
      requires !Abs().rejected ==> Parse(Pending() + data[pos..]).status != NegativeSize
      modifies this
      ensures Valid() && (ret == 0 || ret == DATA_NOT_ENOUGH || ret == UNSUPPORTED_VERSION)
      ensures Abs().rejected <==> ret == UNSUPPORTED_VERSION
      ensures newPos <= |data|
      ensures old(Abs().rejected) ==> ret == 0 && newPos == pos && protocol == None && cachingData == old(cachingData)
      ensures !old(Abs().rejected) && ret == 0 ==>
                pos <= newPos <= |data| && (pos < |data| ==> pos < newPos) && cachingData == []
      ensures Round(old(Abs()), data[pos..], ret, calls, Abs(), data[newPos..])
    {
      hide Parse, Header, MagicAt, Hunt, DecodeInfo, EncodeInfo, FirstMessage;
      calls, newPos := [], pos;
      ghost var s := cachingData + data[pos..];
      ghost var known := protocol.Some? && protocol.value.HeadComplete();
      ret := UnpackProtocol(data, pos);
      if !known {
        if Header(s).Opened? {
          HeaderOpens(s);
        } else {
          HeaderStops(s);
        }
      }
      if ret < 0 {
        return;
      }
      newPos := pos + ret;
      assert !Abs().rejected && protocol.value.bodyData == [] ==> Pending() == header + protocol.value.headData;
      var taken: int;
      taken, calls := UnpackBodyData(data, newPos);
      newPos := newPos + taken;
      ret := 0;
      if newPos == |data| && cachingData == [] {
        NothingCached();
      }
    }

    // One received chunk. The calls are those made to the listener, in order.
    method Unpack(data: seq<Byte>) returns (ret: int, calls: seq<Message>)
      requires Valid() && Fits(|data|)
      requires Parse(Pending() + data).status != NegativeSize
      modifies this
      ensures Valid()
      ensures Fed(Abs(), calls) == Feed(old(Abs()), data)
      ensures ret == if Abs().rejected then -139 else 0
    {
      hide Parse, Feed, Pending;
      var dataPos := 0;
      calls := [];
      assert data[0..] == data;
      FedNothing(Feed(Abs(), data));
      while true
        invariant 0 <= dataPos <= |data|
        invariant Valid() && Fits(|data| - dataPos)
        invariant Parse(Abs().pending + data[dataPos..]).status != NegativeSize
        invariant After(calls, Feed(Abs(), data[dataPos..])) == Feed(old(Abs()), data)
        decreases |data| - dataPos, Abs().rejected
      {
        ghost var st, d := Abs(), data[dataPos..];
        var delivered;
        ret, dataPos, delivered := UnpackStep(data, dataPos);
        RoundMeaning(st, d, ret, delivered, Abs(), data[dataPos..]);
        AfterTwice(calls, delivered, Feed(Abs(), data[dataPos..]));
        calls := calls + delivered;
        if ret == DATA_NOT_ENOUGH {
          return 0, calls;
        }
        if ret < 0 {
          ret := AppendSourceLine(ret, 54);
          return;
        }
        if !(dataPos < |data|) {
          break;
        }
      }
      ret := 0;
    }
  }

  // A session: chunk after chunk into one parser.
  method ReceiveAll(parser: SessionParser, chunks: seq<seq<Byte>>) returns (calls: seq<Message>)
    requires parser.Valid() && parser.Abs() == INIT
    requires Parse(Flatten(chunks)).status == Waiting
    requires forall i :: 0 <= i < |chunks| ==> |chunks[i]| < TWO_31
    modifies parser
    ensures parser.Valid() && parser.Abs() == State(Parse(Flatten(chunks)).rest, false)
    ensures calls == Parse(Flatten(chunks)).msgs
  {
    hide Parse, Flatten;
    calls := [];
    ghost var whole := Parse(Flatten(chunks));
    EmptyStream();
    SessionStart(chunks);
    var i := 0;
    while i < |chunks|
      invariant 0 <= i <= |chunks|
      invariant parser.Valid() && Ready(parser.Abs())
      invariant Continues(whole, Parsed(calls, [], Waiting), Parse(parser.Abs().pending + Flatten(chunks[i..])))
    {
      SessionStep(parser.Abs(), chunks, i, calls);
      var _, delivered := parser.Unpack(chunks[i]);
      calls := calls + delivered;
      i := i + 1;
    }
    SessionEnd(parser.Abs(), chunks);
  }

  lemma SessionStart(chunks: seq<seq<Byte>>)
    ensures var whole := Parse(Flatten(chunks));
            Continues(whole, Parsed([], [], Waiting), Parse([] + Flatten(chunks[0..])))
  {
    assert chunks[0..] == chunks && [] + Flatten(chunks) == Flatten(chunks);
    var m := Parse(Flatten(chunks)).msgs;
    assert [] + m == m;
  }

  lemma SessionEnd(st: State, chunks: seq<seq<Byte>>)
    requires Ready(st)
    ensures Parse(st.pending + Flatten(chunks[|chunks|..])) == Parsed([], st.pending, Waiting)
  {
    assert st.pending + Flatten(chunks[|chunks|..]) == st.pending;
  }

  lemma SessionStep(st: State, chunks: seq<seq<Byte>>, i: nat, calls: seq<Message>)
    requires i < |chunks| && Ready(st)
    requires Parse(st.pending + Flatten(chunks[i..])).status == Waiting
    ensures Parse(st.pending + chunks[i]).status == Waiting
    ensures var f := Feed(st, chunks[i]);
            && Ready(f.state)
            && forall whole ::
                 Continues(whole, Parsed(calls, [], Waiting), Parse(st.pending + Flatten(chunks[i..]))) ==>
                 Continues(whole, Parsed(calls + f.calls, [], Waiting),
                           Parse(f.state.pending + Flatten(chunks[i + 1..])))
  {
    var more := Flatten(chunks[i + 1..]);
    assert chunks[i..][1..] == chunks[i + 1..];
    assert st.pending + Flatten(chunks[i..]) == st.pending + chunks[i] + more;
    FeedContinues(st, chunks[i], more);
    var f := Feed(st, chunks[i]);
    var b := Parse(f.state.pending + more);
    assert calls + (f.calls + b.msgs) == (calls + f.calls) + b.msgs;
    if Parse(st.pending + chunks[i]).status != Waiting {
      StoppedExtend(st.pending + chunks[i], more);
    }
  }
}
