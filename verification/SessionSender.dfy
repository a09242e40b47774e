/** The sending half: pack's header, the 2048-byte slicing of header, head and body, and
    the round trip through the parser. */
module SessionSending {
  import opened Wrappers
  import opened Wire
  import opened SessionSpec
  import opened SessionRuns
  import opened SessionParsing

  const STEP: int := 2048

  // The loop counters are ints: after this many slices the next step overflows.
  const MAX_SLICES: nat := 0x10_0000

  // The most a loop can send and still finish.
  const SENDABLE: int := TWO_31 - STEP

  // How a sendData call ends: with its result, with a refused write, or in the overflow of
  // its counter, whose behaviour is undefined.
  datatype Ending = Finished(ret: int) | Failed | Overflowed

  datatype Sending = Sending(writes: seq<seq<Byte>>, ending: Ending)

  // The slices one sendData call writes.
  function Slices(data: seq<Byte>): (s: seq<seq<Byte>>)
    decreases |data|
  {
    if data == [] then []
    else if |data| <= STEP then [data]
    else [data[..STEP]] + Slices(data[STEP..])
  }

  lemma {:induction false} SlicesOfData(data: seq<Byte>)
    ensures Flatten(Slices(data)) == data
    ensures forall i :: 0 <= i < |Slices(data)| ==> 0 < |Slices(data)[i]| <= 2048
    ensures forall i :: 0 <= i < |Slices(data)| - 1 ==> |Slices(data)[i]| == 2048
    decreases |data|
  {
    if |data| > STEP {
      var rest := data[STEP..];
      SlicesOfData(rest);
      assert Slices(data)[1..] == Slices(rest);
      assert data == data[..STEP] + rest;
    } else if data != [] {
      assert Slices(data)[1..] == [];
    }
  }

  lemma SlicesFrom(data: seq<Byte>, idx: nat)
    requires idx < |data|
    ensures var n := if STEP < |data| - idx then STEP else |data| - idx;
            Slices(data[idx..]) == [data[idx..idx + n]] + Slices(data[idx + n..])
  {
    var rest := data[idx..];
    if STEP < |rest| {
      assert rest[..STEP] == data[idx..idx + STEP];
      assert rest[STEP..] == data[idx + STEP..];
    } else {
      assert rest == data[idx..|data|];
    }
  }

  lemma {:induction false} SliceCount(data: seq<Byte>)
    ensures STEP * |Slices(data)| < |data| + STEP && |data| <= STEP * |Slices(data)|
    decreases |data|
  {
    if |data| > STEP {
      SliceCount(data[STEP..]);
    }
  }

  // Which counters overflow.
  lemma OverflowExactly(data: seq<Byte>)
    ensures MAX_SLICES <= |Slices(data)| <==> SENDABLE < |data|
    ensures SENDABLE == 0x8000_0000 - 2048
    ensures |data| < TWO_31 ==> |Slices(data)| <= MAX_SLICES
  {
    SliceCount(data);
  }

  // What a loop over these slices does: `accepted` is how many writes the stream takes
  // before one fails.
  function Loop(slices: seq<seq<Byte>>, accepted: nat, ret: int): Sending {
    if accepted < |slices| && accepted < MAX_SLICES then Sending(slices[..accepted], Failed)
    else if MAX_SLICES <= |slices| then Sending(slices[..MAX_SLICES], Overflowed)
    else Sending(slices, Finished(ret))
  }

  // Before the slice at idx.
  ghost predicate Sliced(data: seq<Byte>, idx: nat, writes: seq<seq<Byte>>) {
    && idx == STEP * |writes| < TWO_31
    && if idx <= |data| then Slices(data) == writes + Slices(data[idx..]) else Slices(data) == writes
  }

  lemma SlicedNext(data: seq<Byte>, idx: nat, writes: seq<seq<Byte>>)
    requires Sliced(data, idx, writes) && idx < |data|
    ensures var n := if STEP < |data| - idx then STEP else |data| - idx;
            var more := writes + [data[idx..idx + n]];
            && |writes| < |Slices(data)| && Slices(data)[..|writes|] == writes && Slices(data)[..|writes| + 1] == more
            && (TWO_31 <= idx + STEP <==> |more| == MAX_SLICES)
            && (idx + STEP < TWO_31 ==> Sliced(data, idx + STEP, more))
  {
    SlicesFrom(data, idx);
    var n := if STEP < |data| - idx then STEP else |data| - idx;
    var rest := Slices(data[idx + n..]);
    assert writes + ([data[idx..idx + n]] + rest) == (writes + [data[idx..idx + n]]) + rest;
    if n < STEP {
      assert data[idx + n..] == [] && rest == [];
    }
  }

  lemma SlicedAll(data: seq<Byte>, idx: nat, writes: seq<seq<Byte>>)
    requires Sliced(data, idx, writes) && |data| <= idx
    ensures Slices(data) == writes && |writes| < MAX_SLICES
  {
    if idx == |data| {
      assert data[idx..] == [];
    }
  }

  // sendData for a vector.
  method SendData(data: seq<Byte>, accepted: nat) returns (sent: Sending)
    ensures sent == Loop(Slices(data), accepted, |data|)
  {
    hide Slices, Sliced;
    var writes := [];
    var idx := 0;
    NothingSliced(data);
    while idx < |data|
      invariant 0 <= idx && Sliced(data, idx, writes) && |writes| <= accepted && |writes| < MAX_SLICES
    {
      SlicedNext(data, idx, writes);
      var sendSize := if STEP < |data| - idx then STEP else |data| - idx;
      if |writes| == accepted {
        return Sending(writes, Failed);
      }
      writes := writes + [data[idx..idx + sendSize]];
      if TWO_31 <= idx + STEP {
        return Sending(writes, Overflowed);
      }
      idx := idx + STEP;
    }
    SlicedAll(data, idx, writes);
    sent := Sending(writes, Finished(|data|));
  }

  lemma NothingSliced(data: seq<Byte>)
    ensures Sliced(data, 0, [])
  {
    assert data[0..] == data;
    assert [] + Slices(data) == Slices(data);
  }

  // The stream's size is held in an int.
  function StreamSize(size: nat): int {
    ToInt(size % TWO_64)
  }

  function StreamPart(body: seq<Byte>): (part: seq<Byte>)
    requires |body| < TWO_63
    ensures |part| <= |body|
  {
    var size := StreamSize(|body|);
    if size <= 0 then [] else body[..size]
  }

  lemma StreamPartComplete(body: seq<Byte>)
    requires |body| < TWO_63
    ensures StreamPart(body) == body <==> |body| < TWO_31
  {
    if |body| < TWO_31 {
      SmallSizeToInt(|body|);
    }
  }

  lemma PartOfStream(body: seq<Byte>, i: nat, j: nat)
    requires |body| < TWO_63 && i <= j <= |StreamPart(body)|
    ensures StreamPart(body)[i..j] == body[i..j]
  {
  }

  // sendData for a stream: as much as the size in an int says.
  method SendStream(body: seq<Byte>, accepted: nat) returns (sent: Sending)
    requires |body| < TWO_63
    ensures sent == Loop(Slices(StreamPart(body)), accepted, StreamSize(|body|))
  {
    hide Slices, Sliced;
    var dataSize := StreamSize(|body|);
    ghost var part := StreamPart(body);
    assert |part| == if dataSize <= 0 then 0 else dataSize;
    var writes := [];
    var idx := 0;
    NothingSliced(part);
    hide StreamPart;
    while idx < dataSize
      invariant 0 <= idx && Sliced(part, idx, writes) && |writes| <= accepted && |writes| < MAX_SLICES
    {
      SlicedNext(part, idx, writes);
      var sendSize := if STEP < dataSize - idx then STEP else dataSize - idx;
      PartOfStream(body, idx, idx + sendSize);
      if |writes| == accepted {
        return Sending(writes, Failed);
      }
      writes := writes + [body[idx..idx + sendSize]];
      if TWO_31 <= idx + STEP {
        return Sending(writes, Overflowed);
      }
      idx := idx + STEP;
    }
    SlicedAll(part, idx, writes);
    sent := Sending(writes, Finished(dataSize));
  }

  // pack: the memory images of the swapped header fields, one after the other.
  method Pack(headData: seq<Byte>, body: Option<seq<Byte>>) returns (ret: int, data: seq<Byte>)
    requires |headData| < TWO_31 && (body.Some? ==> |body.value| < TWO_63)
    ensures ret == |data| == INFO_SIZE
    ensures data == EncodeInfo(Info(VERSION_01_00_00, |headData|, if body.Some? then |body.value| else 0))
  {
    var bodySize := 0;
    if body.Some? {
      bodySize := |body.value|;
    }
    MagicBytes();
    HtonllIsNetworkOrder(MAGIC_NUMBER);
    HtonllIsNetworkOrder(bodySize);
    data := [];
    data := data + LittleEndian(Htonll(MAGIC_NUMBER), 8);
    data := data + LittleEndian(Htonl(VERSION_01_00_00), 4);
    data := data + LittleEndian(Htonl(|headData|), 4);
    data := data + LittleEndian(Htonll(bodySize), 8);
    assert [] + MAGIC == MAGIC;
    ret := |data|;
  }

  function HeaderOf(head: seq<Byte>, body: seq<Byte>): seq<Byte> {
    EncodeInfo(Info(VERSION_01_00_00, |head|, |body|))
  }

  function MessageSlices(m: Message): seq<seq<Byte>>
    requires |m.body| < TWO_63
  {
    Slices(HeaderOf(m.head, m.body)) + Slices(m.head) + Slices(StreamPart(m.body))
  }

  // One loop after another, while they finish.
  function Then(a: Sending, b: Sending): Sending {
    if a.ending.Finished? then Sending(a.writes + b.writes, b.ending) else a
  }

  function Left(accepted: nat, a: Sending): nat {
    if |a.writes| <= accepted then accepted - |a.writes| else 0
  }

  function MessageSending(head: seq<Byte>, body: Option<seq<Byte>>, accepted: nat): Sending
    requires body.Some? ==> |body.value| < TWO_63
  {
    var header := HeaderOf(head, body.GetOr([]));
    var a := Loop(Slices(header), accepted, |header|);
    var b := Then(a, Loop(Slices(head), Left(accepted, a), |head|));
    if body.None? then b
    else Then(b, Loop(Slices(StreamPart(body.value)), Left(accepted, b), StreamSize(|body.value|)))
  }

  // The reply: header, then head, then the body file when there is one.
  method SendMessage(head: seq<Byte>, body: Option<seq<Byte>>, accepted: nat) returns (sent: Sending)
    requires |head| < TWO_31 && (body.Some? ==> |body.value| < TWO_63)
    ensures sent == MessageSending(head, body, accepted)
  {
    hide Slices, StreamPart;
    var _, protocolData := Pack(head, body);
    sent := SendData(protocolData, accepted);
    if sent.ending.Finished? {
      var more := SendData(head, accepted - |sent.writes|);
      sent := Sending(sent.writes + more.writes, more.ending);
    }
    if sent.ending.Finished? && body.Some? {
      var more := SendStream(body.value, accepted - |sent.writes|);
      sent := Sending(sent.writes + more.writes, more.ending);
    }
  }

  // -------------------------------------------------------------------------
  // Round trip
  // -------------------------------------------------------------------------

  lemma FlattenMessage(m: Message)
    requires |m.body| < TWO_63
    ensures Flatten(MessageSlices(m)) == HeaderOf(m.head, m.body) + m.head + StreamPart(m.body)
  {
    var h := HeaderOf(m.head, m.body);
    SlicesOfData(h);
    SlicesOfData(m.head);
    SlicesOfData(StreamPart(m.body));
    FlattenConcat(Slices(h), Slices(m.head));
    FlattenConcat(Slices(h) + Slices(m.head), Slices(StreamPart(m.body)));
  }

  function AllSlices(msgs: seq<Message>): seq<seq<Byte>>
    requires forall i :: 0 <= i < |msgs| ==> |msgs[i].body| < TWO_63
  {
    if msgs == [] then [] else MessageSlices(msgs[0]) + AllSlices(msgs[1..])
  }

  function Quiet(msgs: seq<Message>): (items: seq<Item>)
    ensures |items| == |msgs|
    ensures forall i :: 0 <= i < |msgs| ==> items[i] == Item([], msgs[i])
  {
    if msgs == [] then [] else [Item([], msgs[0])] + Quiet(msgs[1..])
  }

  lemma {:induction false} FlattenAll(msgs: seq<Message>)
    requires forall i :: 0 <= i < |msgs| ==> |msgs[i].body| < TWO_31
    ensures Flatten(AllSlices(msgs)) == NoisyStream(Quiet(msgs), [])
  {
    if msgs != [] {
      FlattenAll(msgs[1..]);
      FlattenMessage(msgs[0]);
      StreamPartComplete(msgs[0].body);
      FlattenConcat(MessageSlices(msgs[0]), AllSlices(msgs[1..]));
      assert Quiet(msgs)[1..] == Quiet(msgs[1..]);
      assert [] + Frame(msgs[0]) == Frame(msgs[0]);
    }
  }

  // Any list of sendable messages, sent in slices and fed slice by slice to a fresh parser,
  // is delivered once each, in order, with equal bytes, and leaves the parser fresh.
  lemma FramingRoundTrip(msgs: seq<Message>)
    requires forall i :: 0 <= i < |msgs| ==> |msgs[i].head| < TWO_31 && |msgs[i].body| < TWO_31
    ensures Run(INIT, AllSlices(msgs)) == Fed(INIT, msgs)
  {
    var items := Quiet(msgs);
    var none: seq<Byte> := [];
    assert NoMagic(none);
    FlattenAll(msgs);
    ResynchronisationLosesNothing(items, none, AllSlices(msgs));
    assert Messages(items) == msgs;
  }

  // What the loops for one message write when no write is refused.
  lemma Unhindered(m: Message, accepted: nat)
    requires |m.head| < TWO_31 && |m.body| < TWO_63 && |MessageSlices(m)| <= accepted
    ensures var sent := MessageSending(m.head, Some(m.body), accepted);
            && (|m.head| > SENDABLE ==> sent == Sending(Slices(HeaderOf(m.head, m.body)) + Slices(m.head), Overflowed))
            && (|m.head| <= SENDABLE && |m.body| < TWO_31 ==> sent.writes == MessageSlices(m))
            && (|m.head| <= SENDABLE ==>
                  sent.writes == Slices(HeaderOf(m.head, m.body)) + Slices(m.head) +
                                 Loop(Slices(StreamPart(m.body)), |Slices(StreamPart(m.body))|, 0).writes)
            && sent.ending != Failed
            && (sent.ending.Finished? <==> |m.head| <= SENDABLE && |StreamPart(m.body)| <= SENDABLE)
  {
    hide Slices, StreamPart;
    var h, a, b := HeaderOf(m.head, m.body), Slices(HeaderOf(m.head, m.body)), Slices(m.head);
    OverflowExactly(h);
    OverflowExactly(m.head);
    OverflowExactly(StreamPart(m.body));
    HeaderSize(m);
    assert Loop(a, accepted, |h|) == Sending(a, Finished(|h|));
    assert b[..|b|] == b;
    if |m.body| < TWO_31 {
      StreamPartComplete(m.body);
      var c := Slices(StreamPart(m.body));
      assert c[..|c|] == c;
    }
  }

  lemma HeaderSize(m: Message)
    ensures |HeaderOf(m.head, m.body)| == INFO_SIZE <= SENDABLE
  {
  }

  // What a reply is to the other side.
  function Received(head: seq<Byte>, body: Option<seq<Byte>>): Message {
    Message(head, body.GetOr([]))
  }

  // The first of these slices go out: all of them, or those before a write is refused.
  ghost predicate FirstOf(sent: Sending, slices: seq<seq<Byte>>, accepted: nat) {
    if accepted < |slices| then sent == Sending(slices[..accepted], Failed)
    else sent.writes == slices && sent.ending.Finished?
  }

  lemma FirstOfBoth(a: Sending, x: seq<seq<Byte>>, y: seq<seq<Byte>>, accepted: nat, ret: int)
    requires FirstOf(a, x, accepted) && |y| < MAX_SLICES
    ensures FirstOf(Then(a, Loop(y, Left(accepted, a), ret)), x + y, accepted)
  {
    if accepted < |x| {
      assert (x + y)[..accepted] == x[..accepted];
    } else if accepted < |x| + |y| {
      assert (x + y)[..accepted] == x + y[..accepted - |x|];
    }
  }

  // A reply of sendable parts, with a body file or without: header, head and body go out in
  // full and in order, or up to the first refused write.
  lemma ReplySent(head: seq<Byte>, body: Option<seq<Byte>>, accepted: nat)
    requires |head| <= SENDABLE && (body.Some? ==> |body.value| <= SENDABLE)
    ensures FirstOf(MessageSending(head, body, accepted), MessageSlices(Received(head, body)), accepted)
  {
    hide Slices, StreamPart, FirstOf;
    var m := Received(head, body);
    var header, part := HeaderOf(m.head, m.body), StreamPart(m.body);
    HeaderSize(m);
    StreamPartComplete(m.body);
    OverflowExactly(header);
    OverflowExactly(head);
    OverflowExactly(part);
    var a := Loop(Slices(header), accepted, |header|);
    FirstOfOne(Slices(header), accepted, |header|);
    FirstOfBoth(a, Slices(header), Slices(head), accepted, |head|);
    var b := Then(a, Loop(Slices(head), Left(accepted, a), |head|));
    if body.Some? {
      FirstOfBoth(b, Slices(header) + Slices(head), Slices(part), accepted, StreamSize(|m.body|));
    } else {
      NoSlices();
      assert MessageSlices(m) == Slices(header) + Slices(head);
    }
  }

  lemma FirstOfOne(x: seq<seq<Byte>>, accepted: nat, ret: int)
    requires |x| < MAX_SLICES
    ensures FirstOf(Loop(x, accepted, ret), x, accepted)
  {
  }

  lemma NoSlices()
    ensures Slices([]) == [] && StreamPart([]) == []
  {
  }

  // In particular, when no write is refused, the bytes sent are the frame of the reply and a
  // fresh parser delivers exactly it.
  lemma ReplyDelivered(head: seq<Byte>, body: Option<seq<Byte>>, accepted: nat)
    requires |head| <= SENDABLE && (body.Some? ==> |body.value| <= SENDABLE)
    requires |MessageSlices(Received(head, body))| <= accepted
    ensures var sent, m := MessageSending(head, body, accepted), Message(head, body.GetOr([]));
            && sent.ending.Finished? && Flatten(sent.writes) == Frame(m) && Run(INIT, sent.writes) == Fed(INIT, [m])
  {
    hide Slices, MessageSending, Run, StreamPart;
    var m := Received(head, body);
    ReplySent(head, body, accepted);
    StreamPartComplete(m.body);
    FlattenMessage(m);
    FramingRoundTrip([m]);
    OneMessage(m);
  }

  // A reply without a body file: header and head go out, and the loops finish if and only if
  // the head is sendable.
  lemma HeadOnlyExactly(head: seq<Byte>, accepted: nat)
    requires |head| < TWO_31 && |MessageSlices(Message(head, []))| <= accepted
    ensures var sent := MessageSending(head, None, accepted);
            && (sent.ending.Finished? <==> |head| <= SENDABLE) && sent.ending != Failed
            && Flatten(sent.writes) == Frame(Message(head, []))
            && Run(INIT, sent.writes) == Fed(INIT, [Message(head, [])])
  {
    hide Slices, Run, StreamPart;
    var m := Message(head, []);
    FlattenMessage(m);
    StreamPartComplete(m.body);
    FramingRoundTrip([m]);
    OneMessage(m);
    NoSlices();
    HeaderSize(m);
    OverflowExactly(HeaderOf(head, []));
    OverflowExactly(head);
    var b := Slices(head);
    assert b[..|b|] == b;
    assert MessageSlices(m) == Slices(HeaderOf(head, [])) + b;
    assert MessageSending(head, None, accepted).writes == MessageSlices(m);
  }

  // One message on a session that refuses no write: it is delivered by loops that finish
  // if and only if head and body are at most 2^31 - 2048 bytes. With a longer body of less
  // than 2^31 bytes it is delivered too, but the counter overflows after the last write. A
  // body that does not fit an int is announced whole and not sent whole, and the receiver
  // keeps waiting. With a longer head the body is never sent.
  lemma RoundTripExactly(m: Message, accepted: nat)
    requires |m.head| < TWO_31 && |m.body| < TWO_63 && |MessageSlices(m)| <= accepted
    ensures var sent := MessageSending(m.head, Some(m.body), accepted);
            && (sent.ending.Finished? && Run(INIT, sent.writes).calls == [m] <==>
                |m.head| <= SENDABLE && |m.body| <= SENDABLE)
            && (|m.head| <= SENDABLE && SENDABLE < |m.body| < TWO_31 ==>
                  sent.ending == Overflowed && Run(INIT, sent.writes) == Fed(INIT, [m]))
            && (|m.head| <= SENDABLE && TWO_31 <= |m.body| ==> Run(INIT, sent.writes).calls == [])
            && (SENDABLE < |m.head| ==> sent == Sending(Slices(HeaderOf(m.head, m.body)) + Slices(m.head), Overflowed))
  {
    hide Slices, MessageSending, Run, StreamPart;
    Unhindered(m, accepted);
    if |m.body| < TWO_31 {
      StreamPartComplete(m.body);
      FramingRoundTrip([m]);
      OneMessage(m);
    } else if |m.head| <= SENDABLE {
      Truncated(m);
    }
  }

  lemma OneMessage(m: Message)
    requires |m.body| < TWO_63
    ensures AllSlices([m]) == MessageSlices(m)
  {
    var none: seq<Message> := [];
    assert [m][1..] == none;
    assert MessageSlices(m) + AllSlices(none) == MessageSlices(m);
  }

  // The beginning of a body that does not fit an int.
  lemma Truncated(m: Message)
    requires |m.head| < TWO_31 && TWO_31 <= |m.body| < TWO_63
    ensures var c := Slices(StreamPart(m.body));
            Run(INIT, Slices(HeaderOf(m.head, m.body)) + Slices(m.head) + Loop(c, |c|, 0).writes).calls == []
  {
    hide Run;
    var h, part := HeaderOf(m.head, m.body), StreamPart(m.body);
    var c := Slices(part);
    var w := Loop(c, |c|, 0).writes;
    PrefixOfData(part, |w|);
    assert w == c[..|w|];
    var sub := Flatten(w);
    SlicesOfData(h);
    SlicesOfData(m.head);
    FlattenConcat(Slices(h), Slices(m.head));
    FlattenConcat(Slices(h) + Slices(m.head), w);
    assert |sub| < |m.body|;
    EncodeDecode(Info(VERSION_01_00_00, |m.head|, |m.body|), []);
    assert h + [] == h;
    OpenFrame(h, m.head, sub);
    EmptyStream();
    ChunkingInvariance(Slices(h) + Slices(m.head) + w);
  }

  lemma {:induction false} PrefixOfData(data: seq<Byte>, n: nat)
    requires n <= |Slices(data)|
    ensures |Flatten(Slices(data)[..n])| <= |data|
  {
    var a, b := Slices(data)[..n], Slices(data)[n..];
    assert a + b == Slices(data);
    FlattenConcat(a, b);
    SlicesOfData(data);
  }

  datatype Reply = Reply(head: seq<Byte>, body: Option<seq<Byte>>)

  function AllReceived(replies: seq<Reply>): seq<Message> {
    seq(|replies|, i requires 0 <= i < |replies| => Received(replies[i].head, replies[i].body))
  }

  ghost predicate Sendable(r: Reply) {
    |r.head| <= SENDABLE && (r.body.Some? ==> |r.body.value| <= SENDABLE)
  }

  // Replies one after the other, with body files or without, on a session that refuses no
  // write: if every head and body is sendable, the other side receives exactly the messages.
  method SendMessages(replies: seq<Reply>) returns (writes: seq<seq<Byte>>, finished: bool)
    requires forall i :: 0 <= i < |replies| ==>
               |replies[i].head| < TWO_31 && (replies[i].body.Some? ==> |replies[i].body.value| < TWO_31)
    ensures finished <==> forall i :: 0 <= i < |replies| ==> Sendable(replies[i])
    ensures finished ==> Run(INIT, writes) == Fed(INIT, AllReceived(replies))
  {
    hide MessageSending, MessageSlices, Run, AllSlices;
    writes, finished := [], true;
    NothingSent();
    ghost var msgs := AllReceived(replies);
    var i := 0;
    while i < |replies| && finished
      invariant 0 <= i <= |replies|
      invariant finished <==> forall k :: 0 <= k < i ==> Sendable(replies[k])
      invariant finished ==> writes == AllSlices(msgs[..i])
    {
      var r, m := replies[i], Received(replies[i].head, replies[i].body);
      var sent := SendMessage(r.head, r.body, |MessageSlices(m)|);
      ReplyFinished(r);
      assert msgs[..i + 1] == msgs[..i] + [m];
      AllSlicesSnoc(msgs[..i], m);
      writes := writes + sent.writes;
      finished := sent.ending.Finished?;
      i := i + 1;
    }
    if finished {
      assert msgs[..i] == msgs;
      FramingRoundTrip(msgs);
    }
  }

  lemma ReplyFinished(r: Reply)
    requires |r.head| < TWO_31 && (r.body.Some? ==> |r.body.value| < TWO_31)
    ensures var m := Received(r.head, r.body);
            var sent := MessageSending(r.head, r.body, |MessageSlices(m)|);
            && (sent.ending.Finished? <==> Sendable(r))
            && (Sendable(r) ==> sent.writes == MessageSlices(m))
  {
    hide MessageSending, MessageSlices, Run, StreamPart;
    var m := Received(r.head, r.body);
    if Sendable(r) {
      ReplySent(r.head, r.body, |MessageSlices(m)|);
    } else if r.body.None? {
      HeadOnlyExactly(r.head, |MessageSlices(m)|);
    } else {
      StreamPartComplete(m.body);
      Unhindered(m, |MessageSlices(m)|);
    }
  }

  lemma NothingSent()
    ensures AllSlices([]) == []
  {
  }

  lemma {:induction false} AllSlicesSnoc(msgs: seq<Message>, m: Message)
    requires |m.body| < TWO_63 && forall i :: 0 <= i < |msgs| ==> |msgs[i].body| < TWO_63
    ensures AllSlices(msgs + [m]) == AllSlices(msgs) + MessageSlices(m)
    decreases |msgs|
  {
    hide MessageSlices;
    if msgs == [] {
      OneMessage(m);
      assert msgs + [m] == [m] && AllSlices(msgs) + MessageSlices(m) == MessageSlices(m);
    } else {
      assert (msgs + [m])[1..] == msgs[1..] + [m];
      AllSlicesSnoc(msgs[1..], m);
      var a, b, c := MessageSlices(msgs[0]), AllSlices(msgs[1..]), MessageSlices(m);
      assert a + (b + c) == (a + b) + c;
    }
  }
}
