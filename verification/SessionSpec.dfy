/** The meaning of a session byte stream: a one-shot recursive parser over the whole
    stream, and the laws that make it insensitive to how the stream is cut. */
module SessionSpec {
  import opened Wire

  const MAGIC: seq<Byte> := [0x00, 0x00, 0xA5, 0x20, 0x20, 0x08, 0x27, 0x5A]

  datatype Info = Info(version: nat, headSize: nat, bodySize: nat)
  {
    ghost predicate Supported() {
      version == VERSION_01_00_00 && headSize < TWO_31 && bodySize < TWO_63
    }
  }

  datatype Message = Message(head: seq<Byte>, body: seq<Byte>)

  predicate MagicAt(s: seq<Byte>, i: int) {
    0 <= i && i + 8 <= |s| && s[i..i + 8] == MAGIC
  }

  // The first position from i on that starts a magic number with a whole header behind
  // it, or else the first position too close to the end to decide.
  function HuntFrom(s: seq<Byte>, i: nat): (p: nat)
    requires i <= |s|
    ensures i <= p <= |s|
    ensures forall q :: i <= q < p ==> !MagicAt(s, q)
    ensures p + INFO_SIZE <= |s| ==> MagicAt(s, p)
    ensures i < p ==> p + INFO_SIZE <= |s| + 1
    decreases |s| - i
  {
    if i + INFO_SIZE > |s| || MagicAt(s, i) then i else HuntFrom(s, i + 1)
  }

  function Hunt(s: seq<Byte>): (p: nat)
    ensures p <= |s|
    ensures forall q :: 0 <= q < p ==> !MagicAt(s, q)
    ensures p + INFO_SIZE <= |s| ==> MagicAt(s, p)
    ensures 0 < p ==> p + INFO_SIZE <= |s| + 1
  {
    HuntFrom(s, 0)
  }

  function DecodeInfo(s: seq<Byte>): Info
    requires |s| >= INFO_SIZE
  {
    Info(FromBigEndian(s[8..12]), FromBigEndian(s[12..16]), FromBigEndian(s[16..24]))
  }

  function EncodeInfo(info: Info): (s: seq<Byte>)
    ensures |s| == INFO_SIZE
  {
    MAGIC + BigEndian(info.version, 4) + BigEndian(info.headSize, 4) + BigEndian(info.bodySize, 8)
  }

  function Frame(m: Message): seq<Byte> {
    EncodeInfo(Info(VERSION_01_00_00, |m.head|, |m.body|)) + m.head + m.body
  }

  datatype Status = Waiting | BadVersion | NegativeSize

  // The messages of a stream, the bytes no message has consumed (undecided garbage
  // positions included, decided garbage dropped), and why parsing stopped.
  datatype Parsed = Parsed(msgs: seq<Message>, rest: seq<Byte>, status: Status)

  function Parse(s: seq<Byte>): Parsed
    decreases |s|, 1
  {
    ParseAligned(s[Hunt(s)..])
  }

  // The same for a stream whose leading garbage is already dropped.
  function ParseAligned(t: seq<Byte>): Parsed
    decreases |t|, 0
  {
    if |t| < INFO_SIZE then
      Parsed([], t, Waiting)
    else
      var info := DecodeInfo(t);
      if info.version != VERSION_01_00_00 then
        Parsed([], t, BadVersion)
      else if info.headSize >= TWO_31 || info.bodySize >= TWO_63 then
        Parsed([], t, NegativeSize)
      else if |t| < FrameEnd(info) then
        Parsed([], t, Waiting)
      else
        Prepend(FirstMessage(t), Parse(t[FrameEnd(info)..]))
  }

  function Prepend(m: Message, r: Parsed): Parsed {
    Parsed([m] + r.msgs, r.rest, r.status)
  }

  function FrameEnd(info: Info): nat {
    INFO_SIZE + info.headSize + info.bodySize
  }

  ghost predicate HoldsFrame(t: seq<Byte>) {
    && |t| >= INFO_SIZE
    && DecodeInfo(t).Supported()
    && |t| >= FrameEnd(DecodeInfo(t))
  }

  function FirstMessage(t: seq<Byte>): Message
    requires |t| >= INFO_SIZE && |t| >= FrameEnd(DecodeInfo(t))
  {
    var bodyAt := INFO_SIZE + DecodeInfo(t).headSize;
    Message(t[INFO_SIZE..bodyAt], t[bodyAt..FrameEnd(DecodeInfo(t))])
  }

  // -------------------------------------------------------------------------
  // Cutting the stream
  // -------------------------------------------------------------------------

  lemma HuntUnique(s: seq<Byte>, p: nat)
    requires p <= |s|
    requires forall q :: 0 <= q < p ==> !MagicAt(s, q)
    requires p + INFO_SIZE <= |s| ==> MagicAt(s, p)
    requires 0 < p ==> p + INFO_SIZE <= |s| + 1
    ensures Hunt(s) == p
  {
    var h := Hunt(s);
    assert MagicAt(s, h) || h + INFO_SIZE > |s|;
    assert MagicAt(s, p) || p + INFO_SIZE > |s|;
  }

  lemma MagicAtDrop(s: seq<Byte>, n: nat, i: nat)
    requires n <= |s|
    ensures MagicAt(s[n..], i) <==> MagicAt(s, n + i)
  {
    if i + 8 <= |s| - n {
      assert s[n..][i..i + 8] == s[n + i..n + i + 8];
    }
  }

  lemma MagicAtExtend(s: seq<Byte>, more: seq<Byte>, i: nat)
    requires i + 8 <= |s|
    ensures MagicAt(s + more, i) <==> MagicAt(s, i)
  {
    assert (s + more)[i..i + 8] == s[i..i + 8];
  }

  lemma HuntDrop(s: seq<Byte>, n: nat)
    requires n <= |s|
    requires 0 < n ==> n + INFO_SIZE <= |s| + 1
    requires forall q :: 0 <= q < n ==> !MagicAt(s, q)
    ensures Hunt(s) == n + Hunt(s[n..])
  {
    var p := Hunt(s[n..]);
    forall q | 0 <= q < n + p
      ensures !MagicAt(s, q)
    {
      if n <= q {
        MagicAtDrop(s, n, q - n);
      }
    }
    MagicAtDrop(s, n, p);
    HuntUnique(s, n + p);
  }

  // A prefix in which no magic number starts can be dropped.
  lemma DropGarbage(s: seq<Byte>, n: nat)
    requires n <= |s|
    requires 0 < n ==> n + INFO_SIZE <= |s| + 1
    requires forall q :: 0 <= q < n ==> !MagicAt(s, q)
    ensures Parse(s) == Parse(s[n..])
  {
    HuntDrop(s, n);
    assert s[Hunt(s)..] == s[n..][Hunt(s[n..])..];
  }

  // What the hunt drops stays dropped, whatever follows.
  lemma HuntExtend(s: seq<Byte>, more: seq<Byte>)
    ensures Parse(s + more) == Parse(s[Hunt(s)..] + more)
  {
    hide Parse, Hunt, MagicAt;
    var p := Hunt(s);
    forall q | 0 <= q < p
      ensures !MagicAt(s + more, q)
    {
      MagicAtExtend(s, more, q);
    }
    DropGarbage(s + more, p);
    assert (s + more)[p..] == s[p..] + more;
  }

  lemma HuntAtMagic(s: seq<Byte>)
    requires |s| < INFO_SIZE || MagicAt(s, 0)
    ensures Hunt(s) == 0 && Parse(s) == ParseAligned(s)
  {
    HuntUnique(s, 0);
    assert s[0..] == s;
  }

  lemma HuntAligned(s: seq<Byte>)
    ensures var t := s[Hunt(s)..]; |t| < INFO_SIZE || MagicAt(t, 0)
  {
    MagicAtDrop(s, Hunt(s), 0);
  }

  lemma DecodeExtend(t: seq<Byte>, more: seq<Byte>)
    requires |t| >= INFO_SIZE
    ensures DecodeInfo(t + more) == DecodeInfo(t)
  {
    var u := t + more;
    assert u[8..12] == t[8..12] && u[12..16] == t[12..16] && u[16..24] == t[16..24];
  }

  lemma FrameExtend(t: seq<Byte>, more: seq<Byte>)
    requires HoldsFrame(t)
    ensures ParseAligned(t) == Prepend(FirstMessage(t), Parse(t[FrameEnd(DecodeInfo(t))..]))
    ensures ParseAligned(t + more) == Prepend(FirstMessage(t), Parse(t[FrameEnd(DecodeInfo(t))..] + more))
  {
    DecodeExtend(t, more);
    var u := t + more;
    var end := FrameEnd(DecodeInfo(t));
    assert u[end..] == t[end..] + more;
    assert FirstMessage(u) == FirstMessage(t) by {
      var bodyAt := INFO_SIZE + DecodeInfo(t).headSize;
      assert u[INFO_SIZE..bodyAt] == t[INFO_SIZE..bodyAt];
      assert u[bodyAt..end] == t[bodyAt..end];
    }
  }

  // The stream a ++ b means what a means, followed by what b adds to a's left-over.
  ghost predicate Continues(whole: Parsed, a: Parsed, b: Parsed) {
    whole == Parsed(a.msgs + b.msgs, b.rest, b.status)
  }

  // One stream parsed in two pieces.
  lemma {:induction false} ParseConcat(s: seq<Byte>, more: seq<Byte>)
    requires Parse(s).status == Waiting
    ensures Continues(Parse(s + more), Parse(s), Parse(Parse(s).rest + more))
    decreases |s|, 1
  {
    var t := s[Hunt(s)..];
    HuntExtend(s, more);
    HuntAligned(s);
    AlignedConcat(t, more);
  }

  lemma {:induction false} AlignedConcat(t: seq<Byte>, more: seq<Byte>)
    requires |t| < INFO_SIZE || MagicAt(t, 0)
    requires ParseAligned(t).status == Waiting
    ensures Continues(Parse(t + more), ParseAligned(t), Parse(ParseAligned(t).rest + more))
    decreases |t|, 0
  {
    if HoldsFrame(t) {
      var after := t[FrameEnd(DecodeInfo(t))..];
      FrameExtend(t, more);
      ParseConcat(after, more);
      ContinuesPrepend(FirstMessage(t), Parse(after + more), Parse(after), Parse(Parse(after).rest + more));
      ParseExtended(t, more);
    } else {
      NoFrameConcat(t, more);
    }
  }

  lemma ContinuesPrepend(m: Message, whole: Parsed, a: Parsed, b: Parsed)
    requires Continues(whole, a, b)
    ensures Continues(Prepend(m, whole), Prepend(m, a), b)
  {
    assert [m] + (a.msgs + b.msgs) == ([m] + a.msgs) + b.msgs;
  }

  lemma ParseExtended(t: seq<Byte>, more: seq<Byte>)
    requires |t| >= INFO_SIZE && MagicAt(t, 0)
    ensures Parse(t + more) == ParseAligned(t + more)
  {
    MagicAtExtend(t, more, 0);
    HuntAtMagic(t + more);
  }

  lemma NoFrameConcat(t: seq<Byte>, more: seq<Byte>)
    requires !HoldsFrame(t) && ParseAligned(t).status == Waiting
    ensures Continues(Parse(t + more), ParseAligned(t), Parse(ParseAligned(t).rest + more))
  {
    assert ParseAligned(t) == Parsed([], t, Waiting);
    var b := Parse(t + more);
    assert [] + b.msgs == b.msgs;
  }

  // What is left over holds no message, and is left over again.
  lemma {:induction false} ParseRest(s: seq<Byte>)
    ensures var a := Parse(s); Parse(a.rest) == Parsed([], a.rest, a.status)
    ensures var rest := Parse(s).rest; |rest| < INFO_SIZE || MagicAt(rest, 0)
    decreases |s|
  {
    var t := s[Hunt(s)..];
    HuntAligned(s);
    if HoldsFrame(t) {
      ParseRest(t[FrameEnd(DecodeInfo(t))..]);
    } else {
      HuntAtMagic(t);
    }
  }

  // A rejected header stays rejected, whatever follows.
  lemma RejectExtend(t: seq<Byte>, more: seq<Byte>)
    requires Parse(t) == Parsed([], t, BadVersion)
    ensures Parse(t + more) == Parsed([], t + more, BadVersion)
  {
    ParseRest(t);
    HuntAtMagic(t);
    MagicAtExtend(t, more, 0);
    HuntAtMagic(t + more);
    DecodeExtend(t, more);
  }
}
