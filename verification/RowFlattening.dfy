/** Rows flattened into one allocation (row2chan, row2subchan, row2post, row2cmt in db.cpp):
    strings and blobs are copied one after another behind the fixed part of the record. */
module RowFlattening {
  import opened Wire
  import opened Wrappers

  // A C string, a blob, or a byte that is skipped.
  datatype Field = Text(bytes: seq<Byte>) | Blob(bytes: seq<Byte>) | Gap

  function Image(f: Field): seq<Byte> {
    match f
    case Text(t) => t + [0]
    case Blob(b) => b
    case Gap => [0]
  }

  function Pack(fs: seq<Field>): seq<Byte> {
    if fs == [] then [] else Pack(fs[..|fs| - 1]) + Image(fs[|fs| - 1])
  }

  // Where the k-th field starts.
  function Offset(fs: seq<Field>, k: nat): nat
    requires k <= |fs|
  {
    |Pack(fs[..k])|
  }

  // What strlen and the caller of a record see at an offset.
  function TextAt(s: seq<Byte>, off: nat): seq<Byte>
    decreases |s| - off
  {
    if off >= |s| || s[off] == 0 then [] else [s[off]] + TextAt(s, off + 1)
  }

  lemma {:induction false} PackPrefix(fs: seq<Field>, k: nat)
    requires k <= |fs|
    ensures Offset(fs, k) <= |Pack(fs)| && Pack(fs)[..Offset(fs, k)] == Pack(fs[..k])
    decreases |fs|
  {
    if k == |fs| {
      assert fs[..k] == fs;
    } else {
      var was := fs[..|fs| - 1];
      assert was[..k] == fs[..k];
      PackPrefix(was, k);
    }
  }

  // Each field lies where its offset says, within the record, and ends before the next.
  lemma FieldImage(fs: seq<Field>, k: nat)
    requires k < |fs|
    ensures Offset(fs, k + 1) == Offset(fs, k) + |Image(fs[k])| <= |Pack(fs)|
    ensures Pack(fs)[Offset(fs, k)..Offset(fs, k + 1)] == Image(fs[k])
  {
    PackPrefix(fs, k);
    PackPrefix(fs, k + 1);
    assert fs[..k + 1][..k] == fs[..k];
    var p := Pack(fs);
    assert p[..Offset(fs, k + 1)] == Pack(fs[..k]) + Image(fs[k]);
    assert p[Offset(fs, k)..Offset(fs, k + 1)] == p[..Offset(fs, k + 1)][Offset(fs, k)..];
  }

  // No two fields overlap.
  lemma {:induction false} FieldsApart(fs: seq<Field>, j: nat, k: nat)
    requires j < k <= |fs|
    ensures Offset(fs, j) + |Image(fs[j])| <= Offset(fs, k)
    decreases k
  {
    FieldImage(fs, k - 1);
    if j < k - 1 {
      FieldsApart(fs, j, k - 1);
    }
  }

  lemma {:induction false} TextReads(s: seq<Byte>, off: nat, t: seq<Byte>)
    requires off + |t| < |s| && s[off..off + |t|] == t && s[off + |t|] == 0 && 0 !in t
    ensures TextAt(s, off) == t
    decreases |t|
  {
    if t != [] {
      assert s[off] == t[0];
      assert s[off + 1..off + |t|] == t[1..];
      TextReads(s, off + 1, t[1..]);
      assert t == [t[0]] + t[1..];
    }
  }

  lemma SliceOfPrefix(p: seq<Byte>, slack: seq<Byte>, i: nat, j: nat)
    requires i <= j <= |p|
    ensures (p + slack)[i..j] == p[i..j]
  {
  }

  lemma TextOfImage(s: seq<Byte>, off: nat, t: seq<Byte>)
    requires off + |t| + 1 <= |s| && s[off..off + |t| + 1] == t + [0] && 0 !in t
    ensures TextAt(s, off) == t
  {
    var image := s[off..off + |t| + 1];
    assert s[off..off + |t|] == image[..|t|] && s[off + |t|] == image[|t|];
    TextReads(s, off, t);
  }

  // Whatever follows the packed fields, each one reads back as the column it came from.
  lemma ReadsBack(fs: seq<Field>, k: nat, slack: seq<Byte>)
    requires k < |fs| && (fs[k].Text? ==> 0 !in fs[k].bytes)
    ensures Offset(fs, k) + |Image(fs[k])| <= |Pack(fs)|
    ensures fs[k].Text? ==> TextAt(Pack(fs) + slack, Offset(fs, k)) == fs[k].bytes
    ensures fs[k].Blob? ==> (Pack(fs) + slack)[Offset(fs, k)..Offset(fs, k) + |fs[k].bytes|] == fs[k].bytes
  {
    hide Offset, TextAt, Pack;
    FieldImage(fs, k);
    SliceOfPrefix(Pack(fs), slack, Offset(fs, k), Offset(fs, k + 1));
    if fs[k].Text? {
      TextOfImage(Pack(fs) + slack, Offset(fs, k), fs[k].bytes);
    }
  }

  // -------------------------------------------------------------------------
  // Copying in place
  // -------------------------------------------------------------------------

  // The fields fs have been copied; the rest of the allocation is still zero.
  ghost predicate Filled(buf: array<Byte>, off: nat, fs: seq<Field>, offs: seq<nat>)
    reads buf
  {
    && off <= buf.Length && buf[..off] == Pack(fs) && At(fs, offs)
    && forall i :: off <= i < buf.Length ==> buf[i] == 0
  }

  function Zeros(n: nat): seq<Byte> {
    seq(n, _ => 0 as Byte)
  }

  // The record holds exactly these fields, each at its offset, and so many bytes to spare.
  ghost predicate Holds(s: seq<Byte>, fs: seq<Field>, offs: seq<nat>, spare: nat) {
    s == Pack(fs) + Zeros(spare) && At(fs, offs)
  }

  ghost predicate At(fs: seq<Field>, offs: seq<nat>) {
    |offs| == |fs| && forall k :: 0 <= k < |fs| ==> offs[k] == Offset(fs, k)
  }

  lemma AtSnoc(fs: seq<Field>, offs: seq<nat>, f: Field)
    requires At(fs, offs)
    ensures At(fs + [f], offs + [|Pack(fs)|])
  {
    var gs := fs + [f];
    forall k | 0 <= k < |gs|
      ensures (offs + [|Pack(fs)|])[k] == Offset(gs, k)
    {
      assert gs[..k] == fs[..k];
      assert fs[..|fs|] == fs;
    }
  }

  // A record that holds its fields gives every column back, and no two overlap.
  lemma HeldReadsBack(s: seq<Byte>, fs: seq<Field>, offs: seq<nat>, spare: nat, k: nat)
    requires Holds(s, fs, offs, spare) && k < |fs| && (fs[k].Text? ==> 0 !in fs[k].bytes)
    ensures offs[k] + |Image(fs[k])| <= |s|
    ensures fs[k].Text? ==> TextAt(s, offs[k]) == fs[k].bytes
    ensures fs[k].Blob? ==> s[offs[k]..offs[k] + |fs[k].bytes|] == fs[k].bytes
    ensures forall j :: 0 <= j < k ==> offs[j] + |Image(fs[j])| <= offs[k]
  {
    hide Pack, TextAt, Image;
    ReadsBack(fs, k, Zeros(spare));
    forall j | 0 <= j < k
      ensures offs[j] + |Image(fs[j])| <= offs[k]
    {
      FieldsApart(fs, j, k);
    }
  }

  lemma FilledAll(buf: array<Byte>, off: nat, fs: seq<Field>, offs: seq<nat>)
    requires Filled(buf, off, fs, offs)
    ensures Holds(buf[..], fs, offs, buf.Length - off)
  {
    assert buf[..] == buf[..off] + buf[off..];
    assert buf[off..] == Zeros(buf.Length - off);
  }

  method Allocate(n: nat) returns (buf: array<Byte>)
    ensures fresh(buf) && buf.Length == n && Filled(buf, 0, [], [])
  {
    buf := new Byte[n](_ => 0);
  }

  // Bytes written at the running offset.
  method Write(buf: array<Byte>, off: nat, bytes: seq<Byte>)
    requires off + |bytes| <= buf.Length
    modifies buf
    ensures buf[..off] == old(buf[..off]) && buf[off..off + |bytes|] == bytes
    ensures forall i :: off + |bytes| <= i < buf.Length ==> buf[i] == old(buf[i])
  {
    forall i | 0 <= i < |bytes| {
      buf[off + i] := bytes[i];
    }
  }

  lemma PackSnoc(fs: seq<Field>, f: Field)
    ensures Pack(fs + [f]) == Pack(fs) + Image(f)
  {
    assert (fs + [f])[..|fs|] == fs;
  }

  // strcpy and the step to the next free byte
  method StrCpy(buf: array<Byte>, off: nat, t: seq<Byte>, ghost fs: seq<Field>, ghost offs: seq<nat>)
      returns (next: nat)
    requires Filled(buf, off, fs, offs) && off + |t| + 1 <= buf.Length
    modifies buf
    ensures next == off + |t| + 1 && Filled(buf, next, fs + [Text(t)], offs + [off])
  {
    Write(buf, off, t + [0]);
    next := off + |t| + 1;
    PackSnoc(fs, Text(t));
    AtSnoc(fs, offs, Text(t));
    assert buf[..next] == buf[..off] + buf[off..next];
  }

  // memcpy and the step behind the blob
  method MemCpy(buf: array<Byte>, off: nat, b: seq<Byte>, ghost fs: seq<Field>, ghost offs: seq<nat>)
      returns (next: nat)
    requires Filled(buf, off, fs, offs) && off + |b| <= buf.Length
    modifies buf
    ensures next == off + |b| && Filled(buf, next, fs + [Blob(b)], offs + [off])
  {
    Write(buf, off, b);
    next := off + |b|;
    PackSnoc(fs, Blob(b));
    AtSnoc(fs, offs, Blob(b));
    assert buf[..next] == buf[..off] + buf[off..next];
  }

  // The byte left out behind the content of posts and comments.
  method Skip(buf: array<Byte>, off: nat, ghost fs: seq<Field>, ghost offs: seq<nat>) returns (next: nat)
    requires Filled(buf, off, fs, offs) && off < buf.Length
    ensures next == off + 1 && Filled(buf, next, fs + [Gap], offs + [off])
  {
    next := off + 1;
    PackSnoc(fs, Gap);
    AtSnoc(fs, offs, Gap);
    assert buf[..next] == buf[..off] + [buf[off]];
  }

  // -------------------------------------------------------------------------
  // The four kinds of row
  // -------------------------------------------------------------------------

  datatype ChanRow = ChanRow(name: seq<Byte>, intro: seq<Byte>, avatar: seq<Byte>, tipMethods: seq<Byte>,
      proof: seq<Byte>)

  // row2chan: the allocation is used to the last byte.
  method Row2Chan(r: ChanRow) returns (buf: array<Byte>, name: nat, intro: nat, avatar: nat, tipMethods: nat,
      proof: nat)
    ensures Holds(buf[..], [Text(r.name), Text(r.intro), Blob(r.avatar), Text(r.tipMethods), Text(r.proof)],
                  [name, intro, avatar, tipMethods, proof], 0)
  {
    hide Filled, Holds;
    buf := Allocate(|r.name| + |r.intro| + |r.tipMethods| + |r.proof| + 4 + |r.avatar|);
    ghost var fs: seq<Field>, offs: seq<nat> := [], [];
    name := 0;
    intro := StrCpy(buf, name, r.name, fs, offs);
    fs, offs := fs + [Text(r.name)], offs + [name];
    avatar := StrCpy(buf, intro, r.intro, fs, offs);
    fs, offs := fs + [Text(r.intro)], offs + [intro];
    tipMethods := MemCpy(buf, avatar, r.avatar, fs, offs);
    fs, offs := fs + [Blob(r.avatar)], offs + [avatar];
    proof := StrCpy(buf, tipMethods, r.tipMethods, fs, offs);
    fs, offs := fs + [Text(r.tipMethods)], offs + [tipMethods];
    var end := StrCpy(buf, proof, r.proof, fs, offs);
    fs, offs := fs + [Text(r.proof)], offs + [proof];
    FilledAll(buf, end, fs, offs);
    assert fs == [Text(r.name), Text(r.intro), Blob(r.avatar), Text(r.tipMethods), Text(r.proof)];
    assert offs == [name, intro, avatar, tipMethods, proof];
  }

  // row2subchan: the same, without payment methods and in another order.
  method Row2Subchan(r: ChanRow) returns (buf: array<Byte>, name: nat, intro: nat, proof: nat, avatar: nat)
    ensures Holds(buf[..], [Text(r.name), Text(r.intro), Text(r.proof), Blob(r.avatar)],
            [name, intro, proof, avatar], 0)
  {
    hide Filled, Holds;
    buf := Allocate(|r.name| + |r.intro| + |r.proof| + 3 + |r.avatar|);
    ghost var fs: seq<Field>, offs: seq<nat> := [], [];
    name := 0;
    intro := StrCpy(buf, name, r.name, fs, offs);
    fs, offs := fs + [Text(r.name)], offs + [name];
    proof := StrCpy(buf, intro, r.intro, fs, offs);
    fs, offs := fs + [Text(r.intro)], offs + [intro];
    avatar := StrCpy(buf, proof, r.proof, fs, offs);
    fs, offs := fs + [Text(r.proof)], offs + [proof];
    var end := MemCpy(buf, avatar, r.avatar, fs, offs);
    fs, offs := fs + [Blob(r.avatar)], offs + [avatar];
    FilledAll(buf, end, fs, offs);
    assert fs == [Text(r.name), Text(r.intro), Text(r.proof), Blob(r.avatar)];
    assert offs == [name, intro, proof, avatar];
  }

  // Content and thumbnails are read only while the post or comment is available.
  datatype PostRow = PostRow(available: bool, hashId: seq<Byte>, proof: seq<Byte>, url: seq<Byte>,
                             content: seq<Byte>, thumbnails: seq<Byte>)

  // Where content and thumbnails were copied, if they were.
  datatype Body = Body(content: nat, thumbnails: nat)

  // Both bodies end the same way: content, a byte left out, thumbnails.
  method CopyBody(buf: array<Byte>, off: nat, content: seq<Byte>, thumbnails: seq<Byte>,
                  ghost fs: seq<Field>, ghost offs: seq<nat>)
    returns (body: Body, end: nat)
    requires Filled(buf, off, fs, offs) && off + |content| + 1 + |thumbnails| <= buf.Length
    modifies buf
    ensures body.content == off && end == off + |content| + 1 + |thumbnails|
    ensures Filled(buf, end, fs + [Blob(content), Gap, Blob(thumbnails)],
                   offs + [body.content, body.content + |content|, body.thumbnails])
  {
    hide Filled;
    var next := MemCpy(buf, off, content, fs, offs);
    var after := Skip(buf, next, fs + [Blob(content)], offs + [off]);
    end := MemCpy(buf, after, thumbnails, fs + [Blob(content)] + [Gap], offs + [off] + [next]);
    body := Body(off, after);
    assert fs + [Blob(content)] + [Gap] + [Blob(thumbnails)] == fs + [Blob(content), Gap, Blob(thumbnails)];
    assert offs + [off] + [next] + [after] == offs + [off, next, after];
  }

  // row2post: one byte to spare, two when the content is withheld.
  method Row2Post(r: PostRow) returns (buf: array<Byte>, hashId: nat, proof: nat, url: nat, body: Option<Body>)
    ensures body.Some? <==> r.available
    ensures Holds(buf[..], [Text(r.hashId), Text(r.proof), Text(r.url)] +
                  (if r.available then [Blob(r.content), Gap, Blob(r.thumbnails)] else []),
                  [hashId, proof, url] +
                  (if r.available then [body.value.content, body.value.content + |r.content|, body.value.thumbnails]
                      else []),
                  if r.available then 1 else 2)
  {
    hide Filled, Holds;
    var conLen, thuLen := if r.available then |r.content| else 0, if r.available then |r.thumbnails| else 0;
    buf := Allocate(conLen + thuLen + |r.hashId| + |r.proof| + |r.url| + 5);
    ghost var fs: seq<Field>, offs: seq<nat> := [], [];
    hashId := 0;
    proof := StrCpy(buf, hashId, r.hashId, fs, offs);
    fs, offs := fs + [Text(r.hashId)], offs + [hashId];
    url := StrCpy(buf, proof, r.proof, fs, offs);
    fs, offs := fs + [Text(r.proof)], offs + [proof];
    var end := StrCpy(buf, url, r.url, fs, offs);
    fs, offs := fs + [Text(r.url)], offs + [url];
    assert fs == [Text(r.hashId), Text(r.proof), Text(r.url)] && offs == [hashId, proof, url];
    body := None;
    if r.available {
      var b;
      b, end := CopyBody(buf, end, r.content, r.thumbnails, fs, offs);
      body := Some(b);
      fs := fs + [Blob(r.content), Gap, Blob(r.thumbnails)];
      offs := offs + [b.content, b.content + |r.content|, b.thumbnails];
    }
    FilledAll(buf, end, fs, offs);
    assert fs == [Text(r.hashId), Text(r.proof), Text(r.url)] +
                  (if r.available then [Blob(r.content), Gap, Blob(r.thumbnails)] else []);
    assert offs == [hashId, proof, url] +
                   (if r.available then [body.value.content, body.value.content + |r.content|, body.value.thumbnails]
                       else []);
  }

  datatype CmtRow = CmtRow(available: bool, name: seq<Byte>, did: seq<Byte>, hashId: seq<Byte>, proof: seq<Byte>,
                           content: seq<Byte>, thumbnails: seq<Byte>)

  // row2cmt: likewise.
  method Row2Cmt(r: CmtRow) returns (buf: array<Byte>, name: nat, did: nat, hashId: nat, proof: nat, body: Option<Body>)
    ensures body.Some? <==> r.available
    ensures Holds(buf[..], [Text(r.name), Text(r.did), Text(r.hashId), Text(r.proof)] +
                  (if r.available then [Blob(r.content), Gap, Blob(r.thumbnails)] else []),
                  [name, did, hashId, proof] +
                  (if r.available then [body.value.content, body.value.content + |r.content|, body.value.thumbnails]
                      else []),
                  if r.available then 1 else 2)
  {
    hide Filled, Holds;
    var conLen, thuLen := if r.available then |r.content| else 0, if r.available then |r.thumbnails| else 0;
    buf := Allocate(conLen + thuLen + |r.hashId| + |r.proof| + |r.name| + |r.did| + 6);
    ghost var fs: seq<Field>, offs: seq<nat> := [], [];
    name := 0;
    did := StrCpy(buf, name, r.name, fs, offs);
    fs, offs := fs + [Text(r.name)], offs + [name];
    hashId := StrCpy(buf, did, r.did, fs, offs);
    fs, offs := fs + [Text(r.did)], offs + [did];
    proof := StrCpy(buf, hashId, r.hashId, fs, offs);
    fs, offs := fs + [Text(r.hashId)], offs + [hashId];
    var end := StrCpy(buf, proof, r.proof, fs, offs);
    fs, offs := fs + [Text(r.proof)], offs + [proof];
    assert fs == [Text(r.name), Text(r.did), Text(r.hashId), Text(r.proof)] && offs == [name, did, hashId, proof];
    body := None;
    if r.available {
      var b;
      b, end := CopyBody(buf, end, r.content, r.thumbnails, fs, offs);
      body := Some(b);
      fs := fs + [Blob(r.content), Gap, Blob(r.thumbnails)];
      offs := offs + [b.content, b.content + |r.content|, b.thumbnails];
    }
    FilledAll(buf, end, fs, offs);
    assert fs == [Text(r.name), Text(r.did), Text(r.hashId), Text(r.proof)] +
                  (if r.available then [Blob(r.content), Gap, Blob(r.thumbnails)] else []);
    assert offs == [name, did, hashId, proof] +
                   (if r.available then [body.value.content, body.value.content + |r.content|, body.value.thumbnails]
                       else []);
  }
}
