/** Byte order and frame layout of the mass-data session protocol.
    A frame is a 24-byte header (magic 8, version 4, headSize 4, bodySize 8, all
    big-endian) followed by the head and the body. */
module Wire {
  type Byte = b: int | 0 <= b < 256

  const TWO_31: int := 0x8000_0000
  const TWO_32: int := 0x1_0000_0000
  const TWO_63: int := 0x8000_0000_0000_0000
  const TWO_64: int := 0x1_0000_0000_0000_0000

  const MAGIC_NUMBER: int := 0x00A5202008275A
  const VERSION_01_00_00: int := 10000
  const INFO_SIZE: int := 24

  function Pow256(n: nat): (r: nat)
    ensures r > 0
  {
    if n == 0 then 1 else 256 * Pow256(n - 1)
  }

  // The n bytes of v, most significant first.
  function BigEndian(v: nat, n: nat): (s: seq<Byte>)
    ensures |s| == n
  {
    if n == 0 then [] else BigEndian(v / 256, n - 1) + [v % 256]
  }

  function FromBigEndian(s: seq<Byte>): (v: nat)
  {
    if s == [] then 0 else 256 * FromBigEndian(s[..|s| - 1]) + s[|s| - 1]
  }

  // The memory image of an n-byte word on a little-endian host.
  function LittleEndian(v: nat, n: nat): (s: seq<Byte>)
    ensures |s| == n
  {
    if n == 0 then [] else [v % 256] + LittleEndian(v / 256, n - 1)
  }

  function FromLittleEndian(s: seq<Byte>): (v: nat)
  {
    if s == [] then 0 else s[0] + 256 * FromLittleEndian(s[1..])
  }

  lemma {:induction false} FromBigEndianRange(s: seq<Byte>)
    ensures FromBigEndian(s) < Pow256(|s|)
  {
    if s != [] {
      FromBigEndianRange(s[..|s| - 1]);
    }
  }

  lemma {:induction false} FromLittleEndianRange(s: seq<Byte>)
    ensures FromLittleEndian(s) < Pow256(|s|)
  {
    if s != [] {
      FromLittleEndianRange(s[1..]);
    }
  }

  lemma {:induction false} BigEndianRoundTrip(v: nat, n: nat)
    requires v < Pow256(n)
    ensures FromBigEndian(BigEndian(v, n)) == v
  {
    if n > 0 {
      BigEndianRoundTrip(v / 256, n - 1);
      var s := BigEndian(v, n);
      assert s[..n - 1] == BigEndian(v / 256, n - 1);
    }
  }

  lemma {:induction false} FromBigEndianRoundTrip(s: seq<Byte>)
    ensures BigEndian(FromBigEndian(s), |s|) == s
  {
    if s != [] {
      var init, last := s[..|s| - 1], s[|s| - 1];
      FromBigEndianRoundTrip(init);
      assert FromBigEndian(s) / 256 == FromBigEndian(init) && FromBigEndian(s) % 256 == last;
      assert s == init + [last];
    }
  }

  lemma {:induction false} FromLittleEndianRoundTrip(s: seq<Byte>)
    ensures LittleEndian(FromLittleEndian(s), |s|) == s
  {
    if s != [] {
      FromLittleEndianRoundTrip(s[1..]);
      assert FromLittleEndian(s) / 256 == FromLittleEndian(s[1..]) && FromLittleEndian(s) % 256 == s[0];
      assert s == [s[0]] + s[1..];
    }
  }

  lemma {:induction false} LittleEndianRoundTrip(v: nat, n: nat)
    requires v < Pow256(n)
    ensures FromLittleEndian(LittleEndian(v, n)) == v
  {
    if n > 0 {
      LittleEndianRoundTrip(v / 256, n - 1);
      var s := LittleEndian(v, n);
      assert s[1..] == LittleEndian(v / 256, n - 1);
    }
  }

  // The platform's 32-bit swap: the word whose memory image is big-endian x.
  function Htonl(x: nat): (r: nat)
    requires x < TWO_32
    ensures r < TWO_32
    ensures LittleEndian(r, 4) == BigEndian(x, 4)
  {
    var image := BigEndian(x, 4);
    FromLittleEndianRange(image);
    FromLittleEndianRoundTrip(image);
    Pow256Values();
    FromLittleEndian(image)
  }

  // hton on 64-bit words: the two swapped halves change places.
  function Htonll(x: nat): (r: nat)
    requires x < TWO_64
    ensures r < TWO_64
  {
    Htonl(x % TWO_32) * TWO_32 + Htonl(x / TWO_32)
  }

  lemma {:induction false} FromBigEndianConcat(a: seq<Byte>, b: seq<Byte>)
    ensures FromBigEndian(a + b) == FromBigEndian(a) * Pow256(|b|) + FromBigEndian(b)
  {
    if b == [] {
      assert a + b == a;
    } else {
      var b', last := b[..|b| - 1], b[|b| - 1];
      assert (a + b)[..|a + b| - 1] == a + b';
      FromBigEndianConcat(a, b');
      var x, p, y := FromBigEndian(a), Pow256(|b'|), FromBigEndian(b');
      assert FromBigEndian(a + b) == 256 * FromBigEndian(a + b') + last as int by {
        assert (a + b)[|a + b| - 1] == last;
      }
      TimesPow256(x, |b'|);
      assert 256 * (x * p + y) == 256 * (x * p) + 256 * y;
    }
  }

  lemma {:induction false} FromLittleEndianConcat(a: seq<Byte>, b: seq<Byte>)
    ensures FromLittleEndian(a + b) == FromLittleEndian(a) + FromLittleEndian(b) * Pow256(|a|)
  {
    if a == [] {
      assert a + b == b;
    } else {
      assert (a + b)[1..] == a[1..] + b;
      FromLittleEndianConcat(a[1..], b);
      TimesPow256(FromLittleEndian(b), |a| - 1);
    }
  }

  lemma TimesPow256(x: nat, n: nat)
    ensures x * Pow256(n + 1) == 256 * (x * Pow256(n))
  {
    var p := Pow256(n);
    assert x * (256 * p) == 256 * (x * p);
  }

  lemma Pow256Values()
    ensures Pow256(0) == 1 && Pow256(4) == TWO_32 && Pow256(8) == TWO_64
  {
    assert Pow256(1) == 256;
    assert Pow256(2) == 65536;
    assert Pow256(3) == 16777216;
    assert Pow256(4) == TWO_32;
    assert Pow256(5) == 256 * TWO_32;
    assert Pow256(6) == 65536 * TWO_32;
    assert Pow256(7) == 16777216 * TWO_32;
  }

  // On a little-endian host the bytes hton leaves in memory are in network order.
  lemma HtonllIsNetworkOrder(x: nat)
    requires x < TWO_64
    ensures LittleEndian(Htonll(x), 8) == BigEndian(x, 8)
  {
    var hi, lo := x / TWO_32, x % TWO_32;
    var h, l := BigEndian(hi, 4), BigEndian(lo, 4);
    Pow256Values();
    BigEndianRoundTrip(hi, 4);
    BigEndianRoundTrip(lo, 4);
    FromBigEndianConcat(h, l);
    assert FromBigEndian(h + l) == x;
    FromBigEndianRoundTrip(h + l);
    LittleEndianRoundTrip(Htonl(hi), 4);
    LittleEndianRoundTrip(Htonl(lo), 4);
    FromLittleEndianConcat(h, l);
    assert FromLittleEndian(h + l) == Htonll(x);
    FromLittleEndianRoundTrip(h + l);
  }

  function Reverse(s: seq<Byte>): (r: seq<Byte>)
    ensures |r| == |s|
  {
    if s == [] then [] else Reverse(s[1..]) + [s[0]]
  }

  lemma {:induction false} BigEndianReversesLittleEndian(v: nat, n: nat)
    ensures BigEndian(v, n) == Reverse(LittleEndian(v, n))
  {
    if n > 0 {
      BigEndianReversesLittleEndian(v / 256, n - 1);
      var s := LittleEndian(v, n);
      assert s[1..] == LittleEndian(v / 256, n - 1);
    }
  }

  lemma {:induction false} FromLittleEndianOfReverse(s: seq<Byte>)
    ensures FromLittleEndian(Reverse(s)) == FromBigEndian(s)
  {
    if s != [] {
      var init, last := s[..|s| - 1], s[|s| - 1];
      FromLittleEndianOfReverse(init);
      ReverseSnoc(init, last);
      assert s == init + [last];
      assert ([last] + Reverse(init))[1..] == Reverse(init);
    }
  }

  lemma {:induction false} ReverseSnoc(s: seq<Byte>, b: Byte)
    ensures Reverse(s + [b]) == [b] + Reverse(s)
  {
    if s == [] {
      assert s + [b] == [b];
    } else {
      assert (s + [b])[1..] == s[1..] + [b];
      ReverseSnoc(s[1..], b);
    }
  }

  // ntoh is the same swap: applied to the word a header field has in memory it yields
  // the field's big-endian value.
  lemma NtohlReadsNetworkOrder(s: seq<Byte>)
    requires |s| == 4
    ensures FromLittleEndian(s) < TWO_32 && Htonl(FromLittleEndian(s)) == FromBigEndian(s)
  {
    Pow256Values();
    FromLittleEndianRange(s);
    FromLittleEndianRoundTrip(s);
    BigEndianReversesLittleEndian(FromLittleEndian(s), 4);
    FromLittleEndianOfReverse(s);
  }

  lemma HtonllOfHalves(v: nat, lo: nat, hi: nat)
    requires lo < TWO_32 && hi < TWO_32 && v == lo + hi * TWO_32
    ensures v < TWO_64
    ensures Htonll(v) == Htonl(lo) * TWO_32 + Htonl(hi)
  {
    assert v / TWO_32 == hi && v % TWO_32 == lo;
  }

  lemma HalvesConcat(a: seq<Byte>, b: seq<Byte>)
    requires |a| == |b| == 4
    ensures FromLittleEndian(a + b) == FromLittleEndian(a) + FromLittleEndian(b) * TWO_32
    ensures FromBigEndian(a + b) == FromBigEndian(a) * TWO_32 + FromBigEndian(b)
  {
    Pow256Values();
    FromLittleEndianConcat(a, b);
    FromBigEndianConcat(a, b);
    var p := Pow256(4);
    assert Pow256(|a|) == p && Pow256(|b|) == p;
  }

  lemma NtohllReadsNetworkOrder(a: seq<Byte>, b: seq<Byte>)
    requires |a| == |b| == 4
    ensures FromLittleEndian(a + b) < TWO_64 && Htonll(FromLittleEndian(a + b)) == FromBigEndian(a + b)
  {
    NtohlReadsNetworkOrder(a);
    NtohlReadsNetworkOrder(b);
    HalvesConcat(a, b);
    HtonllOfHalves(FromLittleEndian(a + b), FromLittleEndian(a), FromLittleEndian(b));
  }
}
