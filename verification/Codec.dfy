/** The wire format of CPacket: a packed five-byte header, an XOR mask and an additive checksum. */
module Codec {
  import opened Bytes

  const HEADER: nat := 5
  const PAYLOAD: nat := 1024
  const BUFFER: nat := HEADER + PAYLOAD

  /** The packet code and the two keys, set once for the process. */
  datatype Keys = Keys(code: byte, key1: byte, key2: byte)

  datatype Header = Header(code: byte, len: nat, randKey: byte, checkSum: byte)

  /** The header in memory order; the length is a little-endian word. */
  function HeaderBytes(h: Header): (s: seq<byte>)
    requires h.len < 65536
    ensures |s| == HEADER
  {
    [h.code, h.len % 256, h.len / 256, h.randKey, h.checkSum]
  }

  function ParseHeader(s: seq<byte>): Header
    requires |s| == HEADER
  {
    Header(s[0], (s[1] as nat) + 256 * (s[2] as nat), s[3], s[4])
  }

  lemma HeaderRoundTrip(h: Header)
    requires h.len < 65536
    ensures ParseHeader(HeaderBytes(h)) == h
  {
  }

  function Sum(s: seq<byte>): nat {
    if s == [] then 0 else Sum(s[..|s| - 1]) + s[|s| - 1]
  }

  function Low(n: nat): byte { n % 256 }

  /** One byte under the three masks, in the order the code applies them. */
  function Mask3(x: byte, r: byte, k: Keys): byte { Xor(Xor(Xor(x, r), k.key1), k.key2) }

  function Mask(s: seq<byte>, r: byte, k: Keys): (m: seq<byte>)
    ensures |m| == |s| && forall i :: 0 <= i < |m| ==> m[i] == Mask3(s[i], r, k)
  {
    seq(|s|, i requires 0 <= i < |s| => Mask3(s[i], r, k))
  }

  /** What EnCode puts in the header for a payload, and what it sends. */
  function EncodedHeader(p: seq<byte>, r: byte, k: Keys): Header {
    Header(k.code, |p|, Xor(Xor(r, k.key1), k.key2), Mask3(Low(Sum(p)), r, k))
  }

  function Encode(p: seq<byte>, r: byte, k: Keys): (s: seq<byte>)
    requires |p| <= PAYLOAD
    ensures |s| == HEADER + |p|
  {
    HeaderBytes(EncodedHeader(p, r, k)) + Mask(p, r, k)
  }

  /** What DeCode recovers from a header: the random key, the checksum and the payload. */
  function RandKey(h: Header, k: Keys): byte { Xor(Xor(h.randKey, k.key1), k.key2) }

  function CheckSum(h: Header, k: Keys): byte { Mask3(h.checkSum, RandKey(h, k), k) }

  function Payload(h: Header, body: seq<byte>, k: Keys): (p: seq<byte>)
    ensures |p| == |body|
  {
    Mask(body, RandKey(h, k), k)
  }

  predicate Accepts(h: Header, body: seq<byte>, k: Keys) {
    h.code == k.code && Low(Sum(Payload(h, body, k))) == CheckSum(h, k)
  }

  // ---- Facts about masks ----

  lemma KeyRestored(r: byte, a: byte, b: byte)
    ensures Xor(Xor(Xor(Xor(r, a), b), a), b) == r
  {
    XorSwap(Xor(r, a), b, a);
    XorTwice(r, a);
    XorTwice(r, b);
  }

  lemma MaskTwice(x: byte, r: byte, k: Keys)
    ensures Mask3(Mask3(x, r, k), r, k) == x
  {
    hide Xor;
    var y := Xor(x, r);
    var z := Xor(y, k.key1);
    // Move the second `r` back over the two keys, cancel it, and the keys cancel in turn.
    XorSwap(z, k.key2, r);
    XorSwap(y, k.key1, r);
    XorTwice(x, r);
    KeyRestored(x, k.key1, k.key2);
  }

  lemma MaskApart(x: byte, y: byte, r: byte, k: Keys)
    requires x != y
    ensures Mask3(x, r, k) != Mask3(y, r, k)
  {
    hide Xor;
    XorApart(x, y, r);
    XorApart(Xor(x, r), Xor(y, r), k.key1);
    XorApart(Xor(Xor(x, r), k.key1), Xor(Xor(y, r), k.key1), k.key2);
  }

  // ---- The round trip ----

  /** The two parts of an encoded packet. */
  lemma EncodedParts(p: seq<byte>, r: byte, k: Keys)
    requires |p| <= PAYLOAD
    ensures var s := Encode(p, r, k);
            && s[..HEADER] == HeaderBytes(EncodedHeader(p, r, k)) && s[HEADER..] == Mask(p, r, k)
            && ParseHeader(s[..HEADER]) == EncodedHeader(p, r, k)
    ensures var h := EncodedHeader(p, r, k);
            h == Header(k.code, |p|, Xor(Xor(r, k.key1), k.key2), Mask3(Low(Sum(p)), r, k))
  {
    hide Xor, Mask3, Sum;
    var s, w := Encode(p, r, k), EncodedHeader(p, r, k);
    HeaderRoundTrip(w);
    assert s[..HEADER] == HeaderBytes(w);
    assert s[HEADER..] == Mask(p, r, k);
  }

  /** Decoding what was encoded, with the header that went over the wire, accepts and gives back the payload, the
      length and the checksum. */
  lemma RoundTrip(p: seq<byte>, r: byte, k: Keys)
    requires |p| <= PAYLOAD
    ensures var s := Encode(p, r, k);
            var h := ParseHeader(s[..HEADER]);
            && h.len == |p|
            && Accepts(h, s[HEADER..], k)
            && Payload(h, s[HEADER..], k) == p
            && RandKey(h, k) == r && CheckSum(h, k) == Low(Sum(p))
  {
    hide Xor, Mask3, Sum, HeaderBytes, ParseHeader, EncodedHeader;
    var s, body := Encode(p, r, k), Mask(p, r, k);
    var w := EncodedHeader(p, r, k);
    EncodedParts(p, r, k);
    KeyRestored(r, k.key1, k.key2);
    MaskTwice(Low(Sum(p)), r, k);
    forall i | 0 <= i < |p| ensures Payload(w, body, k)[i] == p[i] {
      MaskTwice(p[i], r, k);
    }
    assert Payload(w, body, k) == p;
  }

  // ---- The bytes on the wire ----

  /** Bit `i` of the exclusive or of four bytes. */
  function Parity(a: byte, b: byte, c: byte, d: byte, i: nat): nat {
    (BitOf(a, i) + BitOf(b, i) + BitOf(c, i) + BitOf(d, i)) % 2
  }

  lemma Mask3At(x: byte, r: byte, k: Keys, i: nat)
    requires i < 8
    ensures BitOf(Mask3(x, r, k), i) == Parity(x, r, k.key1, k.key2, i)
  {
    hide Xor, BitOf, Pow2;
    XorAt(x, r, i);
    XorAt(Xor(x, r), k.key1, i);
    XorAt(Xor(Xor(x, r), k.key1), k.key2, i);
  }

  lemma RandKeyAt(r: byte, k: Keys, i: nat)
    requires i < 8
    ensures BitOf(Xor(Xor(r, k.key1), k.key2), i) == Parity(0, r, k.key1, k.key2, i)
  {
    assert BitOf(0, i) == 0;
    hide Xor, BitOf, Pow2;
    XorAt(r, k.key1, i);
    XorAt(Xor(r, k.key1), k.key2, i);
  }

  /** The wire bytes of an encoded packet, bit by bit: the code, the length with its low byte first, the random key
      under both keys, and the checksum and each payload byte under all three. */
  lemma WireBits(p: seq<byte>, r: byte, k: Keys, i: nat)
    requires |p| <= PAYLOAD && i < 8
    ensures var s := Encode(p, r, k);
            && s[0] == k.code && s[1] == |p| % 256 && (s[2] as nat) * 256 == |p| - |p| % 256
            && BitOf(s[3], i) == Parity(0, r, k.key1, k.key2, i)
            && BitOf(s[4], i) == Parity(Sum(p) % 256, r, k.key1, k.key2, i)
            && forall j :: 0 <= j < |p| ==> BitOf(s[5 + j], i) == Parity(p[j], r, k.key1, k.key2, i)
  {
    hide Xor, Mask3, BitOf, Parity, Sum;
    var s, n := Encode(p, r, k), |p|;
    EncodedParts(p, r, k);
    assert s[..HEADER][3] == s[3] && s[..HEADER][4] == s[4];
    RandKeyAt(r, k, i);
    Mask3At(Low(Sum(p)), r, k, i);
    assert s[HEADER..] == Mask(p, r, k);
    hide Encode, EncodedHeader;
    forall j | 0 <= j < n ensures BitOf(s[5 + j], i) == Parity(p[j], r, k.key1, k.key2, i) {
      Mask3At(p[j], r, k, i);
      assert s[5 + j] == s[HEADER..][j];
    }
  }

  // ---- Error detection ----

  lemma {:induction false} SumAppend(a: seq<byte>, b: seq<byte>)
    ensures Sum(a + b) == Sum(a) + Sum(b)
    decreases |b|
  {
    if b == [] {
      assert a + b == a;
    } else {
      assert (a + b)[..|a + b| - 1] == a + b[..|b| - 1];
      SumAppend(a, b[..|b| - 1]);
    }
  }

  /** Changing one byte changes the sum by the difference of the bytes. */
  lemma SumChange(p: seq<byte>, i: nat, b: byte)
    requires i < |p|
    ensures Sum(p[i := b]) == Sum(p) - p[i] + b
  {
    var pre, post := p[..i], p[i + 1..];
    assert p == pre + [p[i]] + post && p[i := b] == pre + [b] + post;
    SumAppend(pre + [p[i]], post);
    SumAppend(pre + [b], post);
    SumAppend(pre, [p[i]]);
    SumAppend(pre, [b]);
    assert Sum([p[i]]) == p[i] && Sum([b]) == b;
  }

  lemma LowApart(x: nat, y: nat)
    requires x < y < x + 256
    ensures Low(x) != Low(y)
  {
  }

  /** Every change to a single byte of the body of an accepted packet is rejected. */
  lemma DetectsByteChange(h: Header, body: seq<byte>, k: Keys, i: nat, b: byte)
    requires Accepts(h, body, k) && i < |body| && b != body[i]
    ensures !Accepts(h, body[i := b], k)
  {
    hide Xor, Mask3, Sum;
    var r, p := RandKey(h, k), Payload(h, body, k);
    var c := Mask3(b, r, k);
    assert Payload(h, body[i := b], k) == p[i := c];
    MaskApart(b, body[i], r, k);
    SumChange(p, i, c);
    var x, y := Sum(p), Sum(p[i := c]);
    if x < y { LowApart(x, y); } else { LowApart(y, x); }
  }

  /** So is every change to the checksum byte alone. */
  lemma DetectsChecksumChange(h: Header, body: seq<byte>, k: Keys, c: byte)
    requires Accepts(h, body, k) && c != h.checkSum
    ensures !Accepts(h.(checkSum := c), body, k)
  {
    hide Xor, Mask3, Sum;
    MaskApart(c, h.checkSum, RandKey(h, k), k);
  }
}
