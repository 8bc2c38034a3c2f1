/** CPacket over its buffer. */
module Packet {
  import opened Bytes
  import opened Codec
  import opened Cursor

  class CPacket {
    const buffer: array<byte>
    var writePos: int
    var readPos: int
    var dataSize: int
    var headerSet: bool
    var refCount: int

    /** How far the write cursor is ahead of the readable region: 5, or 2 once a short header is set. */
    ghost var gap: int

    ghost predicate Valid()
      reads this
    {
      && buffer.Length == BUFFER
      && (gap == 5 || (gap == 2 && headerSet))
      && 0 <= readPos && 0 <= dataSize && 5 <= readPos + gap
      && writePos == readPos + dataSize + gap <= BUFFER
    }

    ghost function View(): Cursor
      reads this, buffer
      requires Valid()
    {
      Cursor(buffer[..writePos], readPos, dataSize)
    }

    /** The bytes between the cursors. */
    ghost function Readable(): seq<byte>
      reads this, buffer
      requires Valid()
    {
      buffer[readPos..readPos + dataSize]
    }

    constructor ()
      ensures Valid() && fresh(buffer) && gap == 5 && !headerSet && refCount == 0
      ensures View() == Cursor([0, 0, 0, 0, 0], 0, 0) && forall i :: 0 <= i < BUFFER ==> buffer[i] == 0
    {
      buffer := new byte[BUFFER](_ => 0);
      dataSize := 0;
      readPos := 0;
      writePos := HEADER;
      headerSet := false;
      refCount := 0;
      gap := 5;
    }

    method Clear()
      requires buffer.Length == BUFFER
      modifies this, buffer
      ensures Valid() && gap == 5 && !headerSet && refCount == 0
      ensures View() == Cursor([0, 0, 0, 0, 0], 0, 0) && forall i :: 0 <= i < BUFFER ==> buffer[i] == 0
    {
      forall i | 0 <= i < BUFFER { buffer[i] := 0; }
      dataSize := 0;
      readPos := 0;
      writePos := HEADER;
      headerSet := false;
      refCount := 0;
      gap := 5;
    }

    /** Counts from the data size, not from the write cursor, and so promises more room than PushData has by exactly
        the number of bytes popped, which is none if and only if the reader is where it started. */
    method GetFreeSize() returns (n: int)
      requires Valid()
      ensures n - (BUFFER - writePos) == readPos + gap - HEADER >= 0
      ensures n == BUFFER - writePos <==> readPos + gap == HEADER
    {
      n := PAYLOAD - dataSize;
    }

    /** PushData: the caller must leave room, or the program crashes. */
    method PushData(src: seq<byte>)
      requires Valid() && BUFFER - writePos >= |src|
      modifies this`writePos, this`dataSize, buffer
      ensures Valid() && Fits(old(View()), Push(src)) && View() == Apply(old(View()), Push(src))
      ensures forall i :: writePos <= i < BUFFER ==> buffer[i] == old(buffer[i])
    {
      forall i | writePos <= i < writePos + |src| { buffer[i] := src[i - writePos]; }
      writePos := writePos + |src|;
      dataSize := dataSize + |src|;
    }

    /** The index form, for bytes already written at the write cursor. */
    method PushSize(n: int)
      requires Valid() && 0 <= n <= BUFFER - writePos
      modifies this`writePos, this`dataSize
      ensures Valid() && writePos == old(writePos) + n
      ensures Fits(old(View()), Push(buffer[old(writePos)..writePos]))
      ensures View() == Apply(old(View()), Push(buffer[old(writePos)..writePos]))
    {
      writePos := writePos + n;
      dataSize := dataSize + n;
    }

    /** PopData: the caller must not ask for more than the data size, or the program crashes. */
    method PopData(n: nat) returns (out: seq<byte>)
      requires Valid() && n <= dataSize
      modifies this`readPos, this`dataSize
      ensures Valid() && Fits(old(View()), Pop(n)) && View() == Apply(old(View()), Pop(n))
      ensures out == Output(old(View()), Pop(n))
    {
      out := buffer[readPos..readPos + n];
      assert out == buffer[..writePos][readPos..readPos + n];
      readPos := readPos + n;
      dataSize := dataSize - n;
    }

    method PopSize(n: nat)
      requires Valid() && n <= dataSize
      modifies this`readPos, this`dataSize
      ensures Valid() && Fits(old(View()), Pop(n)) && View() == Apply(old(View()), Pop(n))
    {
      readPos := readPos + n;
      dataSize := dataSize - n;
    }

    /** The stream operators. */
    method PushValue(v: Value)
      requires Valid() && IsScalar(v) && BUFFER - writePos >= v.width
      modifies this`writePos, this`dataSize, buffer
      ensures Valid() && View() == Apply(old(View()), Push(ToBytes(v.bits, v.width)))
    {
      PushData(ToBytes(v.bits, v.width));
    }

    method PopValue(w: nat) returns (v: Value)
      requires Valid() && w <= dataSize
      modifies this`readPos, this`dataSize
      ensures Valid() && View() == Apply(old(View()), Pop(w))
      ensures v == Value(w, FromBytes(Output(old(View()), Pop(w))))
    {
      var b := PopData(w);
      v := Value(w, FromBytes(b));
    }

    /** The first caller to set a header wins; later calls change nothing. */
    method SetHeader(h: seq<byte>)
      requires Valid() && |h| == HEADER
      modifies this`headerSet, buffer
      ensures Valid() && headerSet
      ensures buffer[..] == if old(headerSet) then old(buffer[..]) else h + old(buffer[HEADER..])
    {
      if headerSet { return; }
      headerSet := true;
      forall i | 0 <= i < HEADER { buffer[i] := h[i]; }
    }

    method SetHeaderCustom(h: seq<byte>)
      requires Valid() && |h| <= HEADER
      modifies this`headerSet, buffer
      ensures Valid() && headerSet
      ensures buffer[..] == if old(headerSet) then old(buffer[..])
                            else old(buffer[..HEADER - |h|]) + h + old(buffer[HEADER..])
    {
      if headerSet { return; }
      headerSet := true;
      var at := HEADER - |h|;
      forall i | at <= i < at + |h| { buffer[i] := h[i - at]; }
    }

    /** A two-byte header in front of the payload; the reader starts at it. */
    method SetHeaderShort(n: nat)
      requires Valid() && n < 65536
      modifies this`headerSet, this`readPos, this`gap, buffer
      ensures Valid() && headerSet
      ensures old(headerSet) ==> buffer[..] == old(buffer[..]) && readPos == old(readPos) && gap == old(gap)
      ensures !old(headerSet) ==>
                && buffer[..] == old(buffer[..3]) + [n % 256, n / 256] + old(buffer[HEADER..])
                && readPos == old(readPos) + 3 && gap == 2
    {
      if headerSet { return; }
      headerSet := true;
      buffer[3] := n % 256;
      var high := n / 256;
      assert 256 * high <= n;
      buffer[4] := high;
      readPos := readPos + 3;
      gap := 2;
    }

    /** The running checksum of the first `n` payload bytes. */
    method SumPayload(n: nat) returns (sum: nat)
      requires buffer.Length == BUFFER && HEADER + n <= BUFFER
      ensures sum == Sum(buffer[HEADER..HEADER + n])
    {
      ghost var p := buffer[HEADER..HEADER + n];
      sum := 0;
      var i := HEADER;
      while i < HEADER + n
        invariant HEADER <= i <= HEADER + n && sum == Sum(p[..i - HEADER])
      {
        ghost var q := p[..i + 1 - HEADER];
        assert q[..|q| - 1] == p[..i - HEADER] && q[|q| - 1] == buffer[i];
        sum := sum + buffer[i];
        i := i + 1;
      }
      assert p[..n] == p;
    }

    /** Masks the first `n` payload bytes in place. */
    method MaskPayload(n: nat, r: byte, k: Keys)
      requires buffer.Length == BUFFER && HEADER + n <= BUFFER
      modifies buffer
      ensures buffer[..] == old(buffer[..HEADER]) + Mask(old(buffer[HEADER..HEADER + n]), r, k)
                            + old(buffer[HEADER + n..])
    {
      ghost var b := buffer[..];
      var i := HEADER;
      while i < HEADER + n
        invariant HEADER <= i <= HEADER + n
        invariant forall j :: HEADER <= j < i ==> buffer[j] == Mask3(b[j], r, k)
        invariant forall j :: 0 <= j < BUFFER && !(HEADER <= j < i) ==> buffer[j] == b[j]
      {
        buffer[i] := Mask3(buffer[i], r, k);
        i := i + 1;
      }
    }

    method Stamp(wire: seq<byte>)
      requires buffer.Length == BUFFER && |wire| == HEADER
      modifies buffer
      ensures buffer[..] == wire + old(buffer[HEADER..])
    {
      forall j | 0 <= j < HEADER { buffer[j] := wire[j]; }
    }

    /** Masks the payload and writes the header, once: a second call finds the flag set and does nothing. */
    method EnCode(k: Keys, rand: byte)
      requires Valid()
      modifies this`headerSet, buffer
      ensures Valid() && headerSet
      ensures buffer[..] == if old(headerSet) then old(buffer[..])
                            else Encode(old(buffer[HEADER..HEADER + dataSize]), rand, k)
                                 + old(buffer[HEADER + dataSize..])
    {
      hide Mask3, Sum, HeaderBytes, Mask;
      if headerSet { return; }
      headerSet := true;
      ghost var b := buffer[..];
      var sum := SumPayload(dataSize);
      var check := Mask3(Low(sum), rand, k);
      MaskPayload(dataSize, rand, k);
      var wire := HeaderBytes(Header(k.code, dataSize, Xor(Xor(rand, k.key1), k.key2), check));
      ghost var c := buffer[..];
      Stamp(wire);
      assert c[HEADER..] == Mask(b[HEADER..HEADER + dataSize], rand, k) + b[HEADER + dataSize..];
    }

    /** Unmasks the payload behind the given header and checks it. The header is updated in place with the random key
        and the checksum it carried. */
    method DeCode(h: Header, k: Keys) returns (ok: bool, out: Header)
      requires Valid() && (h.code == k.code ==> h.len + HEADER <= BUFFER)
      modifies buffer
      ensures Valid()
      ensures h.code != k.code ==> !ok && buffer[..] == old(buffer[..]) && out == h
      ensures h.code == k.code ==>
                && ok == Accepts(h, old(buffer[HEADER..HEADER + h.len]), k)
                && out == h.(randKey := RandKey(h, k), checkSum := CheckSum(h, k))
                && buffer[..] == old(buffer[..HEADER]) + Payload(h, old(buffer[HEADER..HEADER + h.len]), k)
                                 + old(buffer[HEADER + h.len..])
    {
      hide Mask3, Sum, Mask;
      out := h;
      if h.code != k.code { return false, out; }
      out := out.(randKey := Xor(Xor(h.randKey, k.key1), k.key2));
      out := out.(checkSum := Mask3(h.checkSum, out.randKey, k));
      ghost var p := Payload(h, buffer[HEADER..HEADER + h.len], k);
      MaskPayload(h.len, out.randKey, k);
      assert buffer[HEADER..HEADER + h.len] == p;
      var sum := SumPayload(h.len);
      if Low(sum) != out.checkSum { return false, out; }
      if out.len >= BUFFER { return false, out; }
      return true, out;
    }
  }

  /** GetFreeSize on a packet after one byte has gone through it. */
  method FreeSizeAfterPop() returns (packet: CPacket, free: int)
    ensures fresh(packet) && packet.Valid() && free == 1024 && BUFFER - packet.writePos == 1023
  {
    packet := new CPacket();
    packet.PushData([7]);
    var out := packet.PopData(1);
    free := packet.GetFreeSize();
  }
}
