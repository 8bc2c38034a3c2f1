/** The two cursors of a packet as a stream, and the typed values pushed through it. */
module Cursor {
  import opened Bytes
  import opened Codec

  /** The bytes before the write cursor, the read cursor, and the data size. */
  datatype Cursor = Cursor(bytes: seq<byte>, read: nat, size: int)

  datatype Op = Push(d: seq<byte>) | Pop(n: nat)

  /** The conditions under which PushData and PopData do not crash. */
  ghost predicate Fits(c: Cursor, op: Op) {
    && c.read <= |c.bytes|
    && (op.Push? ==> |c.bytes| + |op.d| <= BUFFER)
    && (op.Pop? ==> op.n <= c.size && c.read + op.n <= |c.bytes|)
  }

  ghost function Apply(c: Cursor, op: Op): Cursor
    requires Fits(c, op)
  {
    if op.Push? then c.(bytes := c.bytes + op.d, size := c.size + |op.d|)
    else c.(read := c.read + op.n, size := c.size - op.n)
  }

  /** What the operation hands to its caller. */
  ghost function Output(c: Cursor, op: Op): seq<byte>
    requires Fits(c, op)
  {
    if op.Push? then [] else c.bytes[c.read..c.read + op.n]
  }

  ghost predicate AllFit(c: Cursor, ops: seq<Op>)
    decreases |ops|
  {
    ops == [] || (Fits(c, ops[0]) && AllFit(Apply(c, ops[0]), ops[1..]))
  }

  ghost function ApplyAll(c: Cursor, ops: seq<Op>): Cursor
    requires AllFit(c, ops)
    decreases |ops|
  {
    if ops == [] then c else ApplyAll(Apply(c, ops[0]), ops[1..])
  }

  ghost function Outputs(c: Cursor, ops: seq<Op>): seq<byte>
    requires AllFit(c, ops)
    decreases |ops|
  {
    if ops == [] then [] else Output(c, ops[0]) + Outputs(Apply(c, ops[0]), ops[1..])
  }

  ghost function Inputs(ops: seq<Op>): seq<byte> {
    if ops == [] then [] else (if ops[0].Push? then ops[0].d else []) + Inputs(ops[1..])
  }

  /** What a run leaves behind, given the bytes it was pushed and the bytes it handed out. */
  ghost predicate Streams(c: Cursor, e: Cursor, pushed: seq<byte>, popped: seq<byte>) {
    && c.read <= e.read <= |e.bytes|
    && e.bytes == c.bytes + pushed
    && |e.bytes| - e.read - e.size == |c.bytes| - c.read - c.size
    && popped == e.bytes[c.read..e.read]
  }

  lemma {:induction false} RunsAsStream(c: Cursor, ops: seq<Op>)
    requires AllFit(c, ops) && c.read <= |c.bytes|
    ensures Streams(c, ApplyAll(c, ops), Inputs(ops), Outputs(c, ops))
    decreases |ops|
  {
    if ops == [] {
      assert c.bytes + [] == c.bytes;
    } else {
      var d := Apply(c, ops[0]);
      RunsAsStream(d, ops[1..]);
      OneMore(c, ops[0], ApplyAll(d, ops[1..]), Inputs(ops[1..]), Outputs(d, ops[1..]));
    }
  }

  lemma OneMore(c: Cursor, op: Op, e: Cursor, pushed: seq<byte>, popped: seq<byte>)
    requires Fits(c, op) && Streams(Apply(c, op), e, pushed, popped)
    ensures Streams(c, e, (if op.Push? then op.d else []) + pushed, Output(c, op) + popped)
  {
    if op.Push? {
      assert c.bytes + (op.d + pushed) == (c.bytes + op.d) + pushed;
    } else {
      var d := Apply(c, op);
      assert e.bytes[c.read..d.read] == Output(c, op);
      assert e.bytes[c.read..e.read] == e.bytes[c.read..d.read] + e.bytes[d.read..e.read];
    }
  }

  /** Under any sequence of pushes and pops that does not crash, starting from a cleared packet with header bytes `h`,
      the write cursor stays five bytes ahead of the readable region and inside the buffer, and what comes out is a
      prefix of the header followed by everything pushed. */
  lemma CursorStream(h: seq<byte>, ops: seq<Op>)
    requires |h| == HEADER && AllFit(Cursor(h, 0, 0), ops)
    ensures var e := ApplyAll(Cursor(h, 0, 0), ops);
            && |e.bytes| == e.read + e.size + HEADER
            && |e.bytes| <= BUFFER && e.size >= 0
            && Outputs(Cursor(h, 0, 0), ops) <= h + Inputs(ops)
  {
    RunsAsStream(Cursor(h, 0, 0), ops);
    StaysInside(Cursor(h, 0, 0), ops);
  }

  /** What GetFreeSize answers, and the room PushData finds. */
  function FreeSize(c: Cursor): int { PAYLOAD - c.size }

  function PushRoom(c: Cursor): int { BUFFER - |c.bytes| }

  /** After any sequence of pushes and pops from a cleared packet, GetFreeSize promises more than PushData will take by
      exactly the bytes popped, so it is right if and only if nothing was popped. */
  lemma FreeSizeIff(h: seq<byte>, ops: seq<Op>)
    requires |h| == HEADER && AllFit(Cursor(h, 0, 0), ops)
    ensures var c := Cursor(h, 0, 0);
            var e := ApplyAll(c, ops);
            && FreeSize(e) == PushRoom(e) + |Outputs(c, ops)|
            && (FreeSize(e) == PushRoom(e) <==> Outputs(c, ops) == [])
  {
    RunsAsStream(Cursor(h, 0, 0), ops);
  }

  /** One byte pushed and popped: GetFreeSize answers 1024 and PushData crashes on 1024 bytes. */
  lemma FreeSizeCanExceed(h: seq<byte>, d: seq<byte>)
    requires |h| == HEADER && |d| == 1024
    ensures var c, ops := Cursor(h, 0, 0), [Push([7]), Pop(1)];
            && AllFit(c, ops)
            && FreeSize(ApplyAll(c, ops)) == 1024 && !Fits(ApplyAll(c, ops), Push(d))
  {
    var c, ops := Cursor(h, 0, 0), [Push([7]), Pop(1)];
    var e := Apply(c, ops[0]);
    assert ops[1..] == [Pop(1)] && ops[1..][1..] == [];
    assert AllFit(Apply(e, Pop(1)), []);
    assert AllFit(e, ops[1..]);
  }

  lemma {:induction false} StaysInside(c: Cursor, ops: seq<Op>)
    requires AllFit(c, ops) && |c.bytes| <= BUFFER && c.size >= 0
    ensures var e := ApplyAll(c, ops); |e.bytes| <= BUFFER && e.size >= 0
    decreases |ops|
  {
    if ops != [] {
      StaysInside(Apply(c, ops[0]), ops[1..]);
    }
  }

  // ---- Typed values, as the stream operators copy them ----

  function Pow256(w: nat): (r: nat)
    ensures r >= 1
  {
    if w == 0 then 1 else 256 * Pow256(w - 1)
  }

  /** A scalar of `width` bytes with the given bit pattern. */
  datatype Value = Value(width: nat, bits: nat)

  predicate IsScalar(v: Value) {
    v.width in {1, 2, 4, 8} && v.bits < Pow256(v.width)
  }

  /** The bytes of a scalar in memory, least significant first. */
  function ToBytes(bits: nat, w: nat): (s: seq<byte>)
    ensures |s| == w
  {
    if w == 0 then [] else [bits % 256] + ToBytes(bits / 256, w - 1)
  }

  lemma DivByMore(x: nat, y: nat)
    requires y >= 1
    ensures x / (256 * y) == (x / 256) / y
  {
    var q, r := (x / 256) / y, (x / 256) % y;
    assert x / 256 == q * y + r;
    assert x == q * (256 * y) + (256 * r + x % 256);
    DivUnique(x, 256 * y, q, 256 * r + x % 256);
  }

  /** The byte of weight 256 to the power of `i` is at position `i`. */
  lemma {:induction false} ByteAt(bits: nat, w: nat, i: nat)
    requires i < w
    ensures ToBytes(bits, w)[i] == (bits / Pow256(i)) % 256
    decreases w
  {
    if i > 0 {
      ByteAt(bits / 256, w - 1, i - 1);
      DivByMore(bits, Pow256(i - 1));
    }
  }

  function FromBytes(s: seq<byte>): nat {
    if s == [] then 0 else (s[0] as nat) + 256 * FromBytes(s[1..])
  }

  lemma {:induction false} BytesRoundTrip(bits: nat, w: nat)
    requires bits < Pow256(w)
    ensures FromBytes(ToBytes(bits, w)) == bits
    decreases w
  {
    if w > 0 {
      BytesRoundTrip(bits / 256, w - 1);
      assert ToBytes(bits, w)[1..] == ToBytes(bits / 256, w - 1);
    }
  }

  /** Signed scalars in two's complement. */
  function Pattern(x: int, w: nat): int { if x < 0 then x + Pow256(w) else x }

  function Signed(bits: int, w: nat): int { if 2 * bits < Pow256(w) then bits else bits - Pow256(w) }

  lemma SignedRoundTrip(x: int, w: nat)
    requires w > 0 && 0 <= 2 * x + Pow256(w) && 2 * x < Pow256(w)
    ensures 0 <= Pattern(x, w) < Pow256(w) && Signed(FromBytes(ToBytes(Pattern(x, w), w)), w) == x
  {
    BytesRoundTrip(Pattern(x, w), w);
  }

  function Serialize(vs: seq<Value>): seq<byte> {
    if vs == [] then [] else ToBytes(vs[0].bits, vs[0].width) + Serialize(vs[1..])
  }

  function Widths(vs: seq<Value>): (ws: seq<nat>)
    ensures |ws| == |vs|
  {
    if vs == [] then [] else [vs[0].width] + Widths(vs[1..])
  }

  /** Popping scalars of the given widths one after the other; a pop that finds too little data crashes. */
  function Parse(ws: seq<nat>, s: seq<byte>): seq<Value> {
    if ws == [] || |s| < ws[0] then []
    else [Value(ws[0], FromBytes(s[..ws[0]]))] + Parse(ws[1..], s[ws[0]..])
  }

  lemma ParseOne(v: Value, ws: seq<nat>, s: seq<byte>)
    requires IsScalar(v)
    ensures Parse([v.width] + ws, ToBytes(v.bits, v.width) + s) == [v] + Parse(ws, s)
  {
    hide ToBytes, FromBytes;
    var b := ToBytes(v.bits, v.width);
    assert (b + s)[..v.width] == b && (b + s)[v.width..] == s;
    assert ([v.width] + ws)[1..] == ws;
    BytesRoundTrip(v.bits, v.width);
  }

  /** Typed values come out in the order they were pushed, whatever follows them. */
  lemma {:induction false} ValuesRoundTrip(vs: seq<Value>, more: seq<byte>)
    requires forall v :: v in vs ==> IsScalar(v)
    ensures Parse(Widths(vs), Serialize(vs) + more) == vs
    decreases |vs|
  {
    hide ToBytes, FromBytes, IsScalar;
    if vs != [] {
      var v, b, rest := vs[0], ToBytes(vs[0].bits, vs[0].width), Serialize(vs[1..]);
      assert v in vs && Widths(vs) == [v.width] + Widths(vs[1..]);
      assert Serialize(vs) + more == b + (rest + more);
      hide Serialize, Widths, Parse;
      ParseOne(v, Widths(vs[1..]), rest + more);
      ValuesRoundTrip(vs[1..], more);
      assert vs == [v] + vs[1..];
    }
  }
}
