/** The receive path of a session: the ring takes what the socket delivers and CompleteRecv cuts it into packets. */
module Receiver {
  import opened Bytes
  import opened Ring
  import opened Codec
  import opened Cursor
  import opened Framing
  import opened RingBuffer
  import opened Packet

  /** Each packet is ready to be read and holds the payload beside it. */
  ghost predicate Holds(packets: seq<CPacket>, payloads: seq<seq<byte>>)
    reads packets, set p | p in packets :: p.buffer
  {
    && |packets| == |payloads|
    && forall i :: 0 <= i < |packets| ==> packets[i].Valid() && packets[i].Readable() == payloads[i]
  }

  lemma HoldsOneMore(packets: seq<CPacket>, payloads: seq<seq<byte>>, packet: CPacket)
    requires Holds(packets, payloads) && packet.Valid()
    ensures Holds(packets + [packet], payloads + [packet.Readable()])
  {
  }

  /** A copy over the front of a buffer. */
  lemma SplicedFront(s: seq<byte>, d: seq<byte>)
    requires |d| <= |s|
    ensures Spliced(s, 0, d) == d + s[|d|..]
  {
  }

  method PeekHeader(ring: CRingBuffer) returns (h: Header)
    requires ring.Valid() && HEADER <= |ring.Bytes()|
    ensures h == ParseHeader(ring.Bytes()[..HEADER])
  {
    hide ParseHeader, Spliced, Contents;
    var raw := new byte[HEADER](_ => 0);
    SplicedFront(raw[..], ring.Bytes()[..HEADER]);
    var m := ring.Peek(raw, 0, HEADER);
    assert raw[..] == ring.Bytes()[..HEADER];
    h := ParseHeader(raw[..]);
  }

  /** Pushes a whole frame, decodes it and skips its header, as CompleteRecv does with a new packet. */
  method Open(packet: CPacket, ghost frame: seq<byte>, h: Header, k: Keys) returns (why: Outcome)
    requires packet.Valid() && packet.gap == 5 && packet.readPos == packet.dataSize == 0
    requires |frame| == HEADER + h.len <= BUFFER && packet.buffer[..|frame|] == frame && h.code == k.code
    modifies packet`writePos, packet`dataSize, packet`readPos, packet.buffer
    ensures packet.Valid()
    ensures why == if !Fits(FRESH, Push(frame)) then Crash else if Accepts(h, frame[HEADER..], k) then More else BadSum
    ensures why == More ==> packet.Readable() == Payload(h, frame[HEADER..], k)
  {
    hide Accepts, Payload, Mask, CheckSum, RandKey;
    if BUFFER - packet.writePos < h.len + HEADER { return Crash; }
    packet.PushSize(h.len + HEADER);
    assert packet.buffer[HEADER..HEADER + h.len] == frame[HEADER..];
    var ok, out := packet.DeCode(h, k);
    if !ok { return BadSum; }
    assert packet.buffer[HEADER..HEADER + h.len] == Payload(h, frame[HEADER..], k);
    packet.PopSize(HEADER);
    return More;
  }

  /** Moves one frame out of the ring into a new packet and decodes it there. The copy is made before PushData looks at
      its room; the outcome Overrun stands in its place when it would leave the packet's buffer. */
  method TakeFrame(ring: CRingBuffer, h: Header, k: Keys) returns (why: Outcome, packet: CPacket)
    requires ring.Valid() && HEADER + h.len <= |ring.Bytes()| && h.code == k.code
    modifies ring`front
    ensures ring.Valid() && fresh(packet) && fresh(packet.buffer) && packet.Valid()
    ensures var s := old(ring.Bytes());
            && (why == Overrun <==> h.len > 1024)
            && ring.Bytes() == if why == Overrun then s else s[HEADER + h.len..]
    ensures var frame := old(ring.Bytes())[..HEADER + h.len];
            && (why != Overrun ==>
                  why == if !Fits(FRESH, Push(frame)) then Crash
                         else if Accepts(h, frame[HEADER..], k) then More else BadSum)
            && (why == More ==> packet.Readable() == Payload(h, frame[HEADER..], k))
  {
    hide Accepts, Payload, Spliced, Contents, Mask;
    ghost var frame := ring.Bytes()[..HEADER + h.len];
    packet := new CPacket();
    if HEADER + h.len > packet.buffer.Length { return Overrun, packet; }
    SplicedFront(packet.buffer[..], frame);
    var m := ring.Dequeue(packet.buffer, 0, h.len + HEADER);
    assert packet.buffer[..|frame|] == frame;
    why := Open(packet, frame, h, k);
  }

  /** `s` has yielded `got`, and `rest` is still to be cut. */
  ghost predicate Cut(s: seq<byte>, got: seq<seq<byte>>, rest: seq<byte>, k: Keys) {
    var p, q := ParseAll(s, k), ParseAll(rest, k);
    p.packets == got + q.packets && p.rest == q.rest && p.outcome == q.outcome
  }

  lemma CutNothing(s: seq<byte>, k: Keys)
    ensures Cut(s, [], s, k)
  {
  }

  lemma CutOne(s: seq<byte>, got: seq<seq<byte>>, rest: seq<byte>, h: Header, k: Keys)
    requires Cut(s, got, rest, k) && HasFrame(rest, k) && h == ParseHeader(rest[..HEADER])
    ensures Cut(s, got + [Payload(h, rest[HEADER..HEADER + h.len], k)], rest[HEADER + h.len..], k)
  {
    hide ParseAll, HasFrame, Payload, ParseHeader;
    assert HEADER <= |rest| && HEADER + ParseHeader(rest[..HEADER]).len <= |rest| by { FrameIsInside(rest, k); }
    var left := rest[HEADER + h.len..];
    assert rest + [] == rest && left + [] == left;
    TakesFrame(rest, [], k);
    var one, more := [Payload(h, rest[HEADER..HEADER + h.len], k)], ParseAll(left, k).packets;
    assert got + (one + more) == (got + one) + more;
  }

  lemma FrameIsInside(s: seq<byte>, k: Keys)
    requires HasFrame(s, k)
    ensures HEADER <= |s| && HEADER + ParseHeader(s[..HEADER]).len <= |s|
  {
  }

  /** When the loop stops at `rest`, what it delivered is all there is. */
  lemma Stop(s: seq<byte>, got: seq<seq<byte>>, rest: seq<byte>, k: Keys)
    requires Cut(s, got, rest, k) && !HasFrame(rest, k)
    ensures ParseAll(s, k) == Parsed(got, ParseAll(rest, k).rest, ParseAll(rest, k).outcome)
  {
    hide Accepts, Payload, ParseHeader;
    StopsAtOnce(rest, [], k);
    assert got + [] == got;
  }

  /** One turn of the loop: delivers the first frame in the ring, or says why the loop stops. */
  method NextPacket(ring: CRingBuffer, used: int, k: Keys) returns (why: Outcome, packets: seq<CPacket>)
    requires ring.Valid() && 0 < used == |ring.Bytes()|
    modifies ring`front
    ensures ring.Valid() && |packets| <= 1 && forall p :: p in packets ==> fresh(p) && fresh(p.buffer) && p.Valid()
    ensures packets == [] ==>
              && !HasFrame(old(ring.Bytes()), k)
              && why == ParseAll(old(ring.Bytes()), k).outcome && ring.Bytes() == ParseAll(old(ring.Bytes()), k).rest
    ensures packets != [] ==>
              && HasFrame(old(ring.Bytes()), k)
              && var s := old(ring.Bytes());
                 var h := ParseHeader(s[..HEADER]);
                 packets[0].Readable() == Payload(h, s[HEADER..HEADER + h.len], k)
                 && ring.Bytes() == s[HEADER + h.len..]
  {
    hide Accepts, Payload, ParseHeader, Contents;
    if HEADER > used { return More, []; }
    var h := PeekHeader(ring);
    if BUF < h.len { return TooBig, []; }
    if HEADER + h.len > used { return More, []; }
    if h.code != k.code { return BadCode, []; }
    ghost var s := ring.Bytes();
    assert s[..HEADER + h.len][HEADER..] == s[HEADER..HEADER + h.len];
    var packet;
    why, packet := TakeFrame(ring, h, k);
    if why != More { return why, []; }
    return More, [packet];
  }

  /** The bytes `data` have arrived in place; the loop then delivers every complete packet in the ring and says why it
      stopped. What it leaves in the ring is what the next call starts from. */
  method CompleteRecv(ring: CRingBuffer, data: seq<byte>, k: Keys) returns (packets: seq<CPacket>, why: Outcome)
    requires ring.Valid() && |data| <= ring.size - 1 - |ring.Bytes()|
    modifies ring`front, ring`rear, ring.buffer
    ensures ring.Valid() && forall p :: p in packets ==> fresh(p) && fresh(p.buffer)
    ensures var p := ParseAll(old(ring.Bytes()) + data, k);
            why == p.outcome && ring.Bytes() == p.rest && Holds(packets, p.packets)
  {
    hide Accepts, Payload, ParseHeader, Contents, Cut, ParseAll, HasFrame, Holds;
    ring.Receive(data);
    ghost var s, got := ring.Bytes(), [];
    packets := [];
    HoldsNothing();
    CutNothing(s, k);
    var used := ring.GetUseSize();
    while 0 < used
      invariant ring.Valid() && used == |ring.Bytes()| && Cut(s, got, ring.Bytes(), k) && Holds(packets, got)
      invariant forall p :: p in packets ==> fresh(p) && fresh(p.buffer)
    {
      ghost var rest := ring.Bytes();
      var next;
      why, next := NextPacket(ring, used, k);
      if next == [] {
        Stop(s, got, rest, k);
        return;
      }
      FrameIsInside(rest, k);
      ghost var h := ParseHeader(rest[..HEADER]);
      CutOne(s, got, rest, h, k);
      ghost var was := got;
      got := got + [Payload(h, rest[HEADER..HEADER + h.len], k)];
      HoldsOneMore(packets, was, next[0]);
      assert next == [next[0]];
      packets := packets + next;
      used := ring.GetUseSize();
    }
    why := More;
    NothingParsed(k);
    NoFrameIn(k);
    Stop(s, got, [], k);
  }

  lemma HoldsNothing()
    ensures Holds([], [])
  {
  }

  lemma NoFrameIn(k: Keys)
    ensures !HasFrame([], k)
  {
  }

  // ---- A whole connection ----

  /** Every chunk fits the room it finds, as it must: a receive is posted for exactly the free stretches. */
  ghost predicate RoomFor(rest: seq<byte>, chunks: seq<seq<byte>>, size: int, k: Keys)
    decreases |chunks|
  {
    chunks == [] ||
    (&& |rest| + |chunks[0]| <= size - 1
     && var p := ParseAll(rest + chunks[0], k);
        p.outcome == More ==> RoomFor(p.rest, chunks[1..], size, k))
  }

  lemma HoldsBoth(ps: seq<CPacket>, xs: seq<seq<byte>>, qs: seq<CPacket>, ys: seq<seq<byte>>)
    requires Holds(ps, xs) && Holds(qs, ys)
    ensures Holds(ps + qs, xs + ys)
  {
  }

  /** Serves completed receives, chunk by chunk, until the stream ends or the connection is given up. */
  method Serve(ring: CRingBuffer, chunks: seq<seq<byte>>, k: Keys) returns (packets: seq<CPacket>, why: Outcome)
    requires ring.Valid() && RoomFor(ring.Bytes(), chunks, ring.size, k)
    modifies ring`front, ring`rear, ring.buffer
    ensures ring.Valid() && forall p :: p in packets ==> fresh(p) && fresh(p.buffer)
    ensures var p := Feed(old(ring.Bytes()), chunks, k);
            why == p.outcome && ring.Bytes() == p.rest && Holds(packets, p.packets)
    decreases |chunks|
  {
    hide ParseAll, Contents, Holds;
    HoldsNothing();
    if chunks == [] { return [], More; }
    packets, why := CompleteRecv(ring, chunks[0], k);
    if why == More {
      ghost var xs := ParseAll(old(ring.Bytes()) + chunks[0], k).packets;
      var more;
      more, why := Serve(ring, chunks[1..], k);
      ghost var ys := Feed(ParseAll(old(ring.Bytes()) + chunks[0], k).rest, chunks[1..], k).packets;
      HoldsBoth(packets, xs, more, ys);
      packets := packets + more;
    }
  }

  /** Receives of up to this size always find room in a session's ring: it holds BUF - 1 bytes and what waits there is
      shorter than one packet. */
  const CHUNK: nat := BUF - HEADER - FITS

  ghost predicate Small(chunks: seq<seq<byte>>) {
    forall c :: c in chunks ==> |c| <= CHUNK
  }

  /** `s` has arrived and `chunks` are still to come. */
  lemma {:induction false} NeverJams(ps: seq<seq<byte>>, rs: seq<byte>, s: seq<byte>, chunks: seq<seq<byte>>, k: Keys)
    requires |ps| == |rs| && Receivable(ps) && (forall p :: p in ps ==> Sendable(p))
    requires s + Join(chunks) == Wire(ps, rs, k) && Small(chunks)
    ensures RoomFor(ParseAll(s, k).rest, chunks, BUF, k)
    decreases |chunks|
  {
    hide ParseAll, Wire, Receivable, Sendable;
    if chunks != [] {
      var c, rest := chunks[0], ParseAll(s, k).rest;
      assert s + Join(chunks) == (s + c) + Join(chunks[1..]);
      LeftoverIsShort(ps, rs, s, k);
      ParseMore(s, c, k);
      NeverJams(ps, rs, s + c, chunks[1..], k);
    }
  }

  /** A connection from end to end: a new ring, the stream of any encoded payloads cut into any chunks that find room,
      and the packets delivered are exactly those payloads, in order, if and only if each has at most 1019 bytes.
      Otherwise PushData crashes at the first longer one. */
  method Connection(ghost ps: seq<seq<byte>>, ghost rs: seq<byte>, chunks: seq<seq<byte>>, k: Keys)
    returns (packets: seq<CPacket>, why: Outcome)
    requires |ps| == |rs| && forall p :: p in ps ==> Sendable(p)
    requires Join(chunks) == Wire(ps, rs, k) && RoomFor([], chunks, BUF, k)
    ensures if forall p :: p in ps ==> |p| <= 1019 then why == More && Holds(packets, ps)
            else why == Crash && |packets| < |ps| && Holds(packets, ps[..|packets|]) && 1019 < |ps[|packets|]|
  {
    hide ParseAll, Wire, Sendable, Holds, Feed, RoomFor;
    var ring := new CRingBuffer(BUF);
    FramesEndToEnd(ps, rs, chunks, k);
    packets, why := Serve(ring, chunks, k);
    HoldsAsMany(packets, Feed([], chunks, k).packets);
  }

  lemma HoldsAsMany(packets: seq<CPacket>, payloads: seq<seq<byte>>)
    ensures Holds(packets, payloads) ==> |packets| == |payloads|
  {
  }
}
