/** Cutting a byte stream back into packets, as the server does when a receive completes. */
module Framing {
  import opened Bytes
  import opened Codec
  import opened Cursor

  /** The largest length a header may announce. */
  const BUF := 4000

  /** Why the receive loop stops: it needs more bytes, or it gives the connection up, or the frame is longer than the
      buffer of the packet it is copied to, or PushData has no room for it. */
  datatype Outcome = More | TooBig | BadCode | BadSum | Overrun | Crash

  datatype Parsed = Parsed(packets: seq<seq<byte>>, rest: seq<byte>, outcome: Outcome)

  /** The cursors of a packet that was just allocated. */
  const FRESH := Cursor([0, 0, 0, 0, 0], 0, 0)

  /** What the loop makes of the bytes `s` in the receive queue. The frame is copied to the start of a new packet's
      buffer, and only then does PushData check its room. What follows a copy past the buffer is not defined. */
  ghost function ParseAll(s: seq<byte>, k: Keys): Parsed
    decreases |s|
  {
    if |s| < HEADER then Parsed([], s, More)
    else
      var h := ParseHeader(s[..HEADER]);
      if BUF < h.len then Parsed([], s, TooBig)
      else if HEADER + h.len > |s| then Parsed([], s, More)
      else if h.code != k.code then Parsed([], s, BadCode)
      else if HEADER + h.len > BUFFER then Parsed([], s, Overrun)
      else
        var body, rest := s[HEADER..HEADER + h.len], s[HEADER + h.len..];
        if !Fits(FRESH, Push(s[..HEADER + h.len])) then Parsed([], rest, Crash)
        else if !Accepts(h, body, k) then Parsed([], rest, BadSum)
        else
          var p := ParseAll(rest, k);
          p.(packets := [Payload(h, body, k)] + p.packets)
  }

  /** The same when the bytes arrive in chunks: the loop runs after each, on what was left over and the new chunk. */
  ghost function Feed(rest: seq<byte>, chunks: seq<seq<byte>>, k: Keys): Parsed
    decreases |chunks|
  {
    if chunks == [] then Parsed([], rest, More)
    else
      var p := ParseAll(rest + chunks[0], k);
      if p.outcome != More then p
      else
        var q := Feed(p.rest, chunks[1..], k);
        q.(packets := p.packets + q.packets)
  }

  ghost function Join(chunks: seq<seq<byte>>): seq<byte> {
    if chunks == [] then [] else chunks[0] + Join(chunks[1..])
  }

  // ---- Chunks do not matter ----

  /** The first frame of `s`, when `s` has one, is the first frame of `s + t`. */
  lemma SameFrame(s: seq<byte>, t: seq<byte>, n: nat)
    requires HEADER + n <= |s|
    ensures (s + t)[..HEADER] == s[..HEADER] && (s + t)[..HEADER + n] == s[..HEADER + n]
    ensures (s + t)[HEADER..HEADER + n] == s[HEADER..HEADER + n] && (s + t)[HEADER + n..] == s[HEADER + n..] + t
  {
  }

  /** Does `s` begin with a frame that is accepted? */
  ghost predicate HasFrame(s: seq<byte>, k: Keys) {
    && HEADER <= |s|
    && var h := ParseHeader(s[..HEADER]);
       && HEADER + h.len <= |s| && Fits(FRESH, Push(s[..HEADER + h.len]))
       && h.code == k.code && Accepts(h, s[HEADER..HEADER + h.len], k)
  }

  /** When it does not, the loop stops at once, and more bytes help only if it was waiting for more. */
  lemma StopsAtOnce(s: seq<byte>, t: seq<byte>, k: Keys)
    requires !HasFrame(s, k)
    ensures var p := ParseAll(s, k);
            if p.outcome == More then p == Parsed([], s, More)
            else p.packets == [] && ParseAll(s + t, k) == Parsed([], p.rest + t, p.outcome)
  {
    hide Accepts, Payload, ParseHeader;
    if |s| >= HEADER {
      SameFrame(s, t, 0);
      var h := ParseHeader(s[..HEADER]);
      if HEADER + h.len <= |s| {
        SameFrame(s, t, h.len);
      }
    }
  }

  /** When it does, the frame is taken off the front. */
  lemma TakesFrame(s: seq<byte>, t: seq<byte>, k: Keys)
    requires HasFrame(s, k)
    ensures HasFrame(s + t, k)
    ensures var h := ParseHeader(s[..HEADER]);
            var p := [Payload(h, s[HEADER..HEADER + h.len], k)];
            var q := ParseAll(s[HEADER + h.len..] + t, k);
            ParseAll(s + t, k) == q.(packets := p + q.packets)
  {
    hide Accepts, Payload, ParseHeader;
    SameFrame(s, t, ParseHeader(s[..HEADER]).len);
  }

  lemma {:induction false} ParseMore(s: seq<byte>, t: seq<byte>, k: Keys)
    ensures var p, q := ParseAll(s, k), ParseAll(s + t, k);
            if p.outcome == More
            then q == ParseAll(p.rest + t, k).(packets := p.packets + ParseAll(p.rest + t, k).packets)
            else q == Parsed(p.packets, p.rest + t, p.outcome)
    decreases |s|
  {
    hide Accepts, Payload, ParseHeader, ParseAll;
    if HasFrame(s, k) {
      var rest := s[HEADER + ParseHeader(s[..HEADER]).len..];
      assert s + [] == s && rest + [] == rest;
      TakesFrame(s, [], k);
      TakesFrame(s, t, k);
      ParseMore(rest, t, k);
      var h, p, more := ParseHeader(s[..HEADER]), ParseAll(rest, k), ParseAll(ParseAll(rest, k).rest + t, k).packets;
      var first := [Payload(h, s[HEADER..HEADER + h.len], k)];
      assert first + (p.packets + more) == (first + p.packets) + more;
    } else {
      StopsAtOnce(s, t, k);
      assert [] + ParseAll(s + t, k).packets == ParseAll(s + t, k).packets;
    }
  }

  /** However a stream is cut into chunks, the same packets come out, and the loop stops for the same reason. */
  lemma {:induction false} ChunksDoNotMatter(rest: seq<byte>, chunks: seq<seq<byte>>, k: Keys)
    requires ParseAll(rest, k) == Parsed([], rest, More)
    ensures var p, q := Feed(rest, chunks, k), ParseAll(rest + Join(chunks), k);
            p.packets == q.packets && p.outcome == q.outcome && (p.outcome == More ==> p.rest == q.rest)
    decreases |chunks|
  {
    if chunks == [] {
      assert rest + [] == rest;
    } else {
      var s, t := rest + chunks[0], Join(chunks[1..]);
      assert rest + Join(chunks) == s + t;
      ParseMore(s, t, k);
      var p := ParseAll(s, k);
      if p.outcome == More {
        LeftoverIsStuck(s, k);
        ChunksDoNotMatter(p.rest, chunks[1..], k);
      }
    }
  }

  /** What is left over holds no complete packet. */
  lemma {:induction false} LeftoverIsStuck(s: seq<byte>, k: Keys)
    requires ParseAll(s, k).outcome == More
    ensures var r := ParseAll(s, k).rest; ParseAll(r, k) == Parsed([], r, More)
    decreases |s|
  {
    hide Accepts, Payload, ParseHeader;
    if |s| >= HEADER {
      var h := ParseHeader(s[..HEADER]);
      if HEADER + h.len <= |s| {
        LeftoverIsStuck(s[HEADER + h.len..], k);
      }
    }
  }

  // ---- How long a frame may be ----

  /** The largest payload that a new packet has room for. */
  const FITS: nat := 1019

  /** PushData is asked for header and payload together, five bytes into the buffer. */
  lemma RoomIff(frame: seq<byte>)
    ensures Fits(FRESH, Push(frame)) <==> |frame| <= HEADER + FITS
  {
  }

  ghost predicate Complete(s: seq<byte>, k: Keys) {
    && HEADER <= |s|
    && var h := ParseHeader(s[..HEADER]);
       h.len <= BUF && HEADER + h.len <= |s| && h.code == k.code
  }

  /** For a complete frame with the right code: the copy stays in the packet if and only if the length is at most 1024,
      and PushData has room for it if and only if the length is at most 1019. */
  lemma LengthsIff(s: seq<byte>, k: Keys)
    requires Complete(s, k)
    ensures var n := ParseHeader(s[..HEADER]).len;
            && (ParseAll(s, k) == Parsed([], s, Overrun) <==> n > 1024)
            && (ParseAll(s, k) == Parsed([], s[HEADER + n..], Crash) <==> 1019 < n <= 1024)
  {
    hide Accepts, Payload, ParseHeader;
    var h := ParseHeader(s[..HEADER]);
    RoomIff(s[..HEADER + h.len]);
    if HasFrame(s, k) {
      assert |ParseAll(s, k).packets| > 0;
    }
  }

  /** The length that the first header of `s` announces. */
  function Announced(s: seq<byte>): nat
    requires |s| >= 5
  {
    (s[1] as nat) + 256 * (s[2] as nat)
  }

  /** Why the loop stops at the first frame, over the bytes: it waits for the rest of a frame, the length is above 4000,
      the code differs, or the sum of the unmasked body differs from the unmasked checksum. */
  lemma StopsIff(s: seq<byte>, k: Keys)
    ensures ParseAll(s, k) == Parsed([], s, More) <==>
            |s| < 5 || (Announced(s) <= 4000 && |s| < 5 + Announced(s))
    ensures ParseAll(s, k) == Parsed([], s, TooBig) <==> |s| >= 5 && Announced(s) > 4000
    ensures ParseAll(s, k) == Parsed([], s, BadCode) <==>
            |s| >= 5 && Announced(s) <= 4000 && |s| >= 5 + Announced(s) && s[0] != k.code
    ensures |s| >= 5 && |s| >= 5 + Announced(s) ==>
              var n, r := Announced(s), Xor(Xor(s[3], k.key1), k.key2);
              ParseAll(s, k) == Parsed([], s[5 + n..], BadSum) <==>
              n <= 1019 && s[0] == k.code && Sum(Mask(s[5..5 + n], r, k)) % 256 != Mask3(s[4], r, k)
  {
    hide Mask3, Xor, Sum, Mask;
    if |s| >= 5 {
      assert ParseHeader(s[..HEADER]) == Header(s[0], Announced(s), s[3], s[4]);
      if |s| >= 5 + Announced(s) {
        RoomIff(s[..HEADER + Announced(s)]);
        hide ParseHeader;
        assert HasFrame(s, k) ==> |ParseAll(s, k).packets| > 0;
      }
    }
  }

  /** The loop stops for the reason of the first frame it does not accept. */
  lemma {:induction false} StopsAt(s: seq<byte>, k: Keys) returns (n: nat)
    ensures n <= |s| && !HasFrame(s[n..], k)
    ensures ParseAll(s[n..], k) == Parsed([], ParseAll(s, k).rest, ParseAll(s, k).outcome)
    decreases |s|
  {
    hide Accepts, Payload, ParseHeader, ParseAll;
    if HasFrame(s, k) {
      var h := ParseHeader(s[..HEADER]);
      var t := s[HEADER + h.len..];
      assert s + [] == s && t + [] == t;
      TakesFrame(s, [], k);
      var m := StopsAt(t, k);
      n := HEADER + h.len + m;
      assert s[n..] == t[m..];
    } else {
      n := 0;
      assert s[0..] == s && s + [] == s;
      StopsAtOnce(s, [], k);
    }
  }

  /** A frame of 2000 bytes of payload under the right code passes every check before the copy. */
  lemma LongFrameOverruns(k: Keys)
    ensures var s := HeaderBytes(Header(k.code, 2000, 0, 0)) + seq(2000, _ => 0);
            ParseAll(s, k) == Parsed([], s, Overrun)
  {
    var h := Header(k.code, 2000, 0, 0);
    var s := HeaderBytes(h) + seq(2000, _ => 0);
    HeaderRoundTrip(h);
    assert s[..HEADER] == HeaderBytes(h);
    LengthsIff(s, k);
  }

  // ---- Encoded packets come back ----

  ghost predicate Sendable(p: seq<byte>) { |p| <= PAYLOAD }

  /** The bytes on the wire for a list of payloads, each encoded under its own random key. */
  ghost function Wire(ps: seq<seq<byte>>, rs: seq<byte>, k: Keys): seq<byte>
    requires |ps| == |rs| && forall p :: p in ps ==> Sendable(p)
  {
    if ps == [] then []
    else
      assert Sendable(ps[0]);
      Encode(ps[0], rs[0], k) + Wire(ps[1..], rs[1..], k)
  }

  /** One encoded packet in front of anything. */
  lemma ParseEncoded(p: seq<byte>, r: byte, t: seq<byte>, k: Keys)
    requires Sendable(p)
    ensures var q := ParseAll(Encode(p, r, k) + t, k);
            if |p| <= FITS then q == ParseAll(t, k).(packets := [p] + ParseAll(t, k).packets)
            else q == Parsed([], t, Crash)
  {
    hide Accepts, Payload, ParseHeader, Encode;
    var e := Encode(p, r, k);
    var s := e + t;
    RoundTrip(p, r, k);
    EncodedParts(p, r, k);
    RoomIff(e);
    assert s[..HEADER] == e[..HEADER] && s[..HEADER + |p|] == e;
    assert s[HEADER..HEADER + |p|] == e[HEADER..] && s[HEADER + |p|..] == t;
  }

  /** The exact condition for a payload to survive: it must leave room for the header twice. A sender can encode up to
      1024 bytes, but PushData crashes the receiver on more than 1019. */
  lemma SurvivesIff(p: seq<byte>, r: byte, k: Keys)
    requires Sendable(p)
    ensures ParseAll(Encode(p, r, k), k) == Parsed([p], [], More) <==> |p| <= 1019
  {
    ParseEncoded(p, r, [], k);
    assert Encode(p, r, k) + [] == Encode(p, r, k);
    assert ParseAll([], k) == Parsed([], [], More);
  }

  ghost predicate Receivable(ps: seq<seq<byte>>) {
    forall p :: p in ps ==> |p| <= FITS
  }

  /** What comes of a list of encoded payloads: all of them, or those before the first that is too long. */
  ghost predicate Comes(q: Parsed, ps: seq<seq<byte>>) {
    if Receivable(ps) then q == Parsed(ps, [], More)
    else q.outcome == Crash && |q.packets| < |ps| && q.packets == ps[..|q.packets|] && FITS < |ps[|q.packets|]|
  }

  lemma {:induction false} ParseWire(ps: seq<seq<byte>>, rs: seq<byte>, k: Keys)
    requires |ps| == |rs| && forall p :: p in ps ==> Sendable(p)
    ensures Comes(ParseAll(Wire(ps, rs, k), k), ps)
    decreases |ps|
  {
    hide ParseAll, Encode;
    if ps == [] {
      NothingParsed(k);
    } else {
      assert ps[0] in ps && Sendable(ps[0]);
      var e, w := Encode(ps[0], rs[0], k), Wire(ps[1..], rs[1..], k);
      ParseWire(ps[1..], rs[1..], k);
      ParseEncoded(ps[0], rs[0], w, k);
      assert ps == [ps[0]] + ps[1..];
    }
  }

  /** Framing end to end, for any payloads that can be encoded and whatever the chunks: the receiver recovers exactly
      the payloads that were sent, in order, with nothing left over, if and only if each has at most 1019 bytes.
      Otherwise it recovers those before the first longer one. */
  lemma FramesEndToEnd(ps: seq<seq<byte>>, rs: seq<byte>, chunks: seq<seq<byte>>, k: Keys)
    requires |ps| == |rs| && forall p :: p in ps ==> Sendable(p)
    requires Join(chunks) == Wire(ps, rs, k)
    ensures Feed([], chunks, k) == Parsed(ps, [], More) <==> forall p :: p in ps ==> |p| <= 1019
    ensures Comes(Feed([], chunks, k), ps)
  {
    hide ParseAll, Wire;
    ParseWire(ps, rs, k);
    assert [] + Join(chunks) == Join(chunks);
    NothingParsed(k);
    ChunksDoNotMatter([], chunks, k);
  }

  lemma Split(s: seq<byte>, e: seq<byte>, w: seq<byte>)
    requires s <= e + w && |s| >= |e|
    ensures s == e + s[|e|..] && s[|e|..] <= w
  {
    assert s == (e + w)[..|s|];
  }

  lemma NothingParsed(k: Keys)
    ensures ParseAll([], k) == Parsed([], [], More)
  {
  }

  /** Part of one encoded packet is not a packet. */
  lemma ShortOfOne(p: seq<byte>, r: byte, w: seq<byte>, s: seq<byte>, k: Keys)
    requires |p| <= FITS && s <= Encode(p, r, k) + w && |s| < |Encode(p, r, k)|
    ensures ParseAll(s, k) == Parsed([], s, More)
  {
    hide Accepts, Payload, ParseHeader, Encode;
    if |s| >= HEADER {
      EncodedParts(p, r, k);
      assert s[..HEADER] == Encode(p, r, k)[..HEADER];
    }
  }

  /** Along the way, what waits in the queue is always shorter than the largest packet a receiver has room for. */
  lemma {:induction false} LeftoverIsShort(ps: seq<seq<byte>>, rs: seq<byte>, s: seq<byte>, k: Keys)
    requires |ps| == |rs| && Receivable(ps) && (forall p :: p in ps ==> Sendable(p)) && s <= Wire(ps, rs, k)
    ensures var q := ParseAll(s, k); q.outcome == More && |q.rest| < HEADER + FITS && q.packets <= ps
    decreases |ps|
  {
    hide ParseAll, Encode;
    if ps == [] {
      assert ParseAll([], k) == Parsed([], [], More) by { NothingParsed(k); }
    } else {
      assert ps[0] in ps;
      var e, w := Encode(ps[0], rs[0], k), Wire(ps[1..], rs[1..], k);
      assert ps == [ps[0]] + ps[1..];
      if |s| >= |e| {
        var t := s[|e|..];
        Split(s, e, w);
        ParseEncoded(ps[0], rs[0], t, k);
        LeftoverIsShort(ps[1..], rs[1..], t, k);
      } else {
        ShortOfOne(ps[0], rs[0], w, s, k);
      }
    }
  }

  // ---- Typed values, end to end ----

  ghost function Payloads(vss: seq<seq<Value>>): (ps: seq<seq<byte>>)
    ensures |ps| == |vss| && forall i :: 0 <= i < |ps| ==> ps[i] == Serialize(vss[i])
  {
    seq(|vss|, i requires 0 <= i < |vss| => Serialize(vss[i]))
  }

  /** The typed values pushed into each packet are popped from each received packet, in order. */
  lemma ValuesEndToEnd(vss: seq<seq<Value>>, rs: seq<byte>, chunks: seq<seq<byte>>, k: Keys)
    requires forall i, v :: 0 <= i < |vss| && v in vss[i] ==> IsScalar(v)
    requires |rs| == |vss| && Receivable(Payloads(vss)) && (forall p :: p in Payloads(vss) ==> Sendable(p))
    requires Join(chunks) == Wire(Payloads(vss), rs, k)
    ensures var got := Feed([], chunks, k).packets;
            |got| == |vss| && forall i :: 0 <= i < |vss| ==> Parse(Widths(vss[i]), got[i]) == vss[i]
  {
    FramesEndToEnd(Payloads(vss), rs, chunks, k);
    forall i | 0 <= i < |vss| ensures Parse(Widths(vss[i]), Serialize(vss[i])) == vss[i] {
      assert Serialize(vss[i]) + [] == Serialize(vss[i]);
      ValuesRoundTrip(vss[i], []);
    }
  }
}
