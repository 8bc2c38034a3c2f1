/** Any number of threads calling EnCode on one packet: the one-shot flag lets exactly one of them mask it. */
module EncodeRace {
  import opened Bytes
  import opened Codec

  type Tid = nat

  /** The flag and the buffer, and the payload size, which does not change meanwhile. */
  datatype Shared = Shared(flag: bool, buffer: seq<byte>, size: nat)

  /** A call with its own random key: before the flag, summing, masking, about to copy the header in, and done. */
  datatype PC =
    | Idle
    | Try(r: byte)
    | Summing(r: byte, i: nat, sum: nat)
    | Masking(r: byte, i: nat, check: byte)
    | Stamping(h: Header)
    | Done

  datatype State = State(m: Shared, thr: map<Tid, PC>)

  datatype Move = Move(t: Tid, r: byte)

  ghost predicate Enabled(m: Shared, pc: PC) {
    && !pc.Done?
    && (pc.Summing? && pc.i < m.size ==> HEADER + pc.i < |m.buffer|)
    && (pc.Masking? && pc.i < m.size ==> HEADER + pc.i < |m.buffer|)
    && (pc.Stamping? ==> HEADER <= |m.buffer| && pc.h.len < 65536)
  }

  ghost function Exec(m: Shared, pc: PC, k: Keys, r: byte): (Shared, PC)
    requires Enabled(m, pc)
  {
    match pc
    case Idle => (m, Try(r))
    case Try(q) => if m.flag then (m, Done) else (m.(flag := true), Summing(q, 0, 0))
    case Summing(q, i, sum) =>
      if i < m.size then (m, Summing(q, i + 1, sum + m.buffer[HEADER + i]))
      else (m, Masking(q, 0, Mask3(Low(sum), q, k)))
    case Masking(q, i, check) =>
      if i < m.size
      then (m.(buffer := m.buffer[HEADER + i := Mask3(m.buffer[HEADER + i], q, k)]), Masking(q, i + 1, check))
      else (m, Stamping(Header(k.code, m.size, Xor(Xor(q, k.key1), k.key2), check)))
    case Stamping(h) => (m.(buffer := HeaderBytes(h) + m.buffer[HEADER..]), Done)
    case Done => (m, Done)
  }

  ghost predicate Can(s: State, mv: Move) { mv.t in s.thr && Enabled(s.m, s.thr[mv.t]) }

  ghost function Step(s: State, mv: Move, k: Keys): State
    requires Can(s, mv)
  {
    var (m, pc) := Exec(s.m, s.thr[mv.t], k, mv.r);
    State(m, s.thr[mv.t := pc])
  }

  ghost predicate Legal(s: State, mvs: seq<Move>, k: Keys)
    decreases |mvs|
  {
    mvs == [] || (Can(s, mvs[0]) && Legal(Step(s, mvs[0], k), mvs[1..], k))
  }

  ghost function Play(s: State, mvs: seq<Move>, k: Keys): State
    requires Legal(s, mvs, k)
    decreases |mvs|
  {
    if mvs == [] then s else Play(Step(s, mvs[0], k), mvs[1..], k)
  }

  /** Each thread draws its own random key for its call: `keys` has them all. */
  ghost predicate Keyed(s: State, mvs: seq<Move>, k: Keys, keys: map<Tid, byte>)
    requires Legal(s, mvs, k)
    decreases |mvs|
  {
    s.thr.Keys <= keys.Keys &&
    (mvs == [] || (Draws(s, mvs[0], keys) && Keyed(Step(s, mvs[0], k), mvs[1..], k, keys)))
  }

  ghost predicate Draws(s: State, mv: Move, keys: map<Tid, byte>) {
    mv.t in s.thr && mv.t in keys && (s.thr[mv.t].Idle? ==> mv.r == keys[mv.t])
  }

  /** A packet of `b` with payload size `n`, its flag clear, before anyone calls. */
  ghost predicate Init(s: State, b: seq<byte>, n: nat) {
    && |b| == BUFFER && HEADER + n <= BUFFER
    && s.m == Shared(false, b, n)
    && forall t :: t in s.thr ==> s.thr[t] == Idle
  }

  // ---- The invariant ----

  ghost predicate Working(pc: PC) { pc.Summing? || pc.Masking? || pc.Stamping? }

  ghost function Part(b: seq<byte>, n: nat): seq<byte>
    requires HEADER + n <= |b|
  {
    b[HEADER..HEADER + n]
  }

  /** The buffer when `i` bytes of the payload have been masked. */
  ghost predicate Masked(c: seq<byte>, b: seq<byte>, n: nat, i: nat, r: byte, k: Keys) {
    && |c| == |b| == BUFFER && HEADER + n <= BUFFER && i <= n
    && forall j :: 0 <= j < BUFFER ==>
         c[j] == if HEADER <= j < HEADER + i then Mask3(b[j], r, k) else b[j]
  }

  /** What a thread with random key `own` may rely on. */
  ghost predicate WorkerOk(m: Shared, pc: PC, b: seq<byte>, k: Keys, own: byte) {
    && HEADER + m.size <= |b|
    && (match pc
        case Try(r) => r == own
        case Summing(r, i, sum) => r == own && m.buffer == b && i <= m.size && sum == Sum(Part(b, i))
        case Masking(r, i, check) =>
          r == own && Masked(m.buffer, b, m.size, i, r, k) && check == Mask3(Low(Sum(Part(b, m.size))), r, k)
        case Stamping(h) =>
          Masked(m.buffer, b, m.size, m.size, own, k) && h == EncodedHeader(Part(b, m.size), own, k)
        case _ => true)
  }

  /** The packet encoded once, under random key `r`. */
  ghost predicate EncodedUnder(c: seq<byte>, b: seq<byte>, n: nat, k: Keys, r: byte) {
    HEADER + n <= BUFFER == |b| && c == Encode(Part(b, n), r, k) + b[HEADER + n..]
  }

  /** The same under the key of some call that has returned. */
  ghost predicate Encoded(s: State, b: seq<byte>, n: nat, k: Keys, keys: map<Tid, byte>) {
    exists t :: t in s.thr && t in keys && s.thr[t].Done? && EncodedUnder(s.m.buffer, b, n, k, keys[t])
  }

  ghost predicate Inv(s: State, b: seq<byte>, n: nat, k: Keys, keys: map<Tid, byte>) {
    && |b| == BUFFER && HEADER + n <= BUFFER && s.m.size == n && |s.m.buffer| == BUFFER && s.thr.Keys <= keys.Keys
    // at most one thread works, and only once the flag is set
    && (forall t, o :: t in s.thr && o in s.thr && Working(s.thr[t]) && Working(s.thr[o]) ==> t == o)
    && (forall t :: t in s.thr ==> WorkerOk(s.m, s.thr[t], b, k, keys[t]) && (Working(s.thr[t]) ==> s.m.flag))
    && (!s.m.flag ==> s.m.buffer == b && forall t :: t in s.thr ==> !s.thr[t].Done?)
    // once nobody works on a set flag, the packet is encoded
    && (s.m.flag && (forall t :: t in s.thr ==> !Working(s.thr[t])) ==> Encoded(s, b, n, k, keys))
  }

  lemma SumNext(b: seq<byte>, i: nat)
    requires HEADER + i < |b|
    ensures Sum(Part(b, i + 1)) == Sum(Part(b, i)) + b[HEADER + i]
  {
    assert Part(b, i + 1)[..i] == Part(b, i);
  }

  lemma StampEncodes(c: seq<byte>, b: seq<byte>, n: nat, r: byte, k: Keys)
    requires Masked(c, b, n, n, r, k)
    ensures HeaderBytes(EncodedHeader(Part(b, n), r, k)) + c[HEADER..] == Encode(Part(b, n), r, k) + b[HEADER + n..]
  {
    hide Mask3, HeaderBytes, EncodedHeader, Sum;
    assert c[HEADER..] == Mask(Part(b, n), r, k) + b[HEADER + n..];
  }

  /** The working thread's own next step. */
  lemma WorkerSteps(m: Shared, pc: PC, k: Keys, r: byte, b: seq<byte>, own: byte)
    requires Working(pc) && Enabled(m, pc) && WorkerOk(m, pc, b, k, own)
    requires |b| == |m.buffer| == BUFFER && HEADER + m.size <= BUFFER
    ensures var (m', pc') := Exec(m, pc, k, r);
            && m'.size == m.size && m'.flag == m.flag && |m'.buffer| == BUFFER
            && WorkerOk(m', pc', b, k, own)
            && (if pc.Stamping? then pc' == Done && EncodedUnder(m'.buffer, b, m.size, k, own) else Working(pc'))
  {
    hide Mask3, HeaderBytes, Sum, Encode;
    if pc.Summing? && pc.i < m.size {
      SumNext(b, pc.i);
    } else if pc.Masking? && pc.i == m.size {
      var h := Exec(m, pc, k, r).1.h;
      assert h == EncodedHeader(Part(b, m.size), own, k);
    } else if pc.Stamping? {
      StampEncodes(m.buffer, b, m.size, own, k);
    }
  }

  lemma WorkerMoves(s: State, mv: Move, b: seq<byte>, n: nat, k: Keys, keys: map<Tid, byte>)
    requires Inv(s, b, n, k, keys) && Can(s, mv) && Working(s.thr[mv.t])
    ensures Inv(Step(s, mv, k), b, n, k, keys)
  {
    WorkerSteps(s.m, s.thr[mv.t], k, mv.r, b, keys[mv.t]);
    hide Mask3, HeaderBytes, Sum, EncodedUnder, Masked, Exec, Enabled;
    var e := Step(s, mv, k);
    var q := e.thr[mv.t];
    forall o | o in s.thr && o != mv.t ensures e.thr[o] == s.thr[o] && !Working(e.thr[o]) {}
    forall o | o in s.thr && o != mv.t ensures WorkerOk(e.m, e.thr[o], b, k, keys[o]) {}
    assert e.thr.Keys == s.thr.Keys;
    assert WorkerOk(e.m, q, b, k, keys[mv.t]) && (!Working(q) ==> Encoded(e, b, n, k, keys));
    hide WorkerOk, Encoded;
  }

  lemma StaysEncoded(s: State, mv: Move, b: seq<byte>, n: nat, k: Keys, keys: map<Tid, byte>)
    requires Can(s, mv) && !Working(s.thr[mv.t]) && s.m.flag && Encoded(s, b, n, k, keys)
    ensures Encoded(Step(s, mv, k), b, n, k, keys)
  {
    hide EncodedUnder;
    var t :| t in s.thr && t in keys && s.thr[t].Done? && EncodedUnder(s.m.buffer, b, n, k, keys[t]);
    assert Step(s, mv, k).thr[t] == s.thr[t];
  }

  lemma CallerMoves(s: State, mv: Move, b: seq<byte>, n: nat, k: Keys, keys: map<Tid, byte>)
    requires Inv(s, b, n, k, keys) && Can(s, mv) && Draws(s, mv, keys) && !Working(s.thr[mv.t])
    ensures Inv(Step(s, mv, k), b, n, k, keys)
  {
    hide Mask3, HeaderBytes, Encoded, Masked;
    assert Part(b, 0) == [] && Sum([]) == 0;
    var e := Step(s, mv, k);
    forall o | o in s.thr && o != mv.t ensures e.thr[o] == s.thr[o] && WorkerOk(e.m, e.thr[o], b, k, keys[o]) {}
    assert WorkerOk(e.m, e.thr[mv.t], b, k, keys[mv.t]) && (e.m.flag && !s.m.flag ==> Working(e.thr[mv.t]));
    hide WorkerOk, Sum;
    if s.m.flag && forall o :: o in e.thr ==> !Working(e.thr[o]) {
      forall o | o in s.thr ensures !Working(s.thr[o]) {
        if o != mv.t { assert e.thr[o] == s.thr[o]; }
      }
      StaysEncoded(s, mv, b, n, k, keys);
    }
  }

  lemma KeepsInv(s: State, mv: Move, b: seq<byte>, n: nat, k: Keys, keys: map<Tid, byte>)
    requires Inv(s, b, n, k, keys) && Can(s, mv) && Draws(s, mv, keys)
    ensures Inv(Step(s, mv, k), b, n, k, keys)
  {
    hide Inv, Step;
    if Working(s.thr[mv.t]) {
      WorkerMoves(s, mv, b, n, k, keys);
    } else {
      CallerMoves(s, mv, b, n, k, keys);
    }
  }

  lemma {:induction false} Reachable(
    s: State, mvs: seq<Move>, b: seq<byte>, n: nat, k: Keys, keys: map<Tid, byte>)
    requires Inv(s, b, n, k, keys) && Legal(s, mvs, k) && Keyed(s, mvs, k, keys)
    ensures Inv(Play(s, mvs, k), b, n, k, keys)
    decreases |mvs|
  {
    hide Inv;
    if mvs != [] {
      KeepsInv(s, mvs[0], b, n, k, keys);
      Reachable(Step(s, mvs[0], k), mvs[1..], b, n, k, keys);
    }
  }

  lemma RunKeeps(s: State, mvs: seq<Move>, b: seq<byte>, n: nat, k: Keys, keys: map<Tid, byte>)
    requires Init(s, b, n) && Legal(s, mvs, k) && Keyed(s, mvs, k, keys)
    ensures Inv(Play(s, mvs, k), b, n, k, keys)
  {
    assert Inv(s, b, n, k, keys);
    hide Inv;
    Reachable(s, mvs, b, n, k, keys);
  }

  /** The buffer can be sent: DeCode with its own header accepts it and gives the payload back. */
  ghost predicate Decodes(c: seq<byte>, b: seq<byte>, n: nat, k: Keys) {
    && |c| == |b| == BUFFER && HEADER + n <= BUFFER
    && var h := ParseHeader(c[..HEADER]);
    && h.len == n && Accepts(h, c[HEADER..HEADER + n], k)
    && Payload(h, c[HEADER..HEADER + n], k) == Part(b, n)
  }

  lemma EncodedDecodes(c: seq<byte>, b: seq<byte>, n: nat, k: Keys, r: byte)
    requires EncodedUnder(c, b, n, k, r)
    ensures Decodes(c, b, n, k) && c[HEADER + n..] == b[HEADER + n..]
  {
    hide Mask3, HeaderBytes, Sum, Encode, Accepts, Payload, ParseHeader;
    var p := Encode(Part(b, n), r, k);
    RoundTrip(Part(b, n), r, k);
    assert c[..HEADER] == p[..HEADER] && c[HEADER..HEADER + n] == p[HEADER..];
  }

  /** However many threads call EnCode and however they interleave, once some call has returned and none is in
      progress, the packet is encoded exactly once, under the random key that one of the returned calls drew: DeCode
      with its own header accepts it and gives the payload back. */
  lemma EncodedExactlyOnce(s: State, mvs: seq<Move>, b: seq<byte>, n: nat, k: Keys, keys: map<Tid, byte>, t: Tid)
    requires Init(s, b, n) && Legal(s, mvs, k) && Keyed(s, mvs, k, keys)
    requires var e := Play(s, mvs, k);
             && t in e.thr && e.thr[t].Done?
             && forall o :: o in e.thr ==> !Working(e.thr[o])
    ensures var c := Play(s, mvs, k).m.buffer;
            && Encoded(Play(s, mvs, k), b, n, k, keys)
            && Decodes(c, b, n, k) && c[HEADER + n..] == b[HEADER + n..]
  {
    hide Mask3, HeaderBytes, Sum, Encode, Decodes, EncodedUnder;
    RunKeeps(s, mvs, b, n, k, keys);
    var e := Play(s, mvs, k);
    var o :| o in e.thr && o in keys && e.thr[o].Done? && EncodedUnder(e.m.buffer, b, n, k, keys[o]);
    EncodedDecodes(e.m.buffer, b, n, k, keys[o]);
  }

  /** A returned call alone guarantees nothing. On a packet that does not start with the packet code, as a cleared one
      does not unless the code is 0, the buffer can be sent if and only if no other call is past the flag. */
  lemma ReturnedIsEncodedIff(s: State, mvs: seq<Move>, b: seq<byte>, n: nat, k: Keys, keys: map<Tid, byte>, t: Tid)
    requires Init(s, b, n) && Legal(s, mvs, k) && Keyed(s, mvs, k, keys) && b[0] != k.code
    requires var e := Play(s, mvs, k); t in e.thr && e.thr[t].Done?
    ensures var e := Play(s, mvs, k);
            Decodes(e.m.buffer, b, n, k) <==> forall o :: o in e.thr ==> !Working(e.thr[o])
  {
    hide Mask3, HeaderBytes, Sum, Encode, Payload, EncodedUnder;
    RunKeeps(s, mvs, b, n, k, keys);
    var e := Play(s, mvs, k);
    if o :| o in e.thr && Working(e.thr[o]) {
      WorkerOkUnstamped(e.m, e.thr[o], b, k, keys[o]);
    } else {
      EncodedExactlyOnce(s, mvs, b, n, k, keys, t);
    }
  }

  /** Until the winner stamps it, the packet keeps the header bytes it had. */
  lemma WorkerOkUnstamped(m: Shared, pc: PC, b: seq<byte>, k: Keys, own: byte)
    requires Working(pc) && WorkerOk(m, pc, b, k, own) && |b| == |m.buffer| == BUFFER
    ensures m.buffer[..HEADER] == b[..HEADER]
  {
  }

  /** It happens: the second of two callers returns while nothing has been written. */
  lemma ReturnsTooEarly(b: seq<byte>, n: nat, k: Keys)
    requires |b| == BUFFER && HEADER + n <= BUFFER
    ensures var s := State(Shared(false, b, n), map[0 := Idle, 1 := Idle]);
            var mvs := [Move(0, 7), Move(1, 9), Move(0, 0), Move(1, 0)];
            && Init(s, b, n) && Legal(s, mvs, k)
            && var e := Play(s, mvs, k);
               1 in e.thr && e.thr[1].Done? && e.m.buffer == b
  {
    var s := State(Shared(false, b, n), map[0 := Idle, 1 := Idle]);
    var mvs := [Move(0, 7), Move(1, 9), Move(0, 0), Move(1, 0)];
    assert mvs[1..] == [Move(1, 9), Move(0, 0), Move(1, 0)];
    assert mvs[1..][1..] == [Move(0, 0), Move(1, 0)];
    assert mvs[1..][1..][1..] == [Move(1, 0)];
    assert mvs[1..][1..][1..][1..] == [];
    var s1 := Step(s, mvs[0], k);
    var s2 := Step(s1, mvs[1], k);
    var s3 := Step(s2, mvs[2], k);
    var s4 := Step(s3, mvs[3], k);
    assert Legal(s4, [], k) && Play(s4, [], k) == s4;
    assert Legal(s3, mvs[3..], k) && Play(s3, mvs[3..], k) == s4;
    assert Legal(s2, mvs[2..], k) && Play(s2, mvs[2..], k) == s4;
  }

  // ---- Every call ends ----

  function Made(mvs: seq<Move>, p: Tid): nat {
    if mvs == [] then 0 else (if mvs[0].t == p then 1 else 0) + Made(mvs[1..], p)
  }

  /** The steps left, at most, on a payload of `n` bytes: two passes over it for the winner, one look for the others. */
  function Left(pc: PC, n: nat): nat {
    match pc
    case Idle => 2 * n + 5
    case Try(_) => 2 * n + 4
    case Summing(_, i, _) => (if i < n then n - i else 0) + n + 3
    case Masking(_, i, _) => (if i < n then n - i else 0) + 2
    case Stamping(_) => 1
    case Done => 0
  }

  lemma StepLeft(s: State, mv: Move, k: Keys, p: Tid)
    requires Can(s, mv) && p in s.thr
    ensures Step(s, mv, k).m.size == s.m.size
    ensures (if mv.t == p then 1 else 0) + Left(Step(s, mv, k).thr[p], s.m.size) <= Left(s.thr[p], s.m.size)
  {
    hide Mask3, HeaderBytes;
  }

  /** Wait freedom: in every interleaving a thread makes at most 2 n + 5 moves, and one that has not returned can always
      make the next. */
  lemma {:induction false} WaitFree(
    s: State, mvs: seq<Move>, b: seq<byte>, n: nat, k: Keys, keys: map<Tid, byte>, p: Tid)
    requires Inv(s, b, n, k, keys) && Legal(s, mvs, k) && Keyed(s, mvs, k, keys) && p in s.thr
    ensures var e := Play(s, mvs, k);
            && p in e.thr
            && Made(mvs, p) + Left(e.thr[p], n) <= Left(s.thr[p], n)
            && (!e.thr[p].Done? ==> Can(e, Move(p, 0)))
    decreases |mvs|
  {
    hide Exec, Left, Masked, Sum, Mask3, HeaderBytes, Encoded;
    if mvs == [] {
      assert WorkerOk(s.m, s.thr[p], b, k, keys[p]);
    } else {
      StepLeft(s, mvs[0], k, p);
      KeepsInv(s, mvs[0], b, n, k, keys);
      assert s.m.size == n;
      hide Inv;
      WaitFree(Step(s, mvs[0], k), mvs[1..], b, n, k, keys, p);
    }
  }
}
