/** The ring shared without a lock by one producer and one consumer. Each operation reads the other side's index once
    (Peek twice), moves its bytes one at a time, and publishes its own index once. */
module RingShared {
  import opened Bytes
  import opened Ring

  datatype Producer =
    | PIdle
    | PCopy(d: seq<byte>, i: nat)            // `d` is already cut to the room seen; `i` bytes are in place

  datatype Consumer =
    | CIdle
    | CCopy(n: nat, got: seq<byte>)          // `n` is already cut to the use seen
    | CDrop(n: nat)                          // the index form; `n` likewise
    | KAgain(n: nat)                         // Peek, before its second look at the rear
    | KCopy(n: nat, r: nat, got: seq<byte>)

  /** History: `accepted` what Enqueue has taken, `delivered` what Dequeue has handed out. */
  datatype State = State(ring: Ring, prod: Producer, cons: Consumer, accepted: seq<byte>, delivered: seq<byte>)

  datatype Move =
    | Enqueue(d: seq<byte>)   // the producer's call, up to its snapshot of the front
    | Put                     // one byte copied in
    | Publish                 // the copying form stores the rear
    | PublishIndex            // the index form looks at the front again and stores the rear
    | Dequeue(n: nat)
    | Get
    | Release                 // Dequeue stores the front
    | DequeueIndex(n: nat)    // the index form, up to its snapshot of the rear
    | ReleaseIndex
    | Peek(n: nat)
    | Look
    | PeekByte
    | PeekEnd

  ghost predicate Enabled(s: State, mv: Move) {
    match mv
    case Enqueue(_) => s.prod.PIdle?
    case Put => s.prod.PCopy? && s.prod.i < |s.prod.d|
    case Publish => s.prod.PCopy? && s.prod.i == |s.prod.d|
    case PublishIndex => s.prod.PCopy? && s.prod.i == |s.prod.d|
    case Dequeue(_) => s.cons.CIdle?
    case Get => s.cons.CCopy? && |s.cons.got| < s.cons.n
    case Release => s.cons.CCopy? && |s.cons.got| == s.cons.n
    case DequeueIndex(_) => s.cons.CIdle?
    case ReleaseIndex => s.cons.CDrop?
    case Peek(_) => s.cons.CIdle?
    case Look => s.cons.KAgain?
    case PeekByte => s.cons.KCopy? && |s.cons.got| < s.cons.n
    case PeekEnd => s.cons.KCopy? && |s.cons.got| == s.cons.n
  }

  /** Where Peek's copies take byte `k` from, given the rear it saw the second time. */
  function PeekCell(front: nat, r: nat, n: nat, size: nat, k: nat): int {
    if front <= r || front + n < size || front + k < size then front + k else front + k - size
  }

  /** The cell the next Put writes. */
  function Target(s: State): nat
    requires s.prod.PCopy? && s.ring.rear + s.prod.i < 2 * |s.ring.cells|
  {
    Wrap(s.ring.rear + s.prod.i, |s.ring.cells|)
  }

  /** The indices that the next step uses are in the array. */
  ghost predicate InBounds(s: State, mv: Move) {
    var q, size := s.ring, |s.ring.cells|;
    && q.Valid()
    && (mv.Put? && s.prod.PCopy? ==> q.rear + s.prod.i < 2 * size)
    && ((mv.Publish? || mv.PublishIndex?) && s.prod.PCopy? ==> q.rear + |s.prod.d| < 2 * size)
    && (mv.Get? && s.cons.CCopy? ==> q.front + |s.cons.got| < 2 * size)
    && (mv.Release? && s.cons.CCopy? ==> q.front + s.cons.n < 2 * size)
    && (mv.ReleaseIndex? && s.cons.CDrop? ==> q.front + s.cons.n < 2 * size)
    && (mv.PeekByte? && s.cons.KCopy? ==> PeekCell(q.front, s.cons.r, s.cons.n, size, |s.cons.got|) < size)
  }

  ghost function Step(s: State, mv: Move): State
    requires Enabled(s, mv) && InBounds(s, mv)
  {
    var q, size := s.ring, |s.ring.cells|;
    match mv
    case Enqueue(d) =>
      var room := Room(q.front, q.rear, size);
      s.(prod := PCopy(if |d| <= room then d else d[..Max0(room)], 0))
    case Put =>
      s.(ring := q.(cells := q.cells[Target(s) := s.prod.d[s.prod.i]]), prod := s.prod.(i := s.prod.i + 1))
    case Publish =>
      s.(ring := q.(rear := Wrap(q.rear + |s.prod.d|, size)), accepted := s.accepted + s.prod.d, prod := PIdle)
    case PublishIndex =>
      var m := Max0(Min(|s.prod.d|, Room(q.front, q.rear, size)));
      s.(ring := q.(rear := Wrap(q.rear + m, size)), accepted := s.accepted + s.prod.d[..m], prod := PIdle)
    case Dequeue(n) =>
      s.(cons := CCopy(Min(n, Used(q.front, q.rear, size)), []))
    case Get =>
      s.(cons := CCopy(s.cons.n, s.cons.got + [q.cells[Wrap(q.front + |s.cons.got|, size)]]))
    case Release =>
      s.(ring := q.(front := Wrap(q.front + s.cons.n, size)), delivered := s.delivered + s.cons.got, cons := CIdle)
    case DequeueIndex(n) =>
      s.(cons := CDrop(Min(n, Used(q.front, q.rear, size))))
    case ReleaseIndex =>
      s.(ring := q.(front := Wrap(q.front + s.cons.n, size)),
         delivered := s.delivered + Contents(q)[..Min(s.cons.n, |Contents(q)|)], cons := CIdle)
    case Peek(n) => s.(cons := KAgain(Min(n, Used(q.front, q.rear, size))))
    case Look => s.(cons := KCopy(s.cons.n, q.rear, []))
    case PeekByte =>
      s.(cons := KCopy(s.cons.n, s.cons.r,
                       s.cons.got + [q.cells[PeekCell(q.front, s.cons.r, s.cons.n, size, |s.cons.got|)]]))
    case PeekEnd => s.(cons := CIdle)
  }

  function Max0(x: int): nat { if x < 0 then 0 else x }

  ghost predicate Legal(s: State, mvs: seq<Move>)
    decreases |mvs|
  {
    mvs == [] || (Enabled(s, mvs[0]) && InBounds(s, mvs[0]) && Legal(Step(s, mvs[0]), mvs[1..]))
  }

  ghost function Play(s: State, mvs: seq<Move>): State
    requires Legal(s, mvs)
    decreases |mvs|
  {
    if mvs == [] then s else Play(Step(s, mvs[0]), mvs[1..])
  }

  ghost predicate Init(s: State) {
    && |s.ring.cells| >= 1 && s.ring.front == s.ring.rear == 0
    && s.prod.PIdle? && s.cons == CIdle && s.accepted == [] && s.delivered == []
  }

  // ---- The invariant ----

  ghost predicate ProducerOk(q: Ring, p: Producer)
    requires q.Valid()
  {
    p.PCopy? ==>
      && p.i <= |p.d| <= Room(q.front, q.rear, |q.cells|)
      && forall j :: 0 <= j < p.i ==> q.cells[Wrap(q.rear + j, |q.cells|)] == p.d[j]
  }

  ghost predicate ConsumerOk(q: Ring, c: Consumer)
    requires q.Valid()
  {
    && (!c.CIdle? ==> c.n <= |Contents(q)|)
    && (c.CCopy? || c.KCopy? ==> |c.got| <= c.n && c.got == Contents(q)[..|c.got|])
    && (c.KCopy? ==> c.r < |q.cells| && c.n <= Used(q.front, c.r, |q.cells|))
  }

  ghost predicate Inv(s: State) {
    && s.ring.Valid()
    && ProducerOk(s.ring, s.prod)
    && ConsumerOk(s.ring, s.cons)
    && s.accepted == s.delivered + Contents(s.ring)
  }

  /** A cell past the rear and within the room holds no byte of the ring. */
  lemma FreeCell(q: Ring, i: nat, k: nat)
    requires q.Valid() && i < Room(q.front, q.rear, |q.cells|) && k < Used(q.front, q.rear, |q.cells|)
    ensures Wrap(q.rear + i, |q.cells|) != Wrap(q.front + k, |q.cells|)
  {
  }

  lemma PutKeeps(q: Ring, i: nat, b: byte)
    requires q.Valid() && i < Room(q.front, q.rear, |q.cells|)
    ensures var q' := q.(cells := q.cells[Wrap(q.rear + i, |q.cells|) := b]);
            q'.Valid() && Contents(q') == Contents(q)
  {
    var q' := q.(cells := q.cells[Wrap(q.rear + i, |q.cells|) := b]);
    forall k | 0 <= k < |Contents(q)| ensures Contents(q')[k] == Contents(q)[k] {
      FreeCell(q, i, k);
    }
  }

  /** Storing the rear after the bytes are in place is a push. */
  lemma PublishIsPush(q: Ring, d: seq<byte>)
    requires q.Valid() && |d| <= Room(q.front, q.rear, |q.cells|)
    requires forall j :: 0 <= j < |d| ==> q.cells[Wrap(q.rear + j, |q.cells|)] == d[j]
    ensures var q' := q.(rear := Wrap(q.rear + |d|, |q.cells|));
            q'.Valid() && q' == Pushed(q, d) && Contents(q') == Contents(q) + d
  {
    var size := |q.cells|;
    forall i | 0 <= i < size ensures Written(q.cells, q.rear, d)[i] == q.cells[i] {
      var k := Steps(q.rear, i, size);
      if k < |d| { assert Wrap(q.rear + k, size) == i; }
    }
    assert Written(q.cells, q.rear, d) == q.cells;
    PushAppends(q, d);
  }

  lemma BytesSoFar(q: Ring, d: seq<byte>, i: nat)
    requires q.Valid() && i < |d| <= Room(q.front, q.rear, |q.cells|)
    requires ProducerOk(q, PCopy(d, i))
    ensures var q' := q.(cells := q.cells[Wrap(q.rear + i, |q.cells|) := d[i]]);
            q'.Valid() && ProducerOk(q', PCopy(d, i + 1))
  {
    var size := |q.cells|;
    var q' := q.(cells := q.cells[Wrap(q.rear + i, size) := d[i]]);
    forall j | 0 <= j < i + 1 ensures q'.cells[Wrap(q.rear + j, size)] == d[j] {
      assert j < i ==> Wrap(q.rear + j, size) != Wrap(q.rear + i, size);
    }
  }

  lemma PutKeepsInv(s: State)
    requires Inv(s) && Enabled(s, Put) && InBounds(s, Put)
    ensures Inv(Step(s, Put))
  {
    hide Contents;
    var q := s.ring;
    PutKeeps(q, s.prod.i, s.prod.d[s.prod.i]);
    BytesSoFar(q, s.prod.d, s.prod.i);
    hide ProducerOk;
    assert ConsumerOk(Step(s, Put).ring, s.cons);
    hide ConsumerOk;
  }

  /** The second cut of the index form takes nothing away. */
  lemma SecondCut(s: State)
    requires Inv(s) && s.prod.PCopy? && s.prod.i == |s.prod.d|
    requires InBounds(s, Publish) && InBounds(s, PublishIndex)
    ensures Step(s, PublishIndex) == Step(s, Publish)
  {
    hide Contents, ConsumerOk;
    assert s.prod.d[..|s.prod.d|] == s.prod.d;
  }

  lemma PublishKeepsInv(s: State)
    requires Inv(s) && Enabled(s, Publish) && InBounds(s, Publish)
    ensures Inv(Step(s, Publish))
  {
    hide Contents, ConsumerOk, Pushed;
    var q, d := s.ring, s.prod.d;
    PublishIsPush(q, d);
    PublishWidens(s);
    assert s.accepted + d == s.delivered + (Contents(q) + d);
    hide ProducerOk;
    assert Step(s, Publish).prod == PIdle;
    IdleOk(Step(s, Publish).ring);
  }

  lemma IdleOk(q: Ring)
    requires q.Valid()
    ensures ProducerOk(q, PIdle)
  {
  }

  lemma ProducerKeeps(s: State, mv: Move)
    requires Inv(s) && Enabled(s, mv) && InBounds(s, mv)
    requires mv.Enqueue? || mv.Put? || mv.Publish? || mv.PublishIndex?
    ensures Inv(Step(s, mv))
  {
    hide Contents, ConsumerOk;
    if mv.Put? {
      hide Inv, Step;
      PutKeepsInv(s);
    } else if mv.Publish? || mv.PublishIndex? {
      assert InBounds(s, Publish) && InBounds(s, PublishIndex);
      hide Inv, Step;
      SecondCut(s);
      PublishKeepsInv(s);
    }
  }

  lemma PublishWidens(s: State)
    requires Inv(s) && s.prod.PCopy? && s.prod.i == |s.prod.d|
    ensures var q' := s.ring.(rear := Wrap(s.ring.rear + |s.prod.d|, |s.ring.cells|));
            q'.Valid() && ConsumerOk(q', s.cons)
  {
    PublishIsPush(s.ring, s.prod.d);
  }

  lemma ReleaseKeepsProducer(q: Ring, p: Producer, n: nat)
    requires q.Valid() && ProducerOk(q, p) && n <= Used(q.front, q.rear, |q.cells|)
    ensures Popped(q, n).Valid() && ProducerOk(Popped(q, n), p)
  {
    assert Used(Popped(q, n).front, q.rear, |q.cells|) == Used(q.front, q.rear, |q.cells|) - n;
  }

  /** Storing the front, by either form, is a pop of `n` bytes that are then delivered. */
  lemma PopKeepsInv(s: State, n: nat)
    requires Inv(s) && n <= |Contents(s.ring)|
    ensures Popped(s.ring, n).Valid()
    ensures Inv(s.(ring := Popped(s.ring, n), delivered := s.delivered + Contents(s.ring)[..n], cons := CIdle))
  {
    PopRemoves(s.ring, n);
    ReleaseKeepsProducer(s.ring, s.prod, n);
    hide Contents, ProducerOk, Popped;
    var c := Contents(s.ring);
    assert s.delivered + c == (s.delivered + c[..n]) + c[n..];
  }

  lemma ReleaseKeepsInv(s: State, mv: Move)
    requires Inv(s) && Enabled(s, mv) && InBounds(s, mv) && (mv.Release? || mv.ReleaseIndex?)
    ensures Inv(Step(s, mv))
  {
    var c, n := Contents(s.ring), s.cons.n;
    assert n <= |c| && (mv.Release? ==> s.cons.got == c[..n]);
    PopKeepsInv(s, n);
    hide Inv, Contents, ProducerOk, ConsumerOk;
    assert Step(s, mv) == s.(ring := Popped(s.ring, n), delivered := s.delivered + c[..n], cons := CIdle);
  }

  /** One more byte of the prefix. */
  lemma NextByte(q: Ring, got: seq<byte>)
    requires q.Valid() && |got| < |Contents(q)| && got == Contents(q)[..|got|]
    ensures q.front + |got| < 2 * |q.cells|
    ensures got + [q.cells[Wrap(q.front + |got|, |q.cells|)]] == Contents(q)[..|got| + 1]
  {
    assert Contents(q)[|got|] == q.cells[Wrap(q.front + |got|, |q.cells|)];
  }

  lemma ReadKeepsInv(s: State, mv: Move)
    requires Inv(s) && Enabled(s, mv) && InBounds(s, mv) && (mv.Get? || mv.PeekByte?)
    ensures Inv(Step(s, mv))
  {
    hide Contents, ProducerOk;
    NextByte(s.ring, s.cons.got);
    if mv.PeekByte? {
      assert PeekCell(s.ring.front, s.cons.r, s.cons.n, |s.ring.cells|, |s.cons.got|)
             == Wrap(s.ring.front + |s.cons.got|, |s.ring.cells|);
    }
  }

  lemma ConsumerKeeps(s: State, mv: Move)
    requires Inv(s) && Enabled(s, mv) && InBounds(s, mv)
    requires !(mv.Enqueue? || mv.Put? || mv.Publish? || mv.PublishIndex?)
    ensures Inv(Step(s, mv))
  {
    hide Contents, ProducerOk;
    if mv.Release? || mv.ReleaseIndex? {
      hide Inv, Step;
      ReleaseKeepsInv(s, mv);
    } else if mv.Get? || mv.PeekByte? {
      hide Inv, Step;
      ReadKeepsInv(s, mv);
    }
  }

  lemma KeepsInv(s: State, mv: Move)
    requires Inv(s) && Enabled(s, mv) && InBounds(s, mv)
    ensures Inv(Step(s, mv))
  {
    hide Inv, Step;
    if mv.Enqueue? || mv.Put? || mv.Publish? || mv.PublishIndex? {
      ProducerKeeps(s, mv);
    } else {
      ConsumerKeeps(s, mv);
    }
  }

  lemma {:induction false} Reachable(s: State, mvs: seq<Move>)
    requires Inv(s) && Legal(s, mvs)
    ensures Inv(Play(s, mvs))
    decreases |mvs|
  {
    hide Inv;
    if mvs != [] {
      KeepsInv(s, mvs[0]);
      Reachable(Step(s, mvs[0]), mvs[1..]);
    }
  }

  /** Every run from an empty ring keeps the invariant. */
  lemma RunKeeps(s: State, mvs: seq<Move>)
    requires Init(s) && Legal(s, mvs)
    ensures Inv(Play(s, mvs))
  {
    Reachable(s, mvs);
  }

  // ---- What holds in every interleaving ----

  /** What is delivered is a prefix of what was accepted, and the rest is in the ring. */
  lemma DeliversInOrder(s: State, mvs: seq<Move>)
    requires Init(s) && Legal(s, mvs)
    ensures var r := Play(s, mvs);
            r.ring.Valid() && r.accepted == r.delivered + Contents(r.ring)
  {
    RunKeeps(s, mvs);
  }

  /** The producer never writes a cell whose byte has been accepted and not delivered, so a Dequeue or a Peek in
      progress never reads a byte that is being overwritten. */
  lemma NeverOverwrites(s: State, mvs: seq<Move>)
    requires Init(s) && Legal(s, mvs) && Enabled(Play(s, mvs), Put)
    ensures var r := Play(s, mvs);
            && InBounds(r, Put)
            && Steps(r.ring.front, Target(r), |r.ring.cells|) >= Used(r.ring.front, r.ring.rear, |r.ring.cells|)
  {
    hide Contents;
    RunKeeps(s, mvs);
  }

  /** A Peek that finishes has read exactly the next bytes that will be delivered, although the rear may have moved
      and wrapped between its two looks. */
  lemma PeekSeesNext(s: State, mvs: seq<Move>)
    requires Init(s) && Legal(s, mvs) && Enabled(Play(s, mvs), PeekEnd)
    ensures var r := Play(s, mvs);
            r.delivered + r.cons.got <= r.accepted && |r.cons.got| == r.cons.n
  {
    RunKeeps(s, mvs);
  }

  /** The second cut of the index form takes nothing away: what was written under the first look is published whole. */
  lemma IndexFormPublishesAll(s: State, mvs: seq<Move>)
    requires Init(s) && Legal(s, mvs) && Enabled(Play(s, mvs), PublishIndex)
    ensures var r := Play(s, mvs);
            && InBounds(r, PublishIndex) && InBounds(r, Publish)
            && Step(r, PublishIndex) == Step(r, Publish)
  {
    RunKeeps(s, mvs);
    SecondCut(Play(s, mvs));
  }

  /** Every step that may be taken uses indices inside the array. */
  lemma StaysInBounds(s: State, mvs: seq<Move>, mv: Move)
    requires Init(s) && Legal(s, mvs) && Enabled(Play(s, mvs), mv)
    ensures InBounds(Play(s, mvs), mv)
  {
    RunKeeps(s, mvs);
  }
}
