/** What the calls on the shared ring do, in terms of what their callers asked for. */
module RingCalls {
  import opened Bytes
  import opened Ring
  import opened RingShared

  /** The bytes in the ring, and the free ones: one cell is always left empty. */
  ghost function InRing(s: State): nat
    requires s.ring.Valid()
  {
    |Contents(s.ring)|
  }

  ghost function FreeBytes(s: State): nat
    requires s.ring.Valid()
  {
    |s.ring.cells| - 1 - InRing(s)
  }

  /** What an Enqueue called now should accept: as much of its argument as there are free bytes. */
  ghost function OfferedIn(s: State, mv: Move): seq<byte>
    requires s.ring.Valid()
  {
    if mv.Enqueue? then mv.d[..Min(|mv.d|, FreeBytes(s))] else []
  }

  /** How many bytes a Dequeue, of either form, called now should deliver. */
  ghost function WantedIn(s: State, mv: Move): nat
    requires s.ring.Valid()
  {
    if mv.Dequeue? || mv.DequeueIndex? then Min(mv.n, InRing(s)) else 0
  }

  ghost function Offered(s: State, mvs: seq<Move>): seq<byte>
    requires Legal(s, mvs)
    decreases |mvs|
  {
    if mvs == [] then [] else OfferedIn(s, mvs[0]) + Offered(Step(s, mvs[0]), mvs[1..])
  }

  ghost function Wanted(s: State, mvs: seq<Move>): nat
    requires Legal(s, mvs)
    decreases |mvs|
  {
    if mvs == [] then 0 else WantedIn(s, mvs[0]) + Wanted(Step(s, mvs[0]), mvs[1..])
  }

  /** The size of the last Peek called, cut to what was in the ring when it was. */
  ghost function PeekSize(s: State, mvs: seq<Move>, before: nat): nat
    requires Legal(s, mvs)
    decreases |mvs|
  {
    if mvs == [] then before
    else
      PeekSize(Step(s, mvs[0]), mvs[1..], if mvs[0].Peek? then Min(mvs[0].n, InRing(s)) else before)
  }

  /** What an Enqueue in progress will add, and how much a Dequeue in progress will take. */
  function Adding(p: Producer): seq<byte> { if p.PCopy? then p.d else [] }

  function Taking(c: Consumer): nat { if c.CCopy? || c.CDrop? then c.n else 0 }

  predicate Peeking(c: Consumer) { c.KAgain? || c.KCopy? }

  lemma ProducerLedger(s: State, mv: Move)
    requires Inv(s) && Enabled(s, mv) && InBounds(s, mv)
    ensures var s' := Step(s, mv);
            s'.accepted + Adding(s'.prod) == s.accepted + Adding(s.prod) + OfferedIn(s, mv)
  {
    hide ConsumerOk;
    if mv.PublishIndex? {
      assert InBounds(s, Publish);
      SecondCut(s);
    }
    hide Contents;
  }

  lemma ConsumerLedger(s: State, mv: Move)
    requires Inv(s) && Enabled(s, mv) && InBounds(s, mv)
    ensures var s' := Step(s, mv);
            && |s'.delivered| + Taking(s'.cons) == |s.delivered| + Taking(s.cons) + WantedIn(s, mv)
            && (Peeking(s'.cons) && mv.Peek? ==> s'.cons.n == Min(mv.n, InRing(s)))
            && (Peeking(s'.cons) && !mv.Peek? ==> Peeking(s.cons) && s'.cons.n == s.cons.n)
  {
    hide ProducerOk, Contents;
  }

  /** Over any run, what has been accepted, followed by what the Enqueue in progress will add, is as much of each
      argument as there were free bytes when it was called, in order. */
  lemma {:induction false} AcceptsWhatWasOffered(s: State, mvs: seq<Move>)
    requires Inv(s) && Legal(s, mvs)
    ensures var r := Play(s, mvs);
            r.accepted + Adding(r.prod) == s.accepted + Adding(s.prod) + Offered(s, mvs)
    decreases |mvs|
  {
    hide Inv, Enabled, Step, Adding, OfferedIn;
    if mvs == [] {
      assert s.accepted + Adding(s.prod) + [] == s.accepted + Adding(s.prod);
    } else {
      ProducerLedger(s, mvs[0]);
      KeepsInv(s, mvs[0]);
      AcceptsWhatWasOffered(Step(s, mvs[0]), mvs[1..]);
      var a, b, c := s.accepted + Adding(s.prod), OfferedIn(s, mvs[0]), Offered(Step(s, mvs[0]), mvs[1..]);
      assert (a + b) + c == a + (b + c);
    }
  }

  /** And as many bytes have been delivered as the Dequeues asked for, each cut to what was in the ring when it was
      called, but for one in progress; a Peek reads as many as it asked for, cut likewise. */
  lemma {:induction false} DeliversWhatWasAsked(s: State, mvs: seq<Move>, peek: nat)
    requires Inv(s) && Legal(s, mvs) && (Peeking(s.cons) ==> s.cons.n == peek)
    ensures var r := Play(s, mvs);
            && |r.delivered| + Taking(r.cons) == |s.delivered| + Taking(s.cons) + Wanted(s, mvs)
            && (Peeking(r.cons) ==> r.cons.n == PeekSize(s, mvs, peek))
    decreases |mvs|
  {
    hide Inv, Enabled, Step, Taking, WantedIn;
    if mvs != [] {
      ConsumerLedger(s, mvs[0]);
      KeepsInv(s, mvs[0]);
      var next := if mvs[0].Peek? then Min(mvs[0].n, InRing(s)) else peek;
      DeliversWhatWasAsked(Step(s, mvs[0]), mvs[1..], next);
    }
  }

  /** From an empty ring: what has been delivered, what is in the ring and what is being added make up, in order, what
      the producer offered. */
  lemma DeliversWhatWasOffered(s: State, mvs: seq<Move>)
    requires Init(s) && Legal(s, mvs)
    ensures var r := Play(s, mvs);
            r.ring.Valid() && r.delivered + Contents(r.ring) + Adding(r.prod) == Offered(s, mvs)
  {
    DeliversInOrder(s, mvs);
    assert Inv(s);
    hide Inv, Legal, Play, Contents;
    AcceptsWhatWasOffered(s, mvs);
    assert s.accepted + Adding(s.prod) + Offered(s, mvs) == Offered(s, mvs);
  }

  // ---- Peek, then the index form of Dequeue ----

  predicate IsProducers(mv: Move) { mv.Enqueue? || mv.Put? || mv.Publish? || mv.PublishIndex? }

  ghost predicate ProducerOnly(mvs: seq<Move>) {
    forall i :: 0 <= i < |mvs| ==> IsProducers(mvs[i])
  }

  lemma ProducerStep(s: State, mv: Move)
    requires Inv(s) && Enabled(s, mv) && InBounds(s, mv) && IsProducers(mv)
    ensures var s' := Step(s, mv);
            && s'.cons == s.cons && s'.delivered == s.delivered && s'.ring.Valid()
            && Contents(s.ring) <= Contents(s'.ring)
  {
    KeepsInv(s, mv);
    var s' := Step(s, mv);
    hide ConsumerOk, ProducerOk, Contents;
    assert s'.accepted == s'.delivered + Contents(s'.ring) && s.accepted == s.delivered + Contents(s.ring);
    assert s.accepted <= s'.accepted;
    assert Contents(s'.ring) == s'.accepted[|s.delivered|..] && Contents(s.ring) == s.accepted[|s.delivered|..];
  }

  /** Whatever the producer does, it only adds behind what the consumer sees. */
  lemma {:induction false} ProducerAdds(s: State, mvs: seq<Move>)
    requires Inv(s) && Legal(s, mvs) && ProducerOnly(mvs)
    ensures var r := Play(s, mvs);
            && Inv(r) && r.cons == s.cons && r.delivered == s.delivered && Contents(s.ring) <= Contents(r.ring)
    decreases |mvs|
  {
    hide Enabled, InBounds, Step, ConsumerOk, ProducerOk, Contents;
    if mvs != [] {
      var rest := mvs[1..];
      assert InBounds(s, mvs[0]) && IsProducers(mvs[0]);
      ProducerStep(s, mvs[0]);
      KeepsInv(s, mvs[0]);
      assert forall i :: 0 <= i < |rest| ==> rest[i] == mvs[i + 1];
      ProducerAdds(Step(s, mvs[0]), rest);
    }
  }

  lemma PeekEnds(s: State)
    requires Inv(s) && Enabled(s, PeekEnd)
    ensures InBounds(s, PeekEnd) && s.cons.got <= Contents(s.ring)
    ensures var s' := Step(s, PeekEnd);
            Inv(s') && s'.cons == CIdle && s'.ring == s.ring && s'.delivered == s.delivered
  {
    KeepsInv(s, PeekEnd);
    hide ProducerOk, Contents;
  }

  lemma IndexStarts(s: State, got: seq<byte>)
    requires Inv(s) && s.cons == CIdle && got <= Contents(s.ring)
    ensures var mv := DequeueIndex(|got|);
            && Enabled(s, mv) && InBounds(s, mv)
            && var s' := Step(s, mv);
               Inv(s') && s'.cons == CDrop(|got|) && s'.ring == s.ring && s'.delivered == s.delivered
  {
    KeepsInv(s, DequeueIndex(|got|));
    hide ProducerOk, Contents;
  }

  lemma IndexEnds(s: State, got: seq<byte>)
    requires Inv(s) && s.cons == CDrop(|got|) && got <= Contents(s.ring)
    ensures Enabled(s, ReleaseIndex) && InBounds(s, ReleaseIndex)
    ensures Step(s, ReleaseIndex).delivered == s.delivered + got
  {
    hide ProducerOk, Contents;
  }

  /** The index form of Dequeue after a Peek, as the server does when a send completes: dropping as many bytes as were
      peeked drops those very bytes, whatever the producer does in between (`xs`) and meanwhile (`ys`). */
  lemma DropTakesWhatPeekSaw(s: State, xs: seq<Move>, ys: seq<Move>)
    requires Inv(s) && Enabled(s, PeekEnd) && InBounds(s, PeekEnd)
    requires var s1 := Step(s, PeekEnd);
             Legal(s1, xs) && ProducerOnly(xs)
    requires var s2 := Play(Step(s, PeekEnd), xs);
             && Enabled(s2, DequeueIndex(|s.cons.got|)) && InBounds(s2, DequeueIndex(|s.cons.got|))
             && Legal(Step(s2, DequeueIndex(|s.cons.got|)), ys) && ProducerOnly(ys)
    ensures var s3 := Play(Step(Play(Step(s, PeekEnd), xs), DequeueIndex(|s.cons.got|)), ys);
            && Enabled(s3, ReleaseIndex) && InBounds(s3, ReleaseIndex)
            && Step(s3, ReleaseIndex).delivered == s.delivered + s.cons.got
  {
    var got := s.cons.got;
    hide *;
    PeekEnds(s);
    var s1 := Step(s, PeekEnd);
    ProducerAdds(s1, xs);
    var s2 := Play(s1, xs);
    assert got <= Contents(s2.ring);
    IndexStarts(s2, got);
    var s3 := Step(s2, DequeueIndex(|got|));
    ProducerAdds(s3, ys);
    assert got <= Contents(Play(s3, ys).ring);
    IndexEnds(Play(s3, ys), got);
  }

  // ---- Every call ends ----

  /** The moves that the call of each side may still take, at most: one for each byte and the final store. */
  function ProducerLeft(p: Producer): nat { if p.PCopy? && p.i <= |p.d| then |p.d| - p.i + 1 else 0 }

  function ConsumerLeft(c: Consumer): nat {
    match c
    case CIdle => 0
    case CCopy(n, got) => (if |got| <= n then n - |got| else 0) + 1
    case CDrop(_) => 1
    case KAgain(n) => n + 2
    case KCopy(n, _, got) => (if |got| <= n then n - |got| else 0) + 1
  }

  /** What a call may cost its side. */
  function Cost(mv: Move): nat {
    match mv
    case Enqueue(d) => |d| + 2
    case Dequeue(n) => n + 2
    case DequeueIndex(n) => n + 2
    case Peek(n) => n + 3
    case _ => 0
  }

  function Costs(mvs: seq<Move>, producer: bool): nat {
    if mvs == [] then 0
    else (if IsProducers(mvs[0]) == producer then Cost(mvs[0]) else 0) + Costs(mvs[1..], producer)
  }

  function Made(mvs: seq<Move>, producer: bool): nat {
    if mvs == [] then 0 else (if IsProducers(mvs[0]) == producer then 1 else 0) + Made(mvs[1..], producer)
  }

  lemma StepLeft(s: State, mv: Move)
    requires Inv(s) && Enabled(s, mv) && InBounds(s, mv)
    ensures var s' := Step(s, mv);
            if IsProducers(mv) then
              1 + ProducerLeft(s'.prod) <= ProducerLeft(s.prod) + Cost(mv) && s'.cons == s.cons
            else
              1 + ConsumerLeft(s'.cons) <= ConsumerLeft(s.cons) + Cost(mv) && s'.prod == s.prod
  {
    hide Contents;
  }

  /** Each side inside a call can make a move. */
  lemma NeverStuck(s: State)
    requires Inv(s)
    ensures s.prod.PCopy? ==> Enabled(s, Put) || Enabled(s, Publish)
    ensures !s.cons.CIdle? ==>
              Enabled(s, Get) || Enabled(s, Release) || Enabled(s, ReleaseIndex)
              || Enabled(s, Look) || Enabled(s, PeekByte) || Enabled(s, PeekEnd)
  {
    hide Contents;
  }

  /** Wait freedom: in every interleaving each side makes at most one move for each byte its calls ask for and three
      more for each call. */
  lemma {:induction false} WaitFree(s: State, mvs: seq<Move>)
    requires Inv(s) && Legal(s, mvs)
    ensures var r := Play(s, mvs);
            && Made(mvs, true) + ProducerLeft(r.prod) <= ProducerLeft(s.prod) + Costs(mvs, true)
            && Made(mvs, false) + ConsumerLeft(r.cons) <= ConsumerLeft(s.cons) + Costs(mvs, false)
    decreases |mvs|
  {
    hide Inv, Enabled, InBounds, Step, ProducerLeft, ConsumerLeft, Cost;
    if mvs != [] {
      StepLeft(s, mvs[0]);
      KeepsInv(s, mvs[0]);
      WaitFree(Step(s, mvs[0]), mvs[1..]);
    }
  }
}
