/** What the queue guarantees in every run. */
module QueueSafety {
  import opened Census
  import opened LinkedList
  import opened LockFreeQueue
  import opened QueueInvariant
  import Allocator

  /** Every run in which the pool spares the nodes that Enqueues are about to link to keeps the invariant. */
  lemma RunKeeps(s: State, mvs: seq<Move>)
    requires Init(s) && Legal(s, mvs) && SparesAll(s, mvs)
    ensures Inv(Play(s, mvs))
  {
    InitInv(s);
    Reachable(s, mvs);
  }

  // ---- Order ----

  /** FIFO: what has been dequeued is a prefix of what has been enqueued, and the rest is linked from the head in
      order. */
  lemma FirstInFirstOut(s: State, mvs: seq<Move>)
    requires Init(s) && Legal(s, mvs) && SparesAll(s, mvs)
    ensures var m := Play(s, mvs).m;
            && m.deq <= m.enq
            && Linked(m.next, m.head, m.chain) && m.chain != []
            && (forall i :: 0 <= i < |m.chain| ==> m.chain[i] in m.data)
            && m.enq[|m.deq|..] == Items(m.data, m.chain[1..])
  {
    hide Linked;
    RunKeeps(s, mvs);
    var m := Play(s, mvs).m;
    assert Fifo(m.data, m.chain, m.enq, m.deq);
  }

  /** With a single producer, FIFO needs no assumption on the pool: nodes are recycled freely. */
  lemma OneProducerFifo(s: State, mvs: seq<Move>, p: Tid)
    requires Init(s) && Legal(s, mvs) && OneProducer(mvs, p)
    ensures var m := Play(s, mvs).m;
            && m.deq <= m.enq
            && Linked(m.next, m.head, m.chain) && m.chain != []
            && (forall i :: 0 <= i < |m.chain| ==> m.chain[i] in m.data)
            && m.enq[|m.deq|..] == Items(m.data, m.chain[1..])
  {
    OneProducerSpares(s, mvs, p);
    FirstInFirstOut(s, mvs);
  }

  /** The item that a Dequeue will return, once its CAS succeeds, is the oldest one not yet dequeued. */
  lemma DequeueTakesOldest(s: State, mvs: seq<Move>, t: Tid)
    requires Init(s) && Legal(s, mvs) && SparesAll(s, mvs)
    requires var r := Play(s, mvs); t in r.thr && Unlinks(r.m, r.thr[t])
    ensures var r := Play(s, mvs);
            && |r.m.deq| < |r.m.enq|
            && r.thr[t].v == r.m.enq[|r.m.deq|]
            && |r.m.chain| >= 2 && r.m.chain[0] == r.thr[t].h && r.m.chain[1] == r.thr[t].nx
  {
    RunKeeps(s, mvs);
    var r := Play(s, mvs);
    Moved(r.thr, t, Idle, Looping);
    HeadCasIsCurrent(r.m, Tally(r.thr), t, r.thr[t]);
    hide Linked;
    assert Fifo(r.m.data, r.m.chain, r.m.enq, r.m.deq);
    assert r.m.enq[|r.m.deq|] == Items(r.m.data, Tail(r.m.chain))[0];
  }

  // ---- No ABA at the head ----

  /** What a step that moves neither end of the list leaves alone. A dequeuer enters the loop only by taking a
      new tag. */
  ghost predicate EndsStay(m: Shared, m': Shared, w: int, w': int, entering: bool) {
    && m'.chain == m.chain && m'.head == m.head && m'.deq == m.deq && m.next.Keys <= m'.next.Keys
    && (if entering then m'.htag == m.htag + 1 else m'.htag == m.htag && w' == w)
  }

  lemma SwingStays(m: Shared, k: Counts, t: Tid, pc: PC, a: Act)
    requires Enabled(m, pc, a) && Swings(m, pc)
    ensures var (m', pc') := Exec(m, t, pc, a); EndsStay(m, m', k.looping, Shift(k, pc, pc').looping, pc.DTag?)
  {
  }

  lemma PrivateStays(m: Shared, k: Counts, t: Tid, pc: PC, a: Act)
    requires Enabled(m, pc, a) && (pc.EAlloc? || pc.EInit? || pc.EData? || pc.DFree? || pc.ETag?)
    ensures var (m', pc') := Exec(m, t, pc, a); EndsStay(m, m', k.looping, Shift(k, pc, pc').looping, false)
  {
  }

  lemma CountStays(m: Shared, k: Counts, t: Tid, pc: PC, a: Act)
    requires Enabled(m, pc, a) && (pc.Idle? || pc.ECount? || pc.DFail? || pc.DTag?)
    ensures var (m', pc') := Exec(m, t, pc, a); EndsStay(m, m', k.looping, Shift(k, pc, pc').looping, pc.DTag?)
  {
  }

  lemma OthersStay(m: Shared, k: Counts, t: Tid, pc: PC, a: Act)
    requires Enabled(m, pc, a) && !Links(m, pc) && !Unlinks(m, pc)
    ensures var (m', pc') := Exec(m, t, pc, a); EndsStay(m, m', k.looping, Shift(k, pc, pc').looping, pc.DTag?)
  {
    hide Exec, Enabled, Links, Swings, Unlinks, Shift;
    if Swings(m, pc) {
      SwingStays(m, k, t, pc, a);
    } else if pc.EAlloc? || pc.EInit? || pc.EData? || pc.DFree? || pc.ETag? {
      PrivateStays(m, k, t, pc, a);
    } else if pc.Idle? || pc.ECount? || pc.DFail? || pc.DTag? {
      CountStays(m, k, t, pc, a);
    } else {
      SilentKeeps(m, k, t, pc, a);
    }
  }

  lemma SnapshotAfterLink(m: Shared, k: Counts, n: Node, v: Item, tp: Node, u: int, h: Node, c: nat)
    requires HeadSnap(m, k.looping, u, h, |m.deq| == c) && tp in m.next && k.looping <= |m.chain|
    ensures var m' := Linking(m, n, v, tp); HeadSnap(m', k.looping, u, h, |m'.deq| == c)
  {
    LinkBeyond(m.chain, k.looping, n);
  }

  lemma SnapshotAfterUnlink(m: Shared, k: Counts, t: Tid, pc: PC, u: int, h: Node, c: nat)
    requires Global(m, k) && Ok(m, k.looping, t, pc) && Unlinks(m, pc) && k.looping >= 1
    requires HeadSnap(m, k.looping, u, h, |m.deq| == c)
    ensures var m' := Unlinking(m, t, pc.h, pc.v, pc.nx);
            HeadSnap(m', k.looping - 1, u, h, |m'.deq| == c)
  {
    hide Linked, Fifo, NoDup, TailNear;
    HeadCasIsCurrent(m, k, t, pc);
    HeadPoints(m);
    NoDuplicates(m);
    assert pc.h in m.chain && pc.h !in m.own;
    var m' := Unlinking(m, t, pc.h, pc.v, pc.nx);
    hide Owned, Ok, HeadSnap;
    UnlinkHeadSnap(m, m', t, k.looping, u, h, |m.deq| == c, |m'.deq| == c);
  }

  /** Once a thread has read the head under its tag, every step of every thread keeps this: while the tag is the
      same, either no head CAS has succeeded since, or the node read is out of reach of the threads in the loop. */
  lemma SnapshotStands(m: Shared, k: Counts, t: Tid, pc: PC, a: Act, u: int, h: Node, c: nat)
    requires Global(m, k) && Sane(k, pc) && Ok(m, k.looping, t, pc) && Enabled(m, pc, a)
    requires HeadSnap(m, k.looping, u, h, |m.deq| == c)
    ensures var (m', pc') := Exec(m, t, pc, a);
            HeadSnap(m', Shift(k, pc, pc').looping, u, h, |m'.deq| == c)
  {
    hide Linked, Fifo, TailNear, Owned, Beyond, EnqueueOk, DequeueOk;
    if Links(m, pc) {
      SnapshotAfterLink(m, k, pc.n, pc.v, pc.tp, u, h, c);
    } else if Unlinks(m, pc) {
      SnapshotAfterUnlink(m, k, t, pc, u, h, c);
    } else {
      OthersStay(m, k, t, pc, a);
    }
  }

  lemma {:induction false} SnapshotStandsLong(s: State, mvs: seq<Move>, u: int, h: Node, c: nat)
    requires Inv(s) && Legal(s, mvs) && SparesAll(s, mvs)
    requires HeadSnap(s.m, Tally(s.thr).looping, u, h, |s.m.deq| == c)
    ensures var r := Play(s, mvs); HeadSnap(r.m, Tally(r.thr).looping, u, h, |r.m.deq| == c)
    decreases |mvs|
  {
    hide Global, Ok, HeadSnap;
    if mvs != [] {
      var t, pc := mvs[0].t, s.thr[mvs[0].t];
      var (m', pc') := Exec(s.m, t, pc, mvs[0].act);
      Recount(s.thr, t, pc');
      SnapshotStands(s.m, Tally(s.thr), t, pc, mvs[0].act, u, h, c);
      KeepsInv(s, mvs[0]);
      SnapshotStandsLong(Step(s, mvs[0]), mvs[1..], u, h, c);
    }
  }

  lemma {:induction false} RunsJoin(s: State, xs: seq<Move>, ys: seq<Move>)
    requires Legal(s, xs) && SparesAll(s, xs) && Legal(Play(s, xs), ys) && SparesAll(Play(s, xs), ys)
    ensures Legal(s, xs + ys) && SparesAll(s, xs + ys) && Play(s, xs + ys) == Play(Play(s, xs), ys)
    decreases |xs|
  {
    if xs == [] {
      assert xs + ys == ys;
    } else {
      assert (xs + ys)[1..] == xs[1..] + ys;
      RunsJoin(Step(s, xs[0]), xs[1..], ys);
    }
  }

  /** The head CAS has no ABA, although neither the CAS nor any other head CAS changes the tag: if it succeeds,
      no head CAS at all has succeeded since its thread read the head. */
  lemma HeadCasHasNoAba(s: State, xs: seq<Move>, ys: seq<Move>, t: Tid)
    requires Init(s) && Legal(s, xs) && SparesAll(s, xs)
    requires var r := Play(s, xs); t in r.thr && r.thr[t].DTail? && r.m.head == r.thr[t].h && r.m.htag >= r.thr[t].u
    requires var r := Play(s, xs); Legal(r, ys) && SparesAll(r, ys)
    requires var r, q := Play(s, xs), Play(Play(s, xs), ys);
             t in q.thr && Unlinks(q.m, q.thr[t]) && q.thr[t].h == r.thr[t].h && q.thr[t].u == r.thr[t].u
    ensures |Play(Play(s, xs), ys).m.deq| == |Play(s, xs).m.deq|
  {
    RunKeeps(s, xs);
    var r := Play(s, xs);
    var q := Play(r, ys);
    var u, h := r.thr[t].u, r.thr[t].h;
    HeadPoints(r.m);
    SnapshotStandsLong(r, ys, u, h, |r.m.deq|);
    Reachable(r, ys);
    Moved(q.thr, t, Idle, Looping);
    HeadPoints(q.m);
    assert q.m.chain[0] == h;
  }

  /** No ABA at the tail either: a CAS on the tail that succeeds, by whichever thread, finds the tail next to last
      and moves it to the last node. */
  lemma TailCasAdvancesOne(s: State, mvs: seq<Move>, t: Tid)
    requires Init(s) && Legal(s, mvs) && SparesAll(s, mvs)
    requires var r := Play(s, mvs); t in r.thr && Swings(r.m, r.thr[t])
    ensures var r := Play(s, mvs);
            && |r.m.chain| >= 2 && r.m.tail == r.m.chain[|r.m.chain| - 2]
            && NewTail(r.thr[t]) == Last(r.m.chain)
  {
    hide Linked, Fifo, Ok, Booked, Owned, Points, TailSnap;
    RunKeeps(s, mvs);
    var r := Play(s, mvs);
    var pc, k := r.thr[t], Tally(r.thr);
    SwingSnap(r.m, k.looping, t, pc);
    TailMoveKeeps(r.m, k, r.m.ttag, NewTail(pc));
    LastIsNull(r.m, NewTail(pc));
  }

  lemma SwingSnap(m: Shared, w: int, t: Tid, pc: PC)
    requires Ok(m, w, t, pc) && Swings(m, pc)
    ensures TailSnap(m, m.ttag, m.tail, Points(m, m.tail, NewTail(pc)))
  {
    hide HeadSnap, Ready;
  }

  lemma LastIsNull(m: Shared, nx: Node)
    requires Linked(m.next, m.head, m.chain) && m.chain != [] && Points(m, m.tail, nx)
    ensures m.tail != Last(m.chain)
  {
    assert At(m.chain, |m.chain|) == NULL;
    assert m.next[m.chain[|m.chain| - 1]] == At(m.chain, |m.chain| - 1 + 1);
  }

  // ---- Shape and counter ----

  /** In every reachable state the list from the head is acyclic and made of issued nodes that no thread holds,
      the tail is its last or next-to-last node, so the head never passes it, and every issued node is accounted for. */
  lemma Shape(s: State, mvs: seq<Move>, n: Node)
    requires Init(s) && Legal(s, mvs) && SparesAll(s, mvs)
    ensures var m := Play(s, mvs).m;
            && Linked(m.next, m.head, m.chain) && NoDup(m.chain)
            && m.chain != [] && (m.tail == Last(m.chain) || (|m.chain| >= 2 && m.tail == m.chain[|m.chain| - 2]))
            && multiset(m.chain)[n] + Bit(n in m.own) == Bit(n in m.live)
  {
    RunKeeps(s, mvs);
    var r := Play(s, mvs);
    var m := r.m;
    hide Ok, Fifo, Booked;
    assert Global(m, Tally(r.thr));
    hide Inv, Linked;
    NoDuplicates(m);
    InOnePlace(m, n);
    hide Owned;
  }

  lemma InOnePlace(m: Shared, n: Node)
    requires Owned(m.live, m.chain, m.own, m.next) && NoDup(m.chain)
    ensures multiset(m.chain)[n] + Bit(n in m.own) == Bit(n in m.live)
  {
    if n in m.chain {
      OccursOnce(m.chain, n);
    }
  }

  /** The use counter, exactly, and the reservation it stands for. */
  lemma UseCount(s: State, mvs: seq<Move>)
    requires Init(s) && Legal(s, mvs) && SparesAll(s, mvs)
    ensures var r := Play(s, mvs);
            var linked := |r.m.enq| - |r.m.deq|;
            && r.m.use == linked - Count(r.thr, Uncounted) - (Count(r.thr, Waiting) + Count(r.thr, Looping))
                          - Count(r.thr, Failing)
            && Count(r.thr, Waiting) + Count(r.thr, Looping) <= linked
  {
    RunKeeps(s, mvs);
    var r := Play(s, mvs);
    hide Linked, Ok, Owned;
    assert Global(r.m, Tally(r.thr));
    assert Fifo(r.m.data, r.m.chain, r.m.enq, r.m.deq) && r.m.chain != [];
    FifoCount(r.m.data, r.m.chain, r.m.enq, r.m.deq);
    hide Inv, Fifo;
  }

  // ---- No fault, and a proper use of the pool ----

  /** No thread ever follows a null or dangling pointer, and none is ever stuck inside a call. */
  lemma NeverFaults(s: State, mvs: seq<Move>, t: Tid)
    requires Init(s) && Legal(s, mvs) && SparesAll(s, mvs)
    requires t in Play(s, mvs).thr
    ensures var r := Play(s, mvs); Mapped(r.m, r.thr[t])
    ensures var r := Play(s, mvs);
            !r.thr[t].Idle? ==> forall n :: n != NULL && n !in r.m.live ==> Enabled(r.m, r.thr[t], Go(n, r.m.ttag))
  {
    RunKeeps(s, mvs);
    var r := Play(s, mvs);
    var pc := r.thr[t];
    assert Ok(r.m, Tally(r.thr).looping, t, pc);
    hide Linked, Fifo, Beyond;
    assert r.m.data.Keys == r.m.next.Keys;
  }

  ghost function Effect(m: Shared, pc: PC, a: Act): Allocator.Event<Node>
    requires Enabled(m, pc, a)
  {
    match pc
    case EAlloc(_) => Allocator.Issue(a.n)
    case DFree(h, _) => Allocator.Retire(h)
    case _ => Allocator.Stutter
  }

  lemma EffectFollows(m: Shared, k: Counts, t: Tid, pc: PC, a: Act)
    requires Global(m, k) && Ok(m, k.looping, t, pc) && Enabled(m, pc, a)
    ensures var e := Effect(m, pc, a);
            && Allocator.Follows(m.live, Exec(m, t, pc, a).0.live, e)
            && (e.Retire? ==> e.n !in m.chain && Holds(m, t, e.n, Retired))
  {
    hide Linked, Fifo, HeadSnap, TailSnap, LinkSnap, Ready, TailNear, Booked, EnqueueOk;
    if pc.DFree? {
      assert pc.h in m.own && pc.h in m.live;
    }
  }

  /** The queue gives back only nodes that are issued, unlinked and held by the freeing thread alone. */
  lemma QueueObeysThePool(s: State, mvs: seq<Move>, mv: Move)
    requires Init(s) && Legal(s, mvs) && SparesAll(s, mvs) && Can(Play(s, mvs), mv)
    ensures var r := Play(s, mvs);
            var e := Effect(r.m, r.thr[mv.t], mv.act);
            && Allocator.Follows(r.m.live, Step(r, mv).m.live, e)
            && (e.Retire? ==> e.n !in r.m.chain && Holds(r.m, mv.t, e.n, Retired))
  {
    hide Global, Ok, Allocator.Follows, Effect, Enabled;
    RunKeeps(s, mvs);
    var r := Play(s, mvs);
    EffectFollows(r.m, Tally(r.thr), mv.t, r.thr[mv.t], mv.act);
  }

  // ---- The assumption on the pool is exactly what is needed ----

  /** The list from the head carries exactly the items linked and not yet unlinked. */
  ghost predicate Faithful(m: Shared) {
    exists l :: Linked(m.next, m.head, l) && Fifo(m.data, l, m.enq, m.deq)
  }

  /** The next moves once a snapped node `mv.act.n` is re-issued to `mv.t`: that thread nulls the node's link, and
      the Enqueue `o` that holds the stale snapshot links its own node to it. */
  function Mishap(pc: PC, t: Tid, o: Tid): seq<Move> {
    if pc.ENext? then [Move(t, Go(0, 0)), Move(o, Go(0, 0)), Move(o, Go(0, 0))]
    else [Move(t, Go(0, 0)), Move(o, Go(0, 0))]
  }

  /** Then an item that has been linked is not in the queue. */
  lemma MishapStrays(s: State, mv: Move, o: Tid)
    requires Inv(s) && Can(s, mv) && s.thr[mv.t].EAlloc? && o in s.thr && Snapped(s.thr[o], mv.act.n)
    ensures var s1 := Step(s, mv);
            var ms := Mishap(s.thr[o], mv.t, o);
            && Legal(s1, ms) && SparesAll(s1, ms)
            && !Faithful(Play(s1, ms).m)
  {
    hide Global, Ok, Linked, Fifo, Faithful;
    MishapList(s, mv, o);
    var s1 := Step(s, mv);
    var s2 := Step(s1, Move(mv.t, Go(0, 0)));
    MishapPlays(s1, s.thr[o], mv.t, o, mv.act.n);
    LinkAside(s2.m, s.m.chain, s.thr[o].n, s.thr[o].v, mv.act.n);
  }

  lemma MishapPlays(s1: State, pc: PC, t: Tid, o: Tid, n: Node)
    requires t in s1.thr && s1.thr[t].EInit? && s1.thr[t].n == n && o in s1.thr && s1.thr[o] == pc && o != t
    requires Snapped(pc, n)
    ensures Can(s1, Move(t, Go(0, 0)))
    ensures var s2 := Step(s1, Move(t, Go(0, 0)));
            var ms := Mishap(pc, t, o);
            && Legal(s1, ms) && SparesAll(s1, ms)
            && Play(s1, ms).m == Linking(s2.m, pc.n, pc.v, n)
  {
    var go := Move(o, Go(0, 0));
    var s2 := Step(s1, Move(t, Go(0, 0)));
    assert s2.thr[o] == pc && s2.m.next[n] == NULL && Can(s2, go);
    var s3 := Step(s2, go);
    var ms := Mishap(pc, t, o);
    assert Legal(s3, []) && SparesAll(s3, []) && Play(s3, []) == s3;
    if pc.ENext? {
      assert s3.m == s2.m && s3.thr[o] == ELink(pc.n, pc.v, pc.u, n) && Can(s3, go);
      var s4 := Step(s3, go);
      assert Legal(s4, []) && SparesAll(s4, []) && Play(s4, []) == s4;
      OneMove(s3, go, []);
      OneMove(s2, go, [go]);
      OneMove(s1, Move(t, Go(0, 0)), [go, go]);
      assert [go] + [go] == [go, go] && [Move(t, Go(0, 0))] + [go, go] == ms;
    } else {
      OneMove(s2, go, []);
      OneMove(s1, Move(t, Go(0, 0)), [go]);
      assert [Move(t, Go(0, 0))] + [go] == ms;
    }
  }

  lemma OneMove(s: State, mv: Move, rest: seq<Move>)
    requires Can(s, mv) && Spares(s, mv) && Legal(Step(s, mv), rest) && SparesAll(Step(s, mv), rest)
    ensures Legal(s, [mv] + rest) && SparesAll(s, [mv] + rest)
    ensures Play(s, [mv] + rest) == Play(Step(s, mv), rest)
    ensures [mv] + [] == [mv]
  {
    assert ([mv] + rest)[1..] == rest;
  }

  lemma FifoCount(data: map<Node, Item>, l: seq<Node>, enq: seq<Item>, deq: seq<Item>)
    ensures Fifo(data, l, enq, deq) ==> |enq| == |deq| + |Tail(l)|
  {
  }

  /** A link CAS on a node outside the list counts an item that the list does not carry. */
  lemma LinkAside(m: Shared, l: seq<Node>, n: Node, v: Item, tp: Node)
    requires Linked(m.next, m.head, l) && Fifo(m.data, l, m.enq, m.deq) && tp !in l
    ensures !Faithful(Linking(m, n, v, tp))
  {
    var m' := Linking(m, n, v, tp);
    WriteElsewhere(m.next, m.head, l, tp, n);
    forall l' | Linked(m'.next, m'.head, l') ensures !Fifo(m'.data, l', m'.enq, m'.deq) {
      Unique(m'.next, m'.head, l', l);
      FifoCount(m.data, l, m.enq, m.deq);
      FifoCount(m'.data, l, m'.enq, m'.deq);
    }
  }

  /** Re-issuing and nulling the node leaves the list from the head and its items as they were. */
  lemma MishapList(s: State, mv: Move, o: Tid)
    requires Inv(s) && Can(s, mv) && s.thr[mv.t].EAlloc? && o in s.thr && Snapped(s.thr[o], mv.act.n)
    ensures var s1 := Step(s, mv);
            && Can(s1, Move(mv.t, Go(0, 0)))
            && var s2 := Step(s1, Move(mv.t, Go(0, 0)));
            && Linked(s2.m.next, s2.m.head, s.m.chain) && mv.act.n !in s.m.chain && mv.act.n in s2.m.next
            && Fifo(s2.m.data, s.m.chain, s2.m.enq, s2.m.deq)
  {
    var t, n, k := mv.t, mv.act.n, Tally(s.thr);
    IssueKeeps(s.m, k, t, n);
    var m1 := Issued(s.m, t, n);
    assert m1.chain == s.m.chain && n in m1.live;
    InitKeeps(m1, k, t, n);
    hide Linked, Fifo, Ok;
    assert n !in s.m.chain;
  }

  /** The exact condition. Re-issuing a node is harmless, whatever happens next under the same discipline, if and
      only if no Enqueue is about to link to it. */
  lemma ReissueIsSafeIff(s: State, mv: Move)
    requires Inv(s) && Can(s, mv) && s.thr[mv.t].EAlloc?
    ensures Spares(s, mv) <==>
            forall ms :: Legal(Step(s, mv), ms) && SparesAll(Step(s, mv), ms) ==> Faithful(Play(Step(s, mv), ms).m)
  {
    var s1 := Step(s, mv);
    if Spares(s, mv) {
      KeepsInv(s, mv);
      forall ms | Legal(s1, ms) && SparesAll(s1, ms) ensures Faithful(Play(s1, ms).m) {
        Reachable(s1, ms);
        var m := Play(s1, ms).m;
        assert Linked(m.next, m.head, m.chain) && Fifo(m.data, m.chain, m.enq, m.deq);
      }
    } else {
      var o :| o in s.thr && Snapped(s.thr[o], mv.act.n);
      MishapStrays(s, mv, o);
    }
  }
}
