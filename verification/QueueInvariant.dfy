/** The invariant of the queue and the proof that every step keeps it. */
module QueueInvariant {
  import opened Census
  import opened LinkedList
  import opened LockFreeQueue

  // ---- Who is where ----

  predicate Uncounted(pc: PC) { pc.ESwing? || pc.ECount? }
  predicate Waiting(pc: PC) { pc.DTag? }
  predicate Looping(pc: PC) {
    pc.DHead? || pc.DTail? || pc.DNext? || pc.DReread? || pc.DHelp? || pc.DData? || pc.DNext2? || pc.DCas?
  }
  predicate Failing(pc: PC) { pc.DFail? }

  /** Linked but not counted; reserved before the head tag; reserved and in the loop; failed and not yet undone. */
  datatype Counts = Counts(uncounted: int, waiting: int, looping: int, failing: int)

  ghost function Tally(thr: map<Tid, PC>): Counts {
    Counts(Count(thr, Uncounted), Count(thr, Waiting), Count(thr, Looping), Count(thr, Failing))
  }

  function Shift(k: Counts, pc: PC, pc': PC): Counts {
    Counts(k.uncounted - Bit(Uncounted(pc)) + Bit(Uncounted(pc')),
           k.waiting - Bit(Waiting(pc)) + Bit(Waiting(pc')),
           k.looping - Bit(Looping(pc)) + Bit(Looping(pc')),
           k.failing - Bit(Failing(pc)) + Bit(Failing(pc')))
  }

  ghost predicate Sane(k: Counts, pc: PC) {
    && k.uncounted >= Bit(Uncounted(pc)) && k.waiting >= Bit(Waiting(pc))
    && k.looping >= Bit(Looping(pc)) && k.failing >= Bit(Failing(pc))
    && k.uncounted >= 0 && k.waiting >= 0 && k.looping >= 0 && k.failing >= 0
  }

  lemma Recount(thr: map<Tid, PC>, t: Tid, pc': PC)
    requires t in thr
    ensures Tally(thr[t := pc']) == Shift(Tally(thr), thr[t], pc')
    ensures Sane(Tally(thr), thr[t])
  {
    Moved(thr, t, pc', Uncounted);
    Moved(thr, t, pc', Waiting);
    Moved(thr, t, pc', Looping);
    Moved(thr, t, pc', Failing);
  }

  // ---- The shared words ----

  ghost function Last(chain: seq<Node>): Node
    requires chain != []
  {
    chain[|chain| - 1]
  }

  /** Tail is the last node of the chain or the one before it. */
  ghost predicate TailNear(chain: seq<Node>, tail: Node) {
    && chain != []
    && (tail == Last(chain) || (|chain| >= 2 && tail == chain[|chain| - 2]))
  }

  /** An issued node is in the chain or held by one thread, never both; every link is null or leads to a node. */
  ghost predicate Owned(live: set<Node>, chain: seq<Node>, own: map<Node, Own>, next: map<Node, Node>) {
    && NULL !in next && live <= next.Keys
    && (forall n :: n in live <==> (n in own || n in chain))
    && (forall n :: n in chain ==> n !in own)
    && (forall n :: n in next ==> next[n] == NULL || next[n] in next)
  }

  /** What has been linked is what has been unlinked followed by what is in the chain after the dummy. */
  ghost predicate Fifo(data: map<Node, Item>, chain: seq<Node>, enq: seq<Item>, deq: seq<Item>) {
    && (forall i :: 0 <= i < |chain| ==> chain[i] in data)
    && enq == deq + Items(data, Tail(chain))
  }

  ghost predicate Booked(use: int, n: int, k: Counts) {
    && use == n - 1 - k.uncounted - (k.waiting + k.looping) - k.failing
    && k.waiting + k.looping <= n - 1
  }

  ghost predicate Global(m: Shared, k: Counts) {
    && Linked(m.next, m.head, m.chain)
    && TailNear(m.chain, m.tail)
    && Owned(m.live, m.chain, m.own, m.next)
    && m.data.Keys == m.next.Keys
    && Fifo(m.data, m.chain, m.enq, m.deq)
    && Booked(m.use, |m.chain|, k)
  }

  // ---- What a thread may rely on ----

  ghost predicate Holds(m: Shared, t: Tid, n: Node, ph: Phase) {
    n in m.own && m.own[n] == Own(t, ph)
  }

  /** The node is ready to be linked: held, its link null and its item written. */
  ghost predicate Ready(m: Shared, t: Tid, n: Node, v: Item, ph: Phase) {
    Holds(m, t, n, ph) && n in m.next && m.next[n] == NULL && n in m.data && m.data[n] == v
  }

  /** None of the next `w` heads is `h`. */
  ghost predicate Beyond(chain: seq<Node>, w: int, h: Node) {
    forall i :: 0 <= i < w && i < |chain| ==> chain[i] != h
  }

  /** The head snapshot. While the tag is still `u`, either the head has not moved since the snapshot and `info`
      stands, or `h` is out of reach of every dequeuer now in the loop, `w` of them. */
  ghost predicate HeadSnap(m: Shared, w: int, u: int, h: Node, info: bool) {
    && u <= m.htag && h in m.next
    && (u == m.htag ==> (m.head == h && info) || Beyond(m.chain, w, h))
  }

  /** The tail snapshot under tag `u`. While the tag is still `u`, either `tl` has stayed in the chain and `info`
      stands, or it left and no Enqueue past its tag increment can bring it back. */
  ghost predicate TailSnap(m: Shared, u: int, tl: Node, info: bool) {
    && u <= m.ttag && tl in m.next
    && (u == m.ttag ==>
          (tl in m.chain && info) || (tl !in m.chain && (tl in m.own ==> !m.own[tl].phase.Armed?)))
  }

  /** The node an Enqueue is about to link to: still in the chain and never ahead of the tail, or unlinked with
      a link that stays non-null. */
  ghost predicate LinkSnap(m: Shared, tp: Node) {
    && tp in m.next && m.chain != []
    && (tp in m.chain ==> tp == Last(m.chain) ==> m.tail == Last(m.chain))
    && (tp !in m.chain ==> m.next[tp] != NULL && (tp in m.own ==> m.own[tp].phase.Retired?))
  }

  ghost predicate Second(m: Shared, nx: Node) {
    |m.chain| >= 2 && m.chain[1] == nx
  }

  ghost predicate FirstItem(m: Shared, v: Item) {
    |m.chain| >= 2 && m.chain[1] in m.data && m.data[m.chain[1]] == v
  }

  ghost predicate Points(m: Shared, n: Node, nx: Node) {
    n in m.next && m.next[n] == nx && nx != NULL
  }

  ghost predicate EnqueueOk(m: Shared, t: Tid, pc: PC) {
    match pc
    case EInit(n, v) => Holds(m, t, n, Fresh)
    case EData(n, v) => Holds(m, t, n, Fresh) && n in m.next && m.next[n] == NULL
    case ETag(n, v) => Ready(m, t, n, v, Fresh)
    case ETail(n, v, u) => Ready(m, t, n, v, Armed) && u <= m.ttag
    case ENext(n, v, u, tp) => Ready(m, t, n, v, Armed) && TailSnap(m, u, tp, true) && LinkSnap(m, tp)
    case ELink(n, v, u, tp) => Ready(m, t, n, v, Armed) && TailSnap(m, u, tp, true) && LinkSnap(m, tp)
    case ESwing(n, u, tp) => TailSnap(m, u, tp, Points(m, tp, n))
    case EReread(n, v, u, tp) => Ready(m, t, n, v, Armed) && tp in m.next && TailSnap(m, u, tp, m.next[tp] != NULL)
    case EHelp(n, v, u, tp, nx) => Ready(m, t, n, v, Armed) && TailSnap(m, u, tp, Points(m, tp, nx))
    case _ => true
  }

  /** `w` is the number of dequeuers in the loop, this one among them. */
  ghost predicate DequeueOk(m: Shared, w: int, t: Tid, pc: PC) {
    match pc
    case DHead(u, tu) => u <= m.htag && tu <= m.ttag
    case DTail(u, tu, h) => tu <= m.ttag && HeadSnap(m, w, u, h, true)
    case DNext(u, tu, h, tl) => TailSnap(m, tu, tl, true) && HeadSnap(m, w, u, h, tl == h || m.tail != h)
    case DReread(u, tu, h, nx) =>
      h in m.next && nx in m.next && TailSnap(m, tu, h, m.next[h] != NULL) && HeadSnap(m, w, u, h, Second(m, nx))
    case DHelp(u, tu, h, nx, nx2) =>
      nx in m.next && TailSnap(m, tu, h, Points(m, h, nx2)) && HeadSnap(m, w, u, h, Second(m, nx))
    case DData(u, tu, h, nx) => nx in m.next && tu <= m.ttag && HeadSnap(m, w, u, h, Second(m, nx) && m.tail != h)
    case DNext2(u, tu, h, v) => tu <= m.ttag && HeadSnap(m, w, u, h, FirstItem(m, v) && m.tail != h)
    case DCas(u, tu, h, v, nx) =>
      tu <= m.ttag && HeadSnap(m, w, u, h, FirstItem(m, v) && m.tail != h && Second(m, nx))
    case DFree(h, v) => Holds(m, t, h, Retired)
    case _ => true
  }

  ghost predicate Ok(m: Shared, w: int, t: Tid, pc: PC) {
    EnqueueOk(m, t, pc) && DequeueOk(m, w, t, pc)
  }

  ghost predicate Inv(s: State) {
    var k := Tally(s.thr);
    && Global(s.m, k)
    && forall t :: t in s.thr ==> Ok(s.m, k.looping, t, s.thr[t])
  }

  // ---- Facts about the chain ----

  lemma LastPoints(m: Shared, n: Node)
    requires Linked(m.next, m.head, m.chain) && n in m.chain && m.next[n] == NULL
    ensures m.chain != [] && n == Last(m.chain)
  {
    var i :| 0 <= i < |m.chain| && m.chain[i] == n;
    assert At(m.chain, i + 1) == NULL;
  }

  lemma HeadPoints(m: Shared)
    requires Linked(m.next, m.head, m.chain) && m.chain != []
    ensures m.head == m.chain[0] && m.head in m.next && m.next[m.head] == At(m.chain, 1)
    ensures m.next[m.head] != NULL <==> |m.chain| >= 2
  {
    assert At(m.chain, 0) == m.chain[0];
  }

  /** A tail that has a successor has the last node as successor. */
  lemma TailPoints(m: Shared, nx: Node)
    requires Linked(m.next, m.head, m.chain) && TailNear(m.chain, m.tail) && Points(m, m.tail, nx)
    ensures nx == Last(m.chain) && |m.chain| >= 2 && nx != m.head && nx in m.next
  {
    var l := |m.chain|;
    assert At(m.chain, l) == NULL;
    assert m.next[m.chain[l - 1]] == At(m.chain, l - 1 + 1);
    assert m.tail == m.chain[l - 2];
    assert m.next[m.chain[l - 2]] == At(m.chain, l - 2 + 1);
    assert m.head == At(m.chain, 0);
  }

  lemma Append(next: map<Node, Node>, head: Node, chain: seq<Node>, n: Node)
    requires Linked(next, head, chain) && chain != [] && n !in chain && n != NULL && n in next && next[n] == NULL
    ensures Linked(next[Last(chain) := n], head, chain + [n])
  {
    var r, next' := chain + [n], next[Last(chain) := n];
    var l := |chain|;
    forall i | 0 <= i < |r| ensures r[i] != NULL && r[i] in next' && next'[r[i]] == At(r, i + 1) {
      if i < l - 1 {
        assert r[i] == chain[i] && next[chain[i]] == At(chain, i + 1) == At(r, i + 1);
        assert chain[i] != chain[l - 1];
      } else if i == l - 1 {
        assert r[i] == Last(chain) && At(r, i + 1) == n;
      } else {
        assert At(r, i + 1) == NULL;
      }
    }
    assert At(chain, 0) == At(r, 0);
  }

  // ---- The effect of linking ----

  lemma LinkFifo(data: map<Node, Item>, chain: seq<Node>, enq: seq<Item>, deq: seq<Item>, n: Node)
    requires Fifo(data, chain, enq, deq) && chain != [] && n in data
    ensures Fifo(data, chain + [n], enq + [data[n]], deq)
  {
    assert Tail(chain + [n]) == Tail(chain) + [n];
    assert Items(data, Tail(chain) + [n]) == Items(data, Tail(chain)) + [data[n]];
  }

  lemma LinkOwned(live: set<Node>, chain: seq<Node>, own: map<Node, Own>, next: map<Node, Node>, n: Node)
    requires Owned(live, chain, own, next) && n in own
    ensures Owned(live, chain + [n], own - {n}, next)
  {
    assert forall x :: x in chain + [n] <==> x in chain || x == n;
  }

  /** The node about to be linked and the one it will follow. */
  ghost predicate AtEnd(m: Shared, n: Node, tp: Node) {
    && m.chain != [] && tp == Last(m.chain) && m.tail == tp && tp in m.next && m.next[tp] == NULL
    && n in m.own && m.own[n].phase.Armed? && n !in m.chain && n != NULL && n in m.next
    && (forall x :: x in m.chain ==> x !in m.own)
  }

  /** A link CAS that succeeds links at the end of the live chain, where the tail is. */
  lemma LinkIsAtEnd(m: Shared, k: Counts, t: Tid, pc: PC)
    requires Global(m, k) && pc.ELink? && Ok(m, k.looping, t, pc) && m.next[pc.tp] == NULL
    ensures pc.tp == Last(m.chain) && m.tail == pc.tp && pc.n in m.live && pc.n !in m.chain && pc.n != NULL
  {
    LastPoints(m, pc.tp);
  }

  lemma LinkKeeps(m: Shared, k: Counts, t: Tid, pc: PC)
    requires Global(m, k) && pc.ELink? && Ok(m, k.looping, t, pc) && m.next[pc.tp] == NULL
    ensures Global(Linking(m, pc.n, pc.v, pc.tp), k.(uncounted := k.uncounted + 1))
  {
    hide Linked, Fifo, DequeueOk, TailSnap, LinkSnap;
    var n, tp := pc.n, pc.tp;
    LinkIsAtEnd(m, k, t, pc);
    Append(m.next, m.head, m.chain, n);
    LinkFifo(m.data, m.chain, m.enq, m.deq, n);
    assert m.next[tp := n].Keys == m.next.Keys;
    assert Owned(m.live, m.chain, m.own, m.next[tp := n]);
    LinkOwned(m.live, m.chain, m.own, m.next[tp := n], n);
  }

  lemma LinkEnqueuers(m: Shared, n: Node, v: Item, tp: Node, o: Tid, other: PC)
    requires AtEnd(m, n, tp) && EnqueueOk(m, o, other) && (n in m.own ==> m.own[n].t != o)
    ensures EnqueueOk(Linking(m, n, v, tp), o, other)
  {
  }

  lemma LinkDequeuers(m: Shared, k: Counts, n: Node, v: Item, tp: Node, o: Tid, other: PC)
    requires AtEnd(m, n, tp) && DequeueOk(m, k.looping, o, other) && (n in m.own ==> m.own[n].t != o)
    requires k.waiting >= 0 && Booked(m.use, |m.chain|, k)
    ensures DequeueOk(Linking(m, n, v, tp), k.looping, o, other)
  {
    LinkBeyond(m.chain, k.looping, n);
    hide Beyond;
  }

  lemma LinkBeyond(chain: seq<Node>, w: int, n: Node)
    requires w <= |chain|
    ensures forall h :: Beyond(chain, w, h) ==> Beyond(chain + [n], w, h)
  {
  }

  lemma LinkOthers(m: Shared, k: Counts, t: Tid, pc: PC, o: Tid, other: PC)
    requires Global(m, k) && pc.ELink? && Ok(m, k.looping, t, pc) && m.next[pc.tp] == NULL
    requires o != t && Ok(m, k.looping, o, other) && k.waiting >= 0
    ensures Ok(Linking(m, pc.n, pc.v, pc.tp), k.looping, o, other)
  {
    hide Linked, Fifo, DequeueOk;
    LinkIsAtEnd(m, k, t, pc);
    assert AtEnd(m, pc.n, pc.tp);
    hide EnqueueOk, AtEnd, Owned;
    LinkEnqueuers(m, pc.n, pc.v, pc.tp, o, other);
    LinkDequeuers(m, k, pc.n, pc.v, pc.tp, o, other);
  }

  // ---- The effect of moving the tail ----

  /** Every CAS on the tail that succeeds, by an Enqueue or by a helping Dequeue, moves it one node forward. */
  lemma TailMoveKeeps(m: Shared, k: Counts, u: int, nx: Node)
    requires Global(m, k) && TailSnap(m, u, m.tail, Points(m, m.tail, nx)) && u == m.ttag
    ensures Global(m.(tail := nx), k)
    ensures nx == Last(m.chain) && |m.chain| >= 2 && nx != m.head && nx in m.next && Points(m, m.tail, nx)
  {
    assert m.tail in m.chain;
    TailPoints(m, nx);
    hide Linked, Fifo;
  }

  lemma TailMoveOthers(m: Shared, k: Counts, nx: Node, w: int, o: Tid, other: PC)
    requires Global(m, k) && nx == Last(m.chain) && nx != m.head && Ok(m, w, o, other)
    ensures Ok(m.(tail := nx), w, o, other)
  {
    hide Linked, Fifo;
  }

  // ---- The effect of moving the head ----

  lemma UnlinkFifo(data: map<Node, Item>, chain: seq<Node>, enq: seq<Item>, deq: seq<Item>)
    requires Fifo(data, chain, enq, deq) && |chain| >= 2
    ensures Fifo(data, Tail(chain), enq, deq + [data[chain[1]]])
  {
    var r := Tail(chain);
    forall i | 0 <= i < |r| ensures r[i] == chain[i + 1] {}
    assert Items(data, r) == [data[r[0]]] + Items(data, Tail(r));
  }

  lemma UnlinkOwned(live: set<Node>, chain: seq<Node>, own: map<Node, Own>, next: map<Node, Node>, t: Tid)
    requires Owned(live, chain, own, next) && NoDup(chain) && chain != []
    ensures Owned(live, Tail(chain), own[chain[0] := Own(t, Retired)], next)
  {
    assert chain == [chain[0]] + Tail(chain);
    assert chain[0] !in Tail(chain);
  }

  lemma UnlinkTail(chain: seq<Node>, tail: Node)
    requires TailNear(chain, tail) && |chain| >= 2 && tail != chain[0]
    ensures TailNear(Tail(chain), tail) && Last(Tail(chain)) == Last(chain)
  {
  }

  /** The head CAS has no ABA although it leaves the tag alone: if it succeeds the head has not moved since the
      snapshot, so the item read and the successor installed are those of the current first element. */
  lemma HeadCasIsCurrent(m: Shared, k: Counts, t: Tid, pc: PC)
    requires Global(m, k) && pc.DCas? && Ok(m, k.looping, t, pc) && k.looping >= 1
    requires m.head == pc.h && m.htag == pc.u
    ensures pc.h == m.chain[0] && Second(m, pc.nx) && FirstItem(m, pc.v) && m.tail != pc.h
  {
    HeadPoints(m);
    assert m.chain[0] == pc.h;
  }

  lemma UnlinkKeeps(m: Shared, k: Counts, t: Tid, pc: PC)
    requires Global(m, k) && pc.DCas? && Ok(m, k.looping, t, pc) && k.looping >= 1
    requires m.head == pc.h && m.htag == pc.u
    ensures Global(Unlinking(m, t, pc.h, pc.v, pc.nx), k.(looping := k.looping - 1))
  {
    HeadCasIsCurrent(m, k, t, pc);
    HeadPoints(m);
    PopFront(m.next, m.head, m.chain);
    hide Linked, Fifo, Owned, TailNear;
    UnlinkFifo(m.data, m.chain, m.enq, m.deq);
    NoDuplicates(m);
    UnlinkOwned(m.live, m.chain, m.own, m.next, t);
    UnlinkTail(m.chain, m.tail);
  }

  lemma NoDuplicates(m: Shared)
    requires Linked(m.next, m.head, m.chain)
    ensures NoDup(m.chain)
  {
  }

  /** What the head CAS leaves behind. */
  ghost predicate Unlinked(m: Shared, m': Shared, t: Tid) {
    && Linked(m.next, m.head, m.chain) && TailNear(m.chain, m.tail) && |m.chain| >= 2 && NoDup(m.chain)
    && m.chain[0] in m.next && m.next[m.chain[0]] != NULL && m.chain[0] !in m.own
    && m'.chain == Tail(m.chain) && m'.htag == m.htag && m'.ttag == m.ttag && m'.tail == m.tail
    && m'.next == m.next && m'.data == m.data && m'.own == m.own[m.chain[0] := Own(t, Retired)]
  }

  lemma UnlinkHeadSnap(m: Shared, m': Shared, t: Tid, w: int, u: int, h: Node, info: bool, info': bool)
    requires Unlinked(m, m', t) && HeadSnap(m, w, u, h, info) && w >= 1
    ensures HeadSnap(m', w - 1, u, h, info')
  {
    HeadPoints(m);
    var r := Tail(m.chain);
    forall i | 0 <= i < |r| ensures r[i] == m.chain[i + 1] && r[i] != m.chain[0] {}
  }

  lemma UnlinkTailSnap(m: Shared, m': Shared, t: Tid, u: int, tl: Node, info: bool)
    requires Unlinked(m, m', t) && TailSnap(m, u, tl, info)
    ensures TailSnap(m', u, tl, info)
  {
    hide Linked, TailNear, NoDup;
    assert m.chain == [m.chain[0]] + m'.chain;
  }

  lemma UnlinkLinkSnap(m: Shared, m': Shared, t: Tid, tp: Node)
    requires Unlinked(m, m', t) && LinkSnap(m, tp)
    ensures LinkSnap(m', tp)
  {
    hide Linked, TailNear;
    assert m.chain == [m.chain[0]] + m'.chain;
    assert m.chain[0] !in m'.chain;
  }

  lemma UnlinkEnqueuers(m: Shared, m': Shared, t: Tid, o: Tid, other: PC)
    requires Unlinked(m, m', t) && m'.next == m.next && m.chain != [] && m.chain[0] !in m.own
    requires m'.data == m.data && m'.ttag == m.ttag && m'.htag == m.htag
    requires m'.own == m.own[m.chain[0] := Own(t, Retired)]
    requires o != t && EnqueueOk(m, o, other)
    ensures EnqueueOk(m', o, other)
  {
    hide Unlinked, TailSnap, LinkSnap;
    match other
    case ENext(n, v, u, tp) => UnlinkTailSnap(m, m', t, u, tp, true); UnlinkLinkSnap(m, m', t, tp);
    case ELink(n, v, u, tp) => UnlinkTailSnap(m, m', t, u, tp, true); UnlinkLinkSnap(m, m', t, tp);
    case ESwing(n, u, tp) => UnlinkTailSnap(m, m', t, u, tp, Points(m, tp, n));
    case EReread(n, v, u, tp) => UnlinkTailSnap(m, m', t, u, tp, m.next[tp] != NULL);
    case EHelp(n, v, u, tp, nx) => UnlinkTailSnap(m, m', t, u, tp, Points(m, tp, nx));
    case _ =>
  }

  lemma UnlinkDequeuers(m: Shared, m': Shared, w: int, t: Tid, o: Tid, other: PC)
    requires Unlinked(m, m', t) && m'.next == m.next && m.chain != [] && m.chain[0] !in m.own
    requires m'.data == m.data && m'.ttag == m.ttag && m'.htag == m.htag
    requires m'.own == m.own[m.chain[0] := Own(t, Retired)]
    requires o != t && DequeueOk(m, w, o, other) && w >= 1
    ensures DequeueOk(m', w - 1, o, other)
  {
    hide Unlinked, HeadSnap, TailSnap;
    match other
    case DTail(u, tu, h) => UnlinkHeadSnap(m, m', t, w, u, h, true, true);
    case DNext(u, tu, h, tl) =>
      UnlinkTailSnap(m, m', t, tu, tl, true);
      UnlinkHeadSnap(m, m', t, w, u, h, tl == h || m.tail != h, tl == h || m'.tail != h);
    case DReread(u, tu, h, nx) =>
      UnlinkTailSnap(m, m', t, tu, h, m.next[h] != NULL);
      UnlinkHeadSnap(m, m', t, w, u, h, Second(m, nx), Second(m', nx));
    case DHelp(u, tu, h, nx, nx2) =>
      UnlinkTailSnap(m, m', t, tu, h, Points(m, h, nx2));
      UnlinkHeadSnap(m, m', t, w, u, h, Second(m, nx), Second(m', nx));
    case DData(u, tu, h, nx) =>
      UnlinkHeadSnap(m, m', t, w, u, h, Second(m, nx) && m.tail != h, Second(m', nx) && m'.tail != h);
    case DNext2(u, tu, h, v) =>
      UnlinkHeadSnap(m, m', t, w, u, h, FirstItem(m, v) && m.tail != h, FirstItem(m', v) && m'.tail != h);
    case DCas(u, tu, h, v, nx) =>
      UnlinkHeadSnap(m, m', t, w, u, h, FirstItem(m, v) && m.tail != h && Second(m, nx),
                     FirstItem(m', v) && m'.tail != h && Second(m', nx));
    case _ =>
  }

  lemma UnlinkOthers(m: Shared, k: Counts, t: Tid, pc: PC, o: Tid, other: PC)
    requires Global(m, k) && pc.DCas? && Ok(m, k.looping, t, pc) && k.looping >= 1
    requires m.head == pc.h && m.htag == pc.u
    requires o != t && Ok(m, k.looping, o, other)
    ensures Ok(Unlinking(m, t, pc.h, pc.v, pc.nx), k.looping - 1, o, other)
  {
    hide Linked, Fifo, NoDup, TailNear;
    HeadCasIsCurrent(m, k, t, pc);
    HeadPoints(m);
    NoDuplicates(m);
    assert pc.h in m.chain && pc.h !in m.own;
    var m' := Unlinking(m, t, pc.h, pc.v, pc.nx);
    assert Unlinked(m, m', t);
    hide Unlinked, EnqueueOk, DequeueOk, Owned, Unlinking;
    UnlinkEnqueuers(m, m', t, o, other);
    UnlinkDequeuers(m, m', k.looping, t, o, other);
  }

  // ---- The effect of steps that touch neither end ----

  /** Issuing a node disturbs nobody, provided no Enqueue is about to link to it. */
  lemma IssueKeeps(m: Shared, k: Counts, t: Tid, n: Node)
    requires Global(m, k) && n != NULL && n !in m.live
    ensures Global(Issued(m, t, n), k)
  {
    var m' := Issued(m, t, n);
    if n !in m.next {
      WriteElsewhere(m.next, m.head, m.chain, n, NULL);
      SameChainItems(m.data, m'.data, m.chain);
    }
    IssueOwned(m, t, n);
    hide Linked, Fifo, Owned, TailNear;
  }

  lemma IssueOwned(m: Shared, t: Tid, n: Node)
    requires Owned(m.live, m.chain, m.own, m.next) && n != NULL && n !in m.live
    ensures var m' := Issued(m, t, n); Owned(m'.live, m'.chain, m'.own, m'.next)
  {
  }

  lemma SameChainItems(data: map<Node, Item>, data': map<Node, Item>, chain: seq<Node>)
    requires forall i :: 0 <= i < |chain| ==> chain[i] in data && chain[i] in data' && data[chain[i]] == data'[chain[i]]
    ensures Items(data, chain) == Items(data', chain)
    ensures Items(data, Tail(chain)) == Items(data', Tail(chain))
  {
  }

  lemma Outside(m: Shared, k: Counts, t: Tid, n: Node, ph: Phase)
    requires Global(m, k) && Holds(m, t, n, ph)
    ensures n in m.live && n !in m.chain && n in m.next && n in m.data
  {
    hide Linked, Fifo, TailNear;
  }

  /** A recycled node is issued. */
  lemma ReissueOthers(m: Shared, t: Tid, n: Node, w: int, o: Tid, other: PC)
    requires n !in m.own && n !in m.chain && !Snapped(other, n) && Ok(m, w, o, other)
    ensures Ok(m.(live := m.live + {n}, own := m.own[n := Own(t, Fresh)]), w, o, other)
  {
    hide Beyond;
  }

  /** A new node is zeroed. */
  lemma ZeroOthers(m: Shared, n: Node, w: int, o: Tid, other: PC)
    requires n !in m.next && m.data.Keys == m.next.Keys && n != NULL && Ok(m, w, o, other)
    ensures Ok(m.(next := m.next[n := NULL], data := m.data[n := 0]), w, o, other)
  {
    hide Beyond;
  }

  lemma IssueOthers(m: Shared, k: Counts, t: Tid, n: Node, o: Tid, other: PC)
    requires Global(m, k) && n != NULL && n !in m.live && !Snapped(other, n)
    requires Ok(m, k.looping, o, other)
    ensures Ok(Issued(m, t, n), k.looping, o, other)
  {
    assert n !in m.own && n !in m.chain;
    hide Ok, Linked, Fifo, TailNear, Owned;
    ReissueOthers(m, t, n, k.looping, o, other);
    if n !in m.next {
      ZeroOthers(m.(live := m.live + {n}, own := m.own[n := Own(t, Fresh)]), n, k.looping, o, other);
    }
  }

  lemma InitKeeps(m: Shared, k: Counts, t: Tid, n: Node)
    requires Global(m, k) && Holds(m, t, n, Fresh)
    ensures Global(m.(next := m.next[n := NULL]), k)
  {
    assert n in m.live && n !in m.chain;
    WriteElsewhere(m.next, m.head, m.chain, n, NULL);
    assert m.next[n := NULL].Keys == m.next.Keys;
    hide Linked, Fifo, TailNear;
  }

  lemma InitEnqueuers(m: Shared, t: Tid, n: Node, o: Tid, other: PC)
    requires Holds(m, t, n, Fresh) && n !in m.chain && o != t && EnqueueOk(m, o, other)
    ensures EnqueueOk(m.(next := m.next[n := NULL]), o, other)
  {
  }

  lemma InitDequeuers(m: Shared, t: Tid, n: Node, w: int, o: Tid, other: PC)
    requires Holds(m, t, n, Fresh) && n !in m.chain && o != t && DequeueOk(m, w, o, other)
    ensures DequeueOk(m.(next := m.next[n := NULL]), w, o, other)
  {
    hide Beyond;
  }

  lemma InitOthers(m: Shared, k: Counts, t: Tid, n: Node, o: Tid, other: PC)
    requires Global(m, k) && Holds(m, t, n, Fresh) && o != t && Ok(m, k.looping, o, other)
    ensures Ok(m.(next := m.next[n := NULL]), k.looping, o, other)
  {
    hide Global, EnqueueOk, DequeueOk;
    Outside(m, k, t, n, Fresh);
    InitEnqueuers(m, t, n, o, other);
    InitDequeuers(m, t, n, k.looping, o, other);
  }

  lemma DataKeeps(m: Shared, k: Counts, t: Tid, n: Node, v: Item)
    requires Global(m, k) && Holds(m, t, n, Fresh)
    ensures Global(m.(data := m.data[n := v]), k)
  {
    assert n in m.live && n !in m.chain;
    SameChainItems(m.data, m.data[n := v], m.chain);
    assert m.data[n := v].Keys == m.data.Keys;
    hide Linked, TailNear, Owned;
  }

  lemma DataEnqueuers(m: Shared, t: Tid, n: Node, v: Item, o: Tid, other: PC)
    requires Holds(m, t, n, Fresh) && n !in m.chain && o != t && EnqueueOk(m, o, other)
    ensures EnqueueOk(m.(data := m.data[n := v]), o, other)
  {
  }

  lemma DataDequeuers(m: Shared, t: Tid, n: Node, v: Item, w: int, o: Tid, other: PC)
    requires Holds(m, t, n, Fresh) && n !in m.chain && o != t && DequeueOk(m, w, o, other)
    ensures DequeueOk(m.(data := m.data[n := v]), w, o, other)
  {
    hide Beyond;
  }

  lemma DataOthers(m: Shared, k: Counts, t: Tid, n: Node, v: Item, o: Tid, other: PC)
    requires Global(m, k) && Holds(m, t, n, Fresh) && o != t && Ok(m, k.looping, o, other)
    ensures Ok(m.(data := m.data[n := v]), k.looping, o, other)
  {
    hide Global, EnqueueOk, DequeueOk;
    Outside(m, k, t, n, Fresh);
    DataEnqueuers(m, t, n, v, o, other);
    DataDequeuers(m, t, n, v, k.looping, o, other);
  }

  lemma ArmEnqueuers(m: Shared, t: Tid, n: Node, o: Tid, other: PC)
    requires Holds(m, t, n, Fresh) && n !in m.chain && o != t && EnqueueOk(m, o, other)
    ensures EnqueueOk(m.(ttag := m.ttag + 1, own := m.own[n := Own(t, Armed)]), o, other)
  {
  }

  lemma ArmDequeuers(m: Shared, t: Tid, n: Node, w: int, o: Tid, other: PC)
    requires Holds(m, t, n, Fresh) && n !in m.chain && o != t && DequeueOk(m, w, o, other)
    ensures DequeueOk(m.(ttag := m.ttag + 1, own := m.own[n := Own(t, Armed)]), w, o, other)
  {
    hide Beyond;
  }

  lemma ArmOthers(m: Shared, k: Counts, t: Tid, n: Node, o: Tid, other: PC)
    requires Global(m, k) && Holds(m, t, n, Fresh) && o != t && Ok(m, k.looping, o, other)
    ensures Ok(m.(ttag := m.ttag + 1, own := m.own[n := Own(t, Armed)]), k.looping, o, other)
  {
    hide Global, EnqueueOk, DequeueOk;
    Outside(m, k, t, n, Fresh);
    ArmEnqueuers(m, t, n, o, other);
    ArmDequeuers(m, t, n, k.looping, o, other);
  }

  lemma EnterOthers(m: Shared, w: int, w': int, o: Tid, other: PC)
    requires Ok(m, w, o, other)
    ensures Ok(m.(htag := m.htag + 1), w', o, other)
  {
  }

  lemma GiveBackKeeps(m: Shared, k: Counts, t: Tid, h: Node)
    requires Global(m, k) && Holds(m, t, h, Retired)
    ensures Global(m.(live := m.live - {h}, own := m.own - {h}), k)
  {
    hide Linked, Fifo, TailNear;
  }

  lemma GiveBackOthers(m: Shared, k: Counts, t: Tid, h: Node, w: int, o: Tid, other: PC)
    requires Holds(m, t, h, Retired) && o != t && Ok(m, w, o, other)
    ensures Ok(m.(live := m.live - {h}, own := m.own - {h}), w, o, other)
  {
  }

  // ---- One step ----

  predicate Links(m: Shared, pc: PC) { pc.ELink? && pc.tp in m.next && m.next[pc.tp] == NULL }

  /** The CASes on the tail that succeed. */
  predicate Swings(m: Shared, pc: PC) {
    || (pc.ESwing? && m.tail == pc.tp && m.ttag == pc.u)
    || (pc.EHelp? && m.tail == pc.tp && m.ttag == pc.u)
    || (pc.DHelp? && m.tail == pc.h && m.ttag == pc.tu)
  }

  function NewTail(pc: PC): Node
    requires pc.ESwing? || pc.EHelp? || pc.DHelp?
  {
    if pc.ESwing? then pc.n else if pc.EHelp? then pc.nx else pc.nx2
  }

  predicate Unlinks(m: Shared, pc: PC) { pc.DCas? && m.head == pc.h && m.htag == pc.u }

  lemma CasKeeps(m: Shared, k: Counts, t: Tid, pc: PC, a: Act)
    requires Global(m, k) && Sane(k, pc) && Ok(m, k.looping, t, pc) && Enabled(m, pc, a)
    requires Links(m, pc) || Swings(m, pc) || Unlinks(m, pc)
    ensures var (m', pc') := Exec(m, t, pc, a); Global(m', Shift(k, pc, pc'))
  {
    hide Linked, Fifo, TailNear, HeadSnap, TailSnap, LinkSnap, Owned, Booked;
    var (m', pc') := Exec(m, t, pc, a);
    if Links(m, pc) {
      LinkKeeps(m, k, t, pc);
      assert Shift(k, pc, pc') == k.(uncounted := k.uncounted + 1);
    } else if Swings(m, pc) {
      TailMoveKeeps(m, k, m.ttag, NewTail(pc));
      assert Shift(k, pc, pc') == k;
    } else {
      UnlinkKeeps(m, k, t, pc);
      assert Shift(k, pc, pc') == k.(looping := k.looping - 1);
    }
  }

  lemma PrivateKeeps(m: Shared, k: Counts, t: Tid, pc: PC, a: Act)
    requires Global(m, k) && Sane(k, pc) && Ok(m, k.looping, t, pc) && Enabled(m, pc, a)
    requires pc.EAlloc? || pc.EInit? || pc.EData? || pc.DFree?
    ensures var (m', pc') := Exec(m, t, pc, a); Global(m', Shift(k, pc, pc'))
  {
    hide Linked, Fifo, TailNear, HeadSnap, TailSnap, LinkSnap, Owned, Booked;
    assert Shift(k, pc, Exec(m, t, pc, a).1) == k;
    if pc.EAlloc? {
      IssueKeeps(m, k, t, a.n);
    } else if pc.EInit? {
      InitKeeps(m, k, t, pc.n);
    } else if pc.EData? {
      DataKeeps(m, k, t, pc.n, pc.v);
    } else {
      GiveBackKeeps(m, k, t, pc.h);
    }
  }

  lemma ArmKeeps(m: Shared, k: Counts, t: Tid, n: Node)
    requires Global(m, k) && Holds(m, t, n, Fresh)
    ensures Global(m.(ttag := m.ttag + 1, own := m.own[n := Own(t, Armed)]), k)
  {
    hide Linked, Fifo, TailNear, Booked;
  }

  lemma CountKeeps(m: Shared, k: Counts, t: Tid, pc: PC, a: Act)
    requires Global(m, k) && Sane(k, pc) && Enabled(m, pc, a)
    requires pc.Idle? || pc.ECount? || pc.DFail? || pc.DTag?
    ensures var (m', pc') := Exec(m, t, pc, a); Global(m', Shift(k, pc, pc'))
  {
    hide Linked, Fifo, TailNear, Owned;
  }

  /** A step that writes nothing: a read, or a CAS that fails. */
  lemma SilentKeeps(m: Shared, k: Counts, t: Tid, pc: PC, a: Act)
    requires Enabled(m, pc, a) && !Links(m, pc) && !Swings(m, pc) && !Unlinks(m, pc)
    requires !(pc.EAlloc? || pc.EInit? || pc.EData? || pc.DFree? || pc.ETag?)
    requires !(pc.Idle? || pc.ECount? || pc.DFail? || pc.DTag?)
    ensures var (m', pc') := Exec(m, t, pc, a); m' == m && Shift(k, pc, pc') == k
  {
  }

  lemma KeepsGlobal(m: Shared, k: Counts, t: Tid, pc: PC, a: Act)
    requires Global(m, k) && Sane(k, pc) && Ok(m, k.looping, t, pc) && Enabled(m, pc, a)
    ensures var (m', pc') := Exec(m, t, pc, a); Global(m', Shift(k, pc, pc'))
  {
    hide Global, TailSnap, LinkSnap, DequeueOk, Issued, Linking, Unlinking, Links, Swings, Unlinks;
    if Links(m, pc) || Swings(m, pc) || Unlinks(m, pc) {
      CasKeeps(m, k, t, pc, a);
    } else if pc.EAlloc? || pc.EInit? || pc.EData? || pc.DFree? {
      PrivateKeeps(m, k, t, pc, a);
    } else if pc.ETag? {
      ArmKeeps(m, k, t, pc.n);
    } else if pc.Idle? || pc.ECount? || pc.DFail? || pc.DTag? {
      CountKeeps(m, k, t, pc, a);
    } else {
      SilentKeeps(m, k, t, pc, a);
    }
  }

  lemma UseOthers(m: Shared, use: int, w: int, o: Tid, other: PC)
    requires Ok(m, w, o, other)
    ensures Ok(m.(use := use), w, o, other)
  {
  }

  lemma CasOthers(m: Shared, k: Counts, t: Tid, pc: PC, a: Act, o: Tid, other: PC)
    requires Global(m, k) && Sane(k, pc) && Ok(m, k.looping, t, pc) && Enabled(m, pc, a)
    requires Links(m, pc) || Swings(m, pc) || Unlinks(m, pc)
    requires o != t && Ok(m, k.looping, o, other)
    ensures var (m', pc') := Exec(m, t, pc, a); Ok(m', Shift(k, pc, pc').looping, o, other)
  {
    hide Linked, Fifo, TailNear, HeadSnap, TailSnap, LinkSnap, Global;
    var (m', pc') := Exec(m, t, pc, a);
    if Links(m, pc) {
      LinkOthers(m, k, t, pc, o, other);
      assert m' == Linking(m, pc.n, pc.v, pc.tp);
    } else if Swings(m, pc) {
      TailMoveKeeps(m, k, m.ttag, NewTail(pc));
      TailMoveOthers(m, k, NewTail(pc), k.looping, o, other);
      assert m' == m.(tail := NewTail(pc));
    } else {
      UnlinkOthers(m, k, t, pc, o, other);
      assert m' == Unlinking(m, t, pc.h, pc.v, pc.nx);
    }
  }

  lemma PrivateOthers(m: Shared, k: Counts, t: Tid, pc: PC, a: Act, o: Tid, other: PC)
    requires Global(m, k) && Sane(k, pc) && Ok(m, k.looping, t, pc) && Enabled(m, pc, a)
    requires pc.EAlloc? || pc.EInit? || pc.EData? || pc.ETag? || pc.DFree?
    requires o != t && Ok(m, k.looping, o, other)
    requires pc.EAlloc? ==> !Snapped(other, a.n)
    ensures var (m', pc') := Exec(m, t, pc, a); Ok(m', k.looping, o, other)
  {
    hide Linked, Fifo, TailNear, HeadSnap, TailSnap, LinkSnap, Global;
    if pc.EAlloc? {
      IssueOthers(m, k, t, a.n, o, other);
    } else if pc.EInit? {
      InitOthers(m, k, t, pc.n, o, other);
    } else if pc.EData? {
      DataOthers(m, k, t, pc.n, pc.v, o, other);
    } else if pc.ETag? {
      ArmOthers(m, k, t, pc.n, o, other);
    } else {
      GiveBackOthers(m, k, t, pc.h, k.looping, o, other);
    }
  }

  /** A step of one thread does not disturb what another thread relies on. */
  lemma KeepsOthers(m: Shared, k: Counts, t: Tid, pc: PC, a: Act, o: Tid, other: PC)
    requires Global(m, k) && Sane(k, pc) && Ok(m, k.looping, t, pc) && Enabled(m, pc, a)
    requires o != t && Ok(m, k.looping, o, other)
    requires pc.EAlloc? ==> !Snapped(other, a.n)
    ensures var (m', pc') := Exec(m, t, pc, a); Ok(m', Shift(k, pc, pc').looping, o, other)
  {
    hide Ok, Global, Issued, Linking, Unlinking, Links, Swings, Unlinks, Enabled;
    if Links(m, pc) || Swings(m, pc) || Unlinks(m, pc) {
      CasOthers(m, k, t, pc, a, o, other);
    } else if pc.EAlloc? || pc.EInit? || pc.EData? || pc.ETag? || pc.DFree? {
      PrivateOthers(m, k, t, pc, a, o, other);
    } else if pc.DTag? {
      EnterOthers(m, k.looping, k.looping + 1, o, other);
    } else if pc.Idle? || pc.ECount? || pc.DFail? {
      UseOthers(m, Exec(m, t, pc, a).0.use, k.looping, o, other);
    } else {
      SilentKeeps(m, k, t, pc, a);
    }
  }

  /** The plain facts about the two ends that a thread's own step needs. */
  lemma Basics(m: Shared, k: Counts)
    requires Global(m, k)
    ensures m.chain != [] && m.head == m.chain[0] && m.head in m.next && m.next[m.head] == At(m.chain, 1)
    ensures m.next[m.head] != NULL <==> |m.chain| >= 2
    ensures m.tail in m.chain && m.tail in m.next && m.data.Keys == m.next.Keys
    ensures forall n :: n in m.next ==> m.next[n] == NULL || m.next[n] in m.next
  {
    HeadPoints(m);
    hide Linked, Fifo;
  }

  lemma EnqueueStart(m: Shared, k: Counts, t: Tid, pc: PC, a: Act)
    requires Global(m, k) && Ok(m, k.looping, t, pc) && Enabled(m, pc, a)
    requires pc.EAlloc? || pc.EInit? || pc.EData? || pc.ETag? || pc.ECount?
    ensures var (m', pc') := Exec(m, t, pc, a); Ok(m', Shift(k, pc, pc').looping, t, pc')
  {
    Basics(m, k);
    if pc.EInit? || pc.EData? || pc.ETag? { Outside(m, k, t, pc.n, Fresh); }
    hide Global, TailSnap, LinkSnap;
  }

  lemma EnqueueRead(m: Shared, k: Counts, t: Tid, pc: PC, a: Act)
    requires Global(m, k) && Ok(m, k.looping, t, pc) && Enabled(m, pc, a)
    requires pc.ETail? || pc.ENext? || pc.EReread?
    ensures var (m', pc') := Exec(m, t, pc, a); Ok(m', Shift(k, pc, pc').looping, t, pc')
  {
    Basics(m, k);
    hide Global;
  }

  lemma EnqueueLink(m: Shared, k: Counts, t: Tid, pc: PC, a: Act)
    requires Global(m, k) && Ok(m, k.looping, t, pc) && Enabled(m, pc, a)
    requires pc.ELink?
    ensures var (m', pc') := Exec(m, t, pc, a); Ok(m', Shift(k, pc, pc').looping, t, pc')
  {
    Basics(m, k);
    if m.next[pc.tp] == NULL { LinkIsAtEnd(m, k, t, pc); }
    hide Global;
  }

  lemma EnqueueSwing(m: Shared, k: Counts, t: Tid, pc: PC, a: Act)
    requires Global(m, k) && Ok(m, k.looping, t, pc) && Enabled(m, pc, a)
    requires pc.ESwing? || pc.EHelp?
    ensures var (m', pc') := Exec(m, t, pc, a); Ok(m', Shift(k, pc, pc').looping, t, pc')
  {
    hide Global, LinkSnap;
    Basics(m, k);
  }

  lemma DequeueStart(m: Shared, k: Counts, t: Tid, pc: PC, a: Act)
    requires Global(m, k) && Ok(m, k.looping, t, pc) && Enabled(m, pc, a)
    requires pc.DTag? || pc.DHead? || pc.DTail?
    ensures var (m', pc') := Exec(m, t, pc, a); Ok(m', Shift(k, pc, pc').looping, t, pc')
  {
    hide Global, Beyond;
    Basics(m, k);
  }

  lemma DequeueNext(m: Shared, k: Counts, t: Tid, pc: PC, a: Act)
    requires Global(m, k) && Ok(m, k.looping, t, pc) && Enabled(m, pc, a)
    requires pc.DNext? || pc.DReread? || pc.DNext2?
    ensures var (m', pc') := Exec(m, t, pc, a); Ok(m', Shift(k, pc, pc').looping, t, pc')
  {
    hide Global, Beyond;
    Basics(m, k);
  }

  lemma DequeueData(m: Shared, k: Counts, t: Tid, pc: PC, a: Act)
    requires Global(m, k) && Ok(m, k.looping, t, pc) && Enabled(m, pc, a)
    requires pc.DData?
    ensures var (m', pc') := Exec(m, t, pc, a); Ok(m', Shift(k, pc, pc').looping, t, pc')
  {
    hide Global, Beyond;
    Basics(m, k);
  }

  lemma DequeueHelp(m: Shared, k: Counts, t: Tid, pc: PC, a: Act)
    requires Global(m, k) && Ok(m, k.looping, t, pc) && Enabled(m, pc, a)
    requires pc.DHelp?
    ensures var (m', pc') := Exec(m, t, pc, a); Ok(m', Shift(k, pc, pc').looping, t, pc')
  {
    hide Global, Beyond;
    Basics(m, k);
    if m.tail == pc.h && m.ttag == pc.tu { TailMoveKeeps(m, k, m.ttag, pc.nx2); }
  }

  lemma DequeueCas(m: Shared, k: Counts, t: Tid, pc: PC, a: Act)
    requires Global(m, k) && Ok(m, k.looping, t, pc) && Enabled(m, pc, a)
    requires pc.DCas? || pc.DFree? || pc.DFail?
    ensures var (m', pc') := Exec(m, t, pc, a); Ok(m', Shift(k, pc, pc').looping, t, pc')
  {
    hide Global, Beyond;
  }

  lemma IdleSelf(m: Shared, k: Counts, t: Tid, pc: PC, a: Act)
    requires pc.Idle? && Enabled(m, pc, a)
    ensures var (m', pc') := Exec(m, t, pc, a); Ok(m', Shift(k, pc, pc').looping, t, pc')
  {
  }

  lemma KeepsSelf(m: Shared, k: Counts, t: Tid, pc: PC, a: Act)
    requires Global(m, k) && Sane(k, pc) && Ok(m, k.looping, t, pc) && Enabled(m, pc, a)
    ensures var (m', pc') := Exec(m, t, pc, a); Ok(m', Shift(k, pc, pc').looping, t, pc')
  {
    hide Global, EnqueueOk, DequeueOk, Issued, Linking, Unlinking;
    if pc.EAlloc? || pc.EInit? || pc.EData? || pc.ETag? || pc.ECount? {
      EnqueueStart(m, k, t, pc, a);
    } else if pc.ETail? || pc.ENext? || pc.EReread? {
      EnqueueRead(m, k, t, pc, a);
    } else if pc.ELink? {
      EnqueueLink(m, k, t, pc, a);
    } else if pc.ESwing? || pc.EHelp? {
      EnqueueSwing(m, k, t, pc, a);
    } else if pc.DTag? || pc.DHead? || pc.DTail? {
      DequeueStart(m, k, t, pc, a);
    } else if pc.DNext? || pc.DReread? || pc.DNext2? {
      DequeueNext(m, k, t, pc, a);
    } else if pc.DData? {
      DequeueData(m, k, t, pc, a);
    } else if pc.DHelp? {
      DequeueHelp(m, k, t, pc, a);
    } else if pc.DCas? || pc.DFree? || pc.DFail? {
      DequeueCas(m, k, t, pc, a);
    } else {
      IdleSelf(m, k, t, pc, a);
    }
  }

  lemma KeepsInv(s: State, mv: Move)
    requires Inv(s) && Can(s, mv) && Spares(s, mv)
    ensures Inv(Step(s, mv))
  {
    hide Global, Ok;
    var t, pc, k := mv.t, s.thr[mv.t], Tally(s.thr);
    var (m', pc') := Exec(s.m, t, pc, mv.act);
    Recount(s.thr, t, pc');
    KeepsGlobal(s.m, k, t, pc, mv.act);
    KeepsSelf(s.m, k, t, pc, mv.act);
    forall o | o in s.thr && o != t ensures Ok(m', Shift(k, pc, pc').looping, o, s.thr[o]) {
      KeepsOthers(s.m, k, t, pc, mv.act, o, s.thr[o]);
    }
  }

  lemma {:induction false} Reachable(s: State, mvs: seq<Move>)
    requires Inv(s) && Legal(s, mvs) && SparesAll(s, mvs)
    ensures Inv(Play(s, mvs))
    decreases |mvs|
  {
    if mvs != [] {
      KeepsInv(s, mvs[0]);
      Reachable(Step(s, mvs[0]), mvs[1..]);
    }
  }

  lemma InitGlobal(m: Shared, thr: map<Tid, PC>)
    requires Init(State(m, thr))
    ensures Global(m, Counts(0, 0, 0, 0))
  {
    var d := m.head;
    assert m.chain == [d] && m.next == map[d := NULL] && m.data.Keys == m.next.Keys;
    assert At(m.chain, 0) == d && At(m.chain, 1) == NULL;
    assert Tail(m.chain) == [] && Items(m.data, []) == [];
  }

  lemma InitInv(s: State)
    requires Init(s)
    ensures Inv(s)
  {
    InitGlobal(s.m, s.thr);
    hide Global;
    Nobody(s.thr, Uncounted);
    Nobody(s.thr, Waiting);
    Nobody(s.thr, Looping);
    Nobody(s.thr, Failing);
  }
}
