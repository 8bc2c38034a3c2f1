/** CLockFreeQueue as a machine: one shared access per step, any number of threads. */
module LockFreeQueue {
  import opened Census
  import opened LinkedList
  import Allocator

  type Item = int

  /** Why a thread holds a node outside the queue: just issued to an Enqueue, past that Enqueue's tag
      increment, or unlinked by a Dequeue and not yet given back. */
  datatype Phase = Fresh | Armed | Retired
  datatype Own = Own(t: Tid, phase: Phase)

  /** The shared words (`head` and `tail` each carry a tag), the pool's set of issued nodes, and history:
      `chain` is the dummy node followed by the linked elements, `own` the nodes held outside it,
      `enq` the items in order of link CAS and `deq` the items in order of head CAS. */
  datatype Shared = Shared(
    next: map<Node, Node>, data: map<Node, Item>,
    head: Node, htag: int, tail: Node, ttag: int, use: int, live: set<Node>,
    chain: seq<Node>, own: map<Node, Own>, enq: seq<Item>, deq: seq<Item>)

  datatype PC =
    | Idle
    // Enqueue: node `n` for item `v`, tail tag `u`, tail snapshot `tp`
    | EAlloc(v: Item)
    | EInit(n: Node, v: Item)
    | EData(n: Node, v: Item)
    | ETag(n: Node, v: Item)
    | ETail(n: Node, v: Item, u: int)
    | ENext(n: Node, v: Item, u: int, tp: Node)
    | ELink(n: Node, v: Item, u: int, tp: Node)
    | ESwing(n: Node, u: int, tp: Node)
    | EReread(n: Node, v: Item, u: int, tp: Node)
    | EHelp(n: Node, v: Item, u: int, tp: Node, nx: Node)
    | ECount
    // Dequeue: head tag `u`, tail tag `tu`, head snapshot `h`, tail snapshot `tl`
    | DFail
    | DTag
    | DHead(u: int, tu: int)
    | DTail(u: int, tu: int, h: Node)
    | DNext(u: int, tu: int, h: Node, tl: Node)
    | DReread(u: int, tu: int, h: Node, nx: Node)
    | DHelp(u: int, tu: int, h: Node, nx: Node, nx2: Node)
    | DData(u: int, tu: int, h: Node, nx: Node)
    | DNext2(u: int, tu: int, h: Node, v: Item)
    | DCas(u: int, tu: int, h: Node, v: Item, nx: Node)
    | DFree(h: Node, v: Item)

  datatype State = State(m: Shared, thr: map<Tid, PC>)

  /** The calls, and one step inside a call: `n` is the node the pool issues and `g` the garbage an
      uninitialised local starts with. */
  datatype Act = Enqueue(v: Item) | Dequeue | Go(n: Node, g: int)
  datatype Move = Move(t: Tid, act: Act)

  /** The pool issues any node not issued already; the uninitialised tail tag is not one from the future. */
  ghost predicate Enabled(m: Shared, pc: PC, a: Act) {
    if pc.Idle? then !a.Go?
    else
      && a.Go?
      && (pc.EAlloc? ==> a.n != NULL && a.n !in m.live)
      && (pc.DTag? ==> a.g <= m.ttag)
      && Mapped(m, pc)
  }

  /** The pointers the next step follows are created nodes. */
  ghost predicate Mapped(m: Shared, pc: PC) {
    match pc
    case ENext(_, _, _, tp) => tp in m.next
    case ELink(_, _, _, tp) => tp in m.next
    case EReread(_, _, _, tp) => tp in m.next
    case DNext(_, _, h, _) => h in m.next
    case DReread(_, _, h, _) => h in m.next
    case DData(_, _, _, nx) => nx in m.data
    case DNext2(_, _, h, _) => h in m.next
    case _ => true
  }

  ghost function Tail<T>(s: seq<T>): seq<T> { if s == [] then [] else s[1..] }

  ghost function Exec(m: Shared, t: Tid, pc: PC, a: Act): (Shared, PC)
    requires Enabled(m, pc, a)
  {
    match pc
    case Idle =>
      if a.Enqueue? then (m, EAlloc(a.v))
      else (m.(use := m.use - 1), if m.use - 1 < 0 then DFail else DTag)
    case EAlloc(v) => (Issued(m, t, a.n), EInit(a.n, v))
    case EInit(n, v) => (m.(next := m.next[n := NULL]), EData(n, v))
    case EData(n, v) => (m.(data := m.data[n := v]), ETag(n, v))
    case ETag(n, v) => (m.(ttag := m.ttag + 1, own := m.own[n := Own(t, Armed)]), ETail(n, v, m.ttag + 1))
    case ETail(n, v, u) => (m, ENext(n, v, u, m.tail))
    case ENext(n, v, u, tp) => (m, if m.next[tp] == NULL then ELink(n, v, u, tp) else EReread(n, v, u, tp))
    case ELink(n, v, u, tp) =>
      if m.next[tp] == NULL then (Linking(m, n, v, tp), ESwing(n, u, tp)) else (m, ETail(n, v, u))
    case ESwing(n, u, tp) => (if m.tail == tp && m.ttag == u then m.(tail := n) else m, ECount)
    case EReread(n, v, u, tp) => (m, EHelp(n, v, u, tp, m.next[tp]))
    case EHelp(n, v, u, tp, nx) =>
      if m.tail == tp && m.ttag == u then (m.(tail := nx), ETail(n, v, u)) else (m, ETail(n, v, m.ttag))
    case ECount => (m.(use := m.use + 1), Idle)
    case DFail => (m.(use := m.use + 1), Idle)
    case DTag => (m.(htag := m.htag + 1), DHead(m.htag + 1, a.g))
    case DHead(u, tu) => (m, DTail(u, tu, m.head))
    case DTail(u, tu, h) => (m, DNext(u, tu, h, m.tail))
    case DNext(u, tu, h, tl) =>
      (m, if m.next[h] == NULL then DHead(u, tu)
          else if h == tl then DReread(u, tu, h, m.next[h])
          else DData(u, tu, h, m.next[h]))
    case DReread(u, tu, h, nx) => (m, DHelp(u, tu, h, nx, m.next[h]))
    case DHelp(u, tu, h, nx, nx2) =>
      if m.tail == h && m.ttag == tu then (m.(tail := nx2), DData(u, tu, h, nx)) else (m, DHead(u, m.ttag))
    case DData(u, tu, h, nx) => (m, DNext2(u, tu, h, m.data[nx]))
    case DNext2(u, tu, h, v) => (m, DCas(u, tu, h, v, m.next[h]))
    case DCas(u, tu, h, v, nx) =>
      if m.head == h && m.htag == u then (Unlinking(m, t, h, v, nx), DFree(h, v)) else (m, DHead(m.htag, tu))
    case DFree(h, v) => (m.(live := m.live - {h}, own := m.own - {h}), Idle)
  }

  /** A recycled node keeps its stale words; a new one is zeroed by its constructor. */
  ghost function Issued(m: Shared, t: Tid, n: Node): Shared {
    var r := m.(live := m.live + {n}, own := m.own[n := Own(t, Fresh)]);
    if n in m.next then r else r.(next := m.next[n := NULL], data := m.data[n := 0])
  }

  /** A successful link CAS. */
  ghost function Linking(m: Shared, n: Node, v: Item, tp: Node): Shared {
    m.(next := m.next[tp := n], chain := m.chain + [n], own := m.own - {n}, enq := m.enq + [v])
  }

  /** A successful head CAS. */
  ghost function Unlinking(m: Shared, t: Tid, h: Node, v: Item, nx: Node): Shared {
    m.(head := nx, chain := Tail(m.chain), own := m.own[h := Own(t, Retired)], deq := m.deq + [v])
  }

  ghost predicate Can(s: State, mv: Move) {
    mv.t in s.thr && Enabled(s.m, s.thr[mv.t], mv.act)
  }

  ghost function Step(s: State, mv: Move): State
    requires Can(s, mv)
  {
    var (m, pc) := Exec(s.m, mv.t, s.thr[mv.t], mv.act);
    State(m, s.thr[mv.t := pc])
  }

  ghost predicate Legal(s: State, mvs: seq<Move>)
    decreases |mvs|
  {
    mvs == [] || (Can(s, mvs[0]) && Legal(Step(s, mvs[0]), mvs[1..]))
  }

  ghost function Play(s: State, mvs: seq<Move>): State
    requires Legal(s, mvs)
    decreases |mvs|
  {
    if mvs == [] then s else Play(Step(s, mvs[0]), mvs[1..])
  }

  /** The constructor takes one node from the pool as the dummy. */
  ghost predicate Init(s: State) {
    && s.m.head != NULL
    && s.m == Shared(map[s.m.head := NULL], map[s.m.head := 0], s.m.head, 0, s.m.head, 0, 0, {s.m.head},
                     [s.m.head], map[], [], [])
    && forall t :: t in s.thr ==> s.thr[t] == Idle
  }

  // ---- The assumption on the pool ----

  /** The Enqueue at `pc` is between its tail snapshot and its link CAS on that snapshot. */
  predicate Snapped(pc: PC, n: Node) {
    (pc.ENext? || pc.ELink?) && pc.tp == n
  }

  /** The move does not re-issue a node that an Enqueue is about to link to. */
  ghost predicate Spares(s: State, mv: Move)
    requires Can(s, mv)
  {
    s.thr[mv.t].EAlloc? ==> forall o :: o in s.thr ==> !Snapped(s.thr[o], mv.act.n)
  }

  ghost predicate SparesAll(s: State, mvs: seq<Move>)
    requires Legal(s, mvs)
    decreases |mvs|
  {
    mvs == [] || (Spares(s, mvs[0]) && SparesAll(Step(s, mvs[0]), mvs[1..]))
  }

  /** Every Enqueue of the run is made by thread `p`. */
  predicate OneProducer(mvs: seq<Move>, p: Tid) {
    forall i :: 0 <= i < |mvs| && mvs[i].act.Enqueue? ==> mvs[i].t == p
  }

  predicate Enqueuing(pc: PC) {
    pc.EAlloc? || pc.EInit? || pc.EData? || pc.ETag? || pc.ETail? || pc.ENext? || pc.ELink? || pc.ESwing?
    || pc.EReread? || pc.EHelp? || pc.ECount?
  }

  lemma OneProducerStep(s: State, mv: Move, p: Tid)
    requires Can(s, mv) && (mv.act.Enqueue? ==> mv.t == p)
    requires forall t :: t in s.thr && Enqueuing(s.thr[t]) ==> t == p
    ensures Spares(s, mv)
    ensures var s' := Step(s, mv); forall t :: t in s'.thr && Enqueuing(s'.thr[t]) ==> t == p
  {
    var pc' := Exec(s.m, mv.t, s.thr[mv.t], mv.act).1;
    assert Enqueuing(pc') ==> Enqueuing(s.thr[mv.t]) || mv.act.Enqueue?;
  }

  /** With one producer the assumption holds by itself, so recycling is unrestricted. */
  lemma {:induction false} OneProducerSpares(s: State, mvs: seq<Move>, p: Tid)
    requires Legal(s, mvs) && OneProducer(mvs, p)
    requires forall t :: t in s.thr && Enqueuing(s.thr[t]) ==> t == p
    ensures SparesAll(s, mvs)
    decreases |mvs|
  {
    if mvs != [] {
      assert mvs[0].act.Enqueue? ==> mvs[0].t == p;
      OneProducerStep(s, mvs[0], p);
      var rest := mvs[1..];
      assert forall i :: 0 <= i < |rest| ==> rest[i] == mvs[i + 1];
      OneProducerSpares(Step(s, mvs[0]), rest, p);
    }
  }
}
