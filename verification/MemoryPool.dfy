/** CMemoryPool: a free list under a tagged top, with the use counter as a reservation. */
module MemoryPool {
  import opened Census
  import opened LinkedList
  import Allocator

  /** The words every thread can read or write, and two history variables:
      `free` lists the free nodes in order and `held` says who owns each issued node. */
  datatype Shared = Shared(
    next: map<Node, Node>, top: Node, tag: nat, use: int, alloc: int,
    free: seq<Node>, held: map<Node, Tid>)

  /** Where a thread stands, with its locals. Each point names the next shared access. */
  datatype PC =
    | Idle
    | AUse(cur: int)
    | ANew
    | ATop
    | ATag(p: Node)
    | ANext(p: Node, g: nat)
    | ACas(p: Node, g: nat, q: Node)
    | FTag(n: Node)
    | FTop(n: Node, g: nat)
    | FLink(n: Node, g: nat, p: Node)
    | FCas(n: Node, g: nat, p: Node)
    | FUse

  datatype State = State(m: Shared, thr: map<Tid, PC>)

  /** The calls a thread may make, and one step inside a call; `n` is the address a `new` returns. */
  datatype Act = Alloc | Free(n: Node) | Give(n: Node, to: Tid) | Go(n: Node)
  datatype Move = Move(t: Tid, act: Act)

  /** Callers free or hand over only nodes they hold. */
  ghost predicate Enabled(m: Shared, t: Tid, pc: PC, a: Act) {
    match pc
    case Idle => a.Alloc? || ((a.Free? || a.Give?) && a.n in m.held && m.held[a.n] == t)
    case ANew => a.Go? && a.n != NULL && a.n !in m.next
    case ANext(p, _) => a.Go? && p in m.next
    case _ => a.Go?
  }

  ghost function Exec(m: Shared, t: Tid, pc: PC, a: Act): (Shared, PC)
    requires Enabled(m, t, pc, a)
  {
    match pc
    case Idle =>
      if a.Alloc? then (m, AUse(m.alloc))
      else if a.Free? then (m, FTag(a.n))
      else (m.(held := m.held[a.n := a.to]), Idle)
    case AUse(cur) => (m.(use := m.use + 1), if m.use + 1 > cur then ANew else ATop)
    case ANew => (m.(alloc := m.alloc + 1, next := m.next[a.n := NULL], held := m.held[a.n := t]), Idle)
    case ATop => (m, ATag(m.top))
    case ATag(p) => (m, ANext(p, m.tag))
    case ANext(p, g) => (m, ACas(p, g, m.next[p]))
    case ACas(p, g, q) =>
      if m.top == p && m.tag == g
      then (m.(top := q, tag := g + 1, free := if m.free == [] then [] else m.free[1..], held := m.held[p := t]), Idle)
      else (m, ATop)
    case FTag(n) => (m, FTop(n, m.tag))
    case FTop(n, g) => (m, FLink(n, g, m.top))
    case FLink(n, g, p) => (m.(next := m.next[n := p]), FCas(n, g, p))
    case FCas(n, g, p) =>
      if m.top == p && m.tag == g
      then (m.(top := n, tag := g + 1, free := [n] + m.free, held := m.held - {n}), FUse)
      else (m, FTag(n))
    case FUse => (m.(use := m.use - 1), Idle)
  }

  ghost predicate Can(s: State, mv: Move) {
    mv.t in s.thr && Enabled(s.m, mv.t, s.thr[mv.t], mv.act)
  }

  ghost function Step(s: State, mv: Move): State
    requires Can(s, mv)
  {
    var (m, pc) := Exec(s.m, mv.t, s.thr[mv.t], mv.act);
    State(m, s.thr[mv.t := pc])
  }

  ghost predicate Legal(s: State, mvs: seq<Move>)
    decreases |mvs|
  {
    mvs == [] || (Can(s, mvs[0]) && Legal(Step(s, mvs[0]), mvs[1..]))
  }

  /** The state after a run; a run is any interleaving of legal moves. */
  ghost function Play(s: State, mvs: seq<Move>): State
    requires Legal(s, mvs)
    decreases |mvs|
  {
    if mvs == [] then s else Play(Step(s, mvs[0]), mvs[1..])
  }

  ghost predicate Init(s: State) {
    && s.m == Shared(map[], NULL, 0, 0, 0, [], map[])
    && forall t :: t in s.thr ==> s.thr[t] == Idle
  }

  // Who is where: reserved poppers, threads about to create, threads that freed but have not uncounted.
  predicate Popping(pc: PC) { pc.ATop? || pc.ATag? || pc.ANext? || pc.ACas? }
  predicate Creating(pc: PC) { pc.ANew? }
  predicate Uncounting(pc: PC) { pc.FUse? }

  datatype Counts = Counts(popping: int, creating: int, uncounting: int)

  ghost function Tally(thr: map<Tid, PC>): Counts {
    Counts(Count(thr, Popping), Count(thr, Creating), Count(thr, Uncounting))
  }

  function Shift(k: Counts, pc: PC, pc': PC): Counts {
    Counts(k.popping - Bit(Popping(pc)) + Bit(Popping(pc')),
           k.creating - Bit(Creating(pc)) + Bit(Creating(pc')),
           k.uncounting - Bit(Uncounting(pc)) + Bit(Uncounting(pc')))
  }

  ghost predicate Sane(k: Counts, pc: PC) {
    && k.popping >= Bit(Popping(pc)) && k.creating >= Bit(Creating(pc)) && k.uncounting >= Bit(Uncounting(pc))
  }

  lemma Recount(thr: map<Tid, PC>, t: Tid, pc': PC)
    requires t in thr
    ensures Tally(thr[t := pc']) == Shift(Tally(thr), thr[t], pc')
    ensures Sane(Tally(thr), thr[t])
  {
    Moved(thr, t, pc', Popping);
    Moved(thr, t, pc', Creating);
    Moved(thr, t, pc', Uncounting);
  }

  /** The structural invariant: every created node is free or held and never both, the counters
      account for the threads in flight, and a node is set aside for every thread in the pop loop. */
  ghost predicate Global(m: Shared, k: Counts) {
    && Linked(m.next, m.top, m.free)
    && Owned(m.next, m.free, m.held)
    && Booked(m, k)
  }

  /** Each created node is on the free list or held, never both. */
  ghost predicate Owned(next: map<Node, Node>, free: seq<Node>, held: map<Node, Tid>) {
    && NULL !in next
    && (forall n :: n in next <==> (n in held || n in free))
    && (forall n :: n in free ==> n !in held)
  }

  ghost predicate Booked(m: Shared, k: Counts) {
    && m.alloc == |m.free| + |m.held|
    && m.use == |m.held| + k.uncounting + k.creating + k.popping
    && k.popping <= |m.free|
  }

  /** What a thread at `pc` may rely on, whatever the other threads do. */
  ghost predicate Ok(m: Shared, t: Tid, pc: PC) {
    match pc
    case AUse(cur) => cur <= m.alloc
    case ATag(p) => p in m.next
    case ANext(p, g) => p in m.next && g <= m.tag
    case ACas(p, g, q) => p in m.next && g <= m.tag && (g == m.tag && p == m.top ==> m.next[p] == q)
    case FTag(n) => n in m.held && m.held[n] == t
    case FTop(n, g) => n in m.held && m.held[n] == t
    case FLink(n, g, p) => n in m.held && m.held[n] == t
    case FCas(n, g, p) => n in m.held && m.held[n] == t && n in m.next && m.next[n] == p
    case _ => true
  }

  ghost predicate Inv(s: State) {
    && Global(s.m, Tally(s.thr))
    && forall t :: t in s.thr ==> Ok(s.m, t, s.thr[t])
  }

  lemma Grown(held: map<Node, Tid>, n: Node, t: Tid)
    requires n !in held
    ensures |held[n := t]| == |held| + 1
  {
    assert held[n := t].Keys == held.Keys + {n};
    assert |held[n := t]| == |held[n := t].Keys| && |held| == |held.Keys|;
  }

  lemma Shrunk(held: map<Node, Tid>, n: Node)
    requires n in held
    ensures |held - {n}| == |held| - 1
  {
    assert (held - {n}).Keys == held.Keys - {n};
    assert |held - {n}| == |(held - {n}).Keys| && |held| == |held.Keys|;
  }

  lemma CreateKeeps(m: Shared, k: Counts, n: Node, t: Tid)
    requires Global(m, k) && n != NULL && n !in m.next
    ensures Global(m.(alloc := m.alloc + 1, next := m.next[n := NULL], held := m.held[n := t]),
                   k.(creating := k.creating - 1))
  {
    WriteElsewhere(m.next, m.top, m.free, n, NULL);
    Grown(m.held, n, t);
  }

  lemma PopOwned(next: map<Node, Node>, free: seq<Node>, held: map<Node, Tid>, t: Tid)
    requires Owned(next, free, held) && NoDup(free) && free != []
    ensures Owned(next, free[1..], held[free[0] := t])
  {
    assert free == [free[0]] + free[1..];
    assert free[0] !in free[1..];
  }

  lemma PushOwned(next: map<Node, Node>, free: seq<Node>, held: map<Node, Tid>, n: Node)
    requires Owned(next, free, held) && n in held
    ensures Owned(next, [n] + free, held - {n})
  {
  }

  /** The shared words after a successful CAS on the top, taking the first free node or returning one. */
  ghost function Popped(m: Shared, t: Tid): Shared
    requires m.top in m.next && m.free != []
  {
    m.(top := m.next[m.top], tag := m.tag + 1, free := m.free[1..], held := m.held[m.top := t])
  }

  ghost function Pushed(m: Shared, n: Node): Shared {
    m.(top := n, tag := m.tag + 1, free := [n] + m.free, held := m.held - {n})
  }

  lemma PopKeeps(m: Shared, k: Counts, t: Tid)
    requires Global(m, k) && k.popping >= 1
    ensures m.top in m.next && m.free != [] && m.top !in m.held
    ensures Global(Popped(m, t), k.(popping := k.popping - 1))
  {
    PopFront(m.next, m.top, m.free);
    PopOwned(m.next, m.free, m.held, t);
    Grown(m.held, m.top, t);
  }

  lemma PushKeeps(m: Shared, k: Counts, n: Node)
    requires Global(m, k) && n in m.held && m.next[n] == m.top
    ensures Global(Pushed(m, n), k.(uncounting := k.uncounting + 1))
  {
    PushFront(m.next, m.top, m.free, n);
    PushOwned(m.next, m.free, m.held, n);
    Shrunk(m.held, n);
  }

  lemma CasKeeps(m: Shared, k: Counts, t: Tid, pc: PC, a: Act)
    requires Global(m, k) && Sane(k, pc) && Ok(m, t, pc) && Enabled(m, t, pc, a)
    requires (pc.ACas? || pc.FCas?) && m.top == pc.p && m.tag == pc.g
    ensures var (m', pc') := Exec(m, t, pc, a); Global(m', Shift(k, pc, pc'))
  {
    hide Linked, Owned, Booked;
    var (m', pc') := Exec(m, t, pc, a);
    if pc.ACas? {
      PopKeeps(m, k, t);
      assert m' == Popped(m, t);
      assert Shift(k, pc, pc') == k.(popping := k.popping - 1);
    } else {
      PushKeeps(m, k, pc.n);
      assert m' == Pushed(m, pc.n);
      assert Shift(k, pc, pc') == k.(uncounting := k.uncounting + 1);
    }
  }

  /** A move keeps the structural invariant. */
  lemma KeepsGlobal(m: Shared, k: Counts, t: Tid, pc: PC, a: Act)
    requires Global(m, k) && Sane(k, pc) && k.creating >= 0 && k.uncounting >= 0 && Ok(m, t, pc) && Enabled(m, t, pc, a)
    ensures var (m', pc') := Exec(m, t, pc, a); Global(m', Shift(k, pc, pc'))
  {
    hide Linked;
    if (pc.ACas? || pc.FCas?) && m.top == pc.p && m.tag == pc.g {
      CasKeeps(m, k, t, pc, a);
    } else if pc.Idle? && a.Give? {
      assert m.held[a.n := a.to].Keys == m.held.Keys;
      assert |m.held[a.n := a.to]| == |m.held.Keys| == |m.held|;
    } else if pc.ANew? {
      CreateKeeps(m, k, a.n, t);
    } else if pc.FLink? {
      WriteElsewhere(m.next, m.top, m.free, pc.n, pc.p);
    }
  }

  lemma KeepsSelf(m: Shared, k: Counts, t: Tid, pc: PC, a: Act)
    requires Global(m, k) && Sane(k, pc) && Ok(m, t, pc) && Enabled(m, t, pc, a)
    ensures var (m', pc') := Exec(m, t, pc, a); Ok(m', t, pc')
  {
    if pc.ATop? { assert m.top == m.free[0]; }
  }

  /** A move of one thread does not disturb what another thread relies on. */
  lemma KeepsOthers(m: Shared, k: Counts, t: Tid, pc: PC, a: Act, o: Tid, other: PC)
    requires Global(m, k) && Ok(m, t, pc) && Enabled(m, t, pc, a)
    requires o != t && Ok(m, o, other)
    ensures Ok(Exec(m, t, pc, a).0, o, other)
  {
  }

  lemma KeepsInv(s: State, mv: Move)
    requires Inv(s) && Can(s, mv)
    ensures Inv(Step(s, mv))
  {
    var t, pc := mv.t, s.thr[mv.t];
    var (m', pc') := Exec(s.m, t, pc, mv.act);
    Recount(s.thr, t, pc');
    KeepsGlobal(s.m, Tally(s.thr), t, pc, mv.act);
    KeepsSelf(s.m, Tally(s.thr), t, pc, mv.act);
    forall o | o in s.thr && o != t ensures Ok(m', o, s.thr[o]) {
      KeepsOthers(s.m, Tally(s.thr), t, pc, mv.act, o, s.thr[o]);
    }
  }

  lemma {:induction false} Reachable(s: State, mvs: seq<Move>)
    requires Inv(s) && Legal(s, mvs)
    ensures Inv(Play(s, mvs))
    decreases |mvs|
  {
    if mvs != [] {
      KeepsInv(s, mvs[0]);
      Reachable(Step(s, mvs[0]), mvs[1..]);
    }
  }

  lemma InitInv(s: State)
    requires Init(s)
    ensures Inv(s)
  {
    Nobody(s.thr, Popping);
    Nobody(s.thr, Creating);
    Nobody(s.thr, Uncounting);
  }

  // ---- What holds in every state of every run ----

  /** Every run from an empty pool keeps the invariant. */
  lemma RunKeeps(s: State, mvs: seq<Move>)
    requires Init(s) && Legal(s, mvs)
    ensures Inv(Play(s, mvs))
  {
    InitInv(s);
    Reachable(s, mvs);
  }

  /** Ownership: each created node is on the free list exactly once or held by one thread, never both. */
  lemma EachNodeHasOneHome(s: State, mvs: seq<Move>, n: Node)
    requires Init(s) && Legal(s, mvs)
    ensures var m := Play(s, mvs).m;
            multiset(m.free)[n] + Bit(n in m.held) == Bit(n in m.next)
  {
    RunKeeps(s, mvs);
    var m := Play(s, mvs).m;
    if n in m.free {
      OccursOnce(m.free, n);
    }
  }

  /** Reservation: there is a free node for every thread in the pop loop, so none of them reads a null top,
      and no pointer that a thread is about to follow is dangling. */
  lemma PopLoopNeverEmpty(s: State, mvs: seq<Move>, t: Tid)
    requires Init(s) && Legal(s, mvs) && t in s.thr
    ensures var r := Play(s, mvs);
            && Count(r.thr, Popping) <= |r.m.free|
            && (t in r.thr && r.thr[t].ATop? ==> r.m.top != NULL && r.m.top in r.m.next)
            && (t in r.thr && r.thr[t].ANext? ==> r.thr[t].p in r.m.next)
  {
    RunKeeps(s, mvs);
    var r := Play(s, mvs);
    if t in r.thr {
      Moved(r.thr, t, Idle, Popping);
      assert r.m.top == At(r.m.free, 0);
      assert r.thr[t].ANext? ==> Ok(r.m, t, r.thr[t]);
    }
  }

  /** No ABA: a pop CAS that succeeds installs the current successor of the current top, and the node it
      hands out was the first free one and belonged to nobody. */
  lemma PopCasIsCurrent(s: State, mvs: seq<Move>, t: Tid)
    requires Init(s) && Legal(s, mvs)
    requires var r := Play(s, mvs);
             t in r.thr && r.thr[t].ACas? && r.m.top == r.thr[t].p && r.m.tag == r.thr[t].g
    ensures var r := Play(s, mvs);
            var ACas(p, g, q) := r.thr[t];
            Can(r, Move(t, Go(NULL))) &&
            var m' := Step(r, Move(t, Go(NULL))).m;
            && r.m.free != [] && p == r.m.free[0] && p in r.m.next && q == r.m.next[p]
            && p !in r.m.held && m'.held == r.m.held[p := t]
            && m'.free == r.m.free[1..] && Linked(m'.next, m'.top, m'.free)
  {
    RunKeeps(s, mvs);
    var r := Play(s, mvs);
    Moved(r.thr, t, Idle, Popping);
    PopKeeps(r.m, Tally(r.thr), t);
    assert Ok(r.m, t, r.thr[t]);
  }

  /** No call is in flight. */
  ghost predicate Quiet(s: State) {
    forall t :: t in s.thr ==> s.thr[t].Idle?
  }

  /** With no call in flight the two counters are exact. */
  lemma QuietCounters(s: State, mvs: seq<Move>)
    requires Init(s) && Legal(s, mvs) && Quiet(Play(s, mvs))
    ensures var m := Play(s, mvs).m;
            m.use == |m.held| && m.alloc == |m.held| + |m.free|
  {
    RunKeeps(s, mvs);
    var r := Play(s, mvs);
    Nobody(r.thr, Popping);
    Nobody(r.thr, Creating);
    Nobody(r.thr, Uncounting);
  }

  // ---- The pool is an allocator for its clients ----

  ghost function Effect(m: Shared, t: Tid, pc: PC, a: Act): Allocator.Event<Node>
    requires Enabled(m, t, pc, a)
  {
    match pc
    case ANew => Allocator.Issue(a.n)
    case ACas(p, g, q) => if m.top == p && m.tag == g then Allocator.Issue(p) else Allocator.Stutter
    case FCas(n, g, p) => if m.top == p && m.tag == g then Allocator.Retire(n) else Allocator.Stutter
    case _ => Allocator.Stutter
  }

  ghost function Effects(s: State, mvs: seq<Move>): seq<Allocator.Event<Node>>
    requires Legal(s, mvs)
    decreases |mvs|
  {
    if mvs == [] then []
    else [Effect(s.m, mvs[0].t, s.thr[mvs[0].t], mvs[0].act)] + Effects(Step(s, mvs[0]), mvs[1..])
  }

  lemma EffectFollows(s: State, mv: Move)
    requires Inv(s) && Can(s, mv)
    ensures Allocator.Follows(s.m.held.Keys, Step(s, mv).m.held.Keys, Effect(s.m, mv.t, s.thr[mv.t], mv.act))
  {
    var m, t, pc, a := s.m, mv.t, s.thr[mv.t], mv.act;
    assert Ok(m, t, pc);
    var m' := Exec(m, t, pc, a).0;
    if pc.Idle? && a.Give? {
      assert m'.held.Keys == m.held.Keys;
    } else if pc.ANew? {
      assert m'.held.Keys == m.held.Keys + {a.n};
    } else if pc.ACas? && m.top == pc.p && m.tag == pc.g {
      Recount(s.thr, t, Idle);
      PopKeeps(m, Tally(s.thr), t);
      assert m'.held.Keys == m.held.Keys + {pc.p};
    } else if pc.FCas? && m.top == pc.p && m.tag == pc.g {
      assert m'.held.Keys == m.held.Keys - {pc.n};
    }
  }

  /** Every run of the pool is a history of the allocator that its clients are proved against. */
  lemma {:induction false} PoolIsAnAllocator(s: State, mvs: seq<Move>)
    requires Inv(s) && Legal(s, mvs)
    ensures Allocator.History(s.m.held.Keys, Effects(s, mvs), Play(s, mvs).m.held.Keys)
    decreases |mvs|
  {
    if mvs != [] {
      hide Inv, Can, Allocator.Follows;
      EffectFollows(s, mvs[0]);
      KeepsInv(s, mvs[0]);
      PoolIsAnAllocator(Step(s, mvs[0]), mvs[1..]);
      var es := Effects(s, mvs);
      assert es[1..] == Effects(Step(s, mvs[0]), mvs[1..]);
      assert Allocator.Follows(s.m.held.Keys, Step(s, mvs[0]).m.held.Keys, es[0]);
    }
  }

  /** Over any run a node is handed out exactly once more than it is given back while it is held,
      and exactly as often otherwise. */
  lemma IssuedOnceAtATime(s: State, mvs: seq<Move>, n: Node)
    requires Init(s) && Legal(s, mvs)
    ensures var es := Effects(s, mvs);
            Allocator.Issues(es, n) - Allocator.Retires(es, n) == Bit(n in Play(s, mvs).m.held)
  {
    RunKeeps(s, mvs);
    InitInv(s);
    PoolIsAnAllocator(s, mvs);
    Allocator.Balance({}, Effects(s, mvs), Play(s, mvs).m.held.Keys, n);
  }
}
