/** CLockFreeStack: a stack under a tagged top whose nodes come from, and go back to, a pool. */
module LockFreeStack {
  import opened Census
  import opened LinkedList
  import Allocator

  type Item = int

  /** A completed operation, logged at its successful CAS. */
  datatype Event = Pushed(v: Item) | Popped(v: Item)

  /** The shared words, the pool's set of issued nodes, and three history variables: `list` is the stack
      from the top down, `own` says which thread holds a node outside the stack, `log` is the order of CASes. */
  datatype Shared = Shared(
    next: map<Node, Node>, data: map<Node, Item>, top: Node, tag: nat, use: int, live: set<Node>,
    list: seq<Node>, own: map<Node, Tid>, log: seq<Event>)

  datatype PC =
    | Idle
    | PAlloc(v: Item)
    | PData(n: Node, v: Item)
    | PTop(n: Node, v: Item)
    | PTag(n: Node, v: Item, p: Node)
    | PLink(n: Node, v: Item, p: Node, g: nat)
    | PCas(n: Node, v: Item, p: Node, g: nat)
    | PCount
    | OFail
    | OTop
    | OTag(p: Node)
    | ONext(p: Node, g: nat)
    | OCas(p: Node, g: nat, q: Node)
    | OData(p: Node, w: Item)               // `w` is the item logged at the CAS
    | OFree(p: Node, d: Item, w: Item)      // `d` is the item read, which Pop returns

  datatype State = State(m: Shared, thr: map<Tid, PC>)

  datatype Act = Push(v: Item) | Pop | Go(n: Node)
  datatype Move = Move(t: Tid, act: Act)

  /** The pool issues any node it has not issued already: a recycled one or a new one. */
  ghost predicate Enabled(m: Shared, pc: PC, a: Act) {
    match pc
    case Idle => !a.Go?
    case PAlloc(_) => a.Go? && a.n != NULL && a.n !in m.live
    case ONext(p, _) => a.Go? && p in m.next
    case OCas(p, _, _) => a.Go? && p in m.data
    case OData(p, _) => a.Go? && p in m.data
    case _ => a.Go?
  }

  ghost function Exec(m: Shared, t: Tid, pc: PC, a: Act): (Shared, PC)
    requires Enabled(m, pc, a)
  {
    match pc
    case Idle =>
      if a.Push? then (m, PAlloc(a.v))
      else (m.(use := m.use - 1), if m.use - 1 < 0 then OFail else OTop)
    case PAlloc(v) =>
      var n := a.n;
      // A recycled node keeps its stale link; a new one is zeroed by its constructor.
      (if n in m.next then m.(live := m.live + {n}, own := m.own[n := t])
       else m.(live := m.live + {n}, own := m.own[n := t], next := m.next[n := NULL], data := m.data[n := 0]),
       PData(n, v))
    case PData(n, v) => (m.(data := m.data[n := v]), PTop(n, v))
    case PTop(n, v) => (m, PTag(n, v, m.top))
    case PTag(n, v, p) => (m, PLink(n, v, p, m.tag))
    case PLink(n, v, p, g) => (m.(next := m.next[n := p]), PCas(n, v, p, g))
    case PCas(n, v, p, g) =>
      if m.top == p && m.tag == g
      then (m.(top := n, tag := g + 1, list := [n] + m.list, own := m.own - {n}, log := m.log + [Pushed(v)]), PCount)
      else (m, PTop(n, v))
    case PCount => (m.(use := m.use + 1), Idle)
    case OFail => (m.(use := m.use + 1), Idle)
    case OTop => (m, OTag(m.top))
    case OTag(p) => (m, ONext(p, m.tag))
    case ONext(p, g) => (m, OCas(p, g, m.next[p]))
    case OCas(p, g, q) =>
      if m.top == p && m.tag == g
      then (m.(top := q, tag := g + 1, list := if m.list == [] then [] else m.list[1..],
               own := m.own[p := t], log := m.log + [Popped(m.data[p])]), OData(p, m.data[p]))
      else (m, OTop)
    case OData(p, w) => (m, OFree(p, m.data[p], w))
    case OFree(p, d, w) => (m.(live := m.live - {p}, own := m.own - {p}), Idle)
  }

  ghost predicate Can(s: State, mv: Move) {
    mv.t in s.thr && Enabled(s.m, s.thr[mv.t], mv.act)
  }

  ghost function Step(s: State, mv: Move): State
    requires Can(s, mv)
  {
    var (m, pc) := Exec(s.m, mv.t, s.thr[mv.t], mv.act);
    State(m, s.thr[mv.t := pc])
  }

  ghost predicate Legal(s: State, mvs: seq<Move>)
    decreases |mvs|
  {
    mvs == [] || (Can(s, mvs[0]) && Legal(Step(s, mvs[0]), mvs[1..]))
  }

  ghost function Play(s: State, mvs: seq<Move>): State
    requires Legal(s, mvs)
    decreases |mvs|
  {
    if mvs == [] then s else Play(Step(s, mvs[0]), mvs[1..])
  }

  ghost predicate Init(s: State) {
    && s.m == Shared(map[], map[], NULL, 0, 0, {}, [], map[], [])
    && forall t :: t in s.thr ==> s.thr[t] == Idle
  }

  // ---- The sequential stack ----

  datatype Option<T> = None | Some(value: T)

  /** What a sequential stack holds after performing the log, or None if some pop in it does not return the top. */
  function Replay(log: seq<Event>): Option<seq<Item>> {
    if log == [] then Some([])
    else
      var before := Replay(log[..|log| - 1]);
      var e := log[|log| - 1];
      if before.None? then None
      else if e.Pushed? then Some([e.v] + before.value)
      else if before.value != [] && before.value[0] == e.v then Some(before.value[1..])
      else None
  }

  lemma ReplayOne(log: seq<Event>, e: Event)
    ensures Replay(log + [e]) ==
            (var before := Replay(log);
             if before.None? then None
             else if e.Pushed? then Some([e.v] + before.value)
             else if before.value != [] && before.value[0] == e.v then Some(before.value[1..])
             else None)
  {
    assert (log + [e])[..|log|] == log;
  }

  // ---- The invariant ----

  predicate Popping(pc: PC) { pc.OTop? || pc.OTag? || pc.ONext? || pc.OCas? }
  predicate Uncounted(pc: PC) { pc.PCount? }
  predicate Failing(pc: PC) { pc.OFail? }

  datatype Counts = Counts(popping: int, uncounted: int, failing: int)

  ghost function Tally(thr: map<Tid, PC>): Counts {
    Counts(Count(thr, Popping), Count(thr, Uncounted), Count(thr, Failing))
  }

  function Shift(k: Counts, pc: PC, pc': PC): Counts {
    Counts(k.popping - Bit(Popping(pc)) + Bit(Popping(pc')),
           k.uncounted - Bit(Uncounted(pc)) + Bit(Uncounted(pc')),
           k.failing - Bit(Failing(pc)) + Bit(Failing(pc')))
  }

  ghost predicate Sane(k: Counts, pc: PC) {
    && k.popping >= Bit(Popping(pc)) && k.uncounted >= Bit(Uncounted(pc)) && k.failing >= Bit(Failing(pc))
    && k.uncounted >= 0 && k.failing >= 0
  }

  lemma Recount(thr: map<Tid, PC>, t: Tid, pc': PC)
    requires t in thr
    ensures Tally(thr[t := pc']) == Shift(Tally(thr), thr[t], pc')
    ensures Sane(Tally(thr), thr[t])
  {
    Moved(thr, t, pc', Popping);
    Moved(thr, t, pc', Uncounted);
    Moved(thr, t, pc', Failing);
  }

  /** A live node is in the stack or held by one thread, never both. */
  ghost predicate Owned(live: set<Node>, list: seq<Node>, own: map<Node, Tid>, next: map<Node, Node>) {
    && NULL !in next && live <= next.Keys
    && (forall n :: n in live <==> (n in own || n in list))
    && (forall n :: n in list ==> n !in own)
  }

  /** The counter: stack length, less pushes not yet counted, less reserved pops, less failed pops not yet undone. */
  ghost predicate Booked(m: Shared, k: Counts) {
    && m.use == |m.list| - k.uncounted - k.popping - k.failing
    && k.popping <= |m.list|
  }

  /** The log replays on a sequential stack to exactly the linked contents. */
  ghost predicate Lifo(data: map<Node, Item>, list: seq<Node>, log: seq<Event>) {
    && (forall i :: 0 <= i < |list| ==> list[i] in data)
    && Replay(log) == Some(Items(data, list))
  }

  ghost predicate Global(m: Shared, k: Counts) {
    && Linked(m.next, m.top, m.list)
    && Owned(m.live, m.list, m.own, m.next)
    && m.data.Keys == m.next.Keys
    && Booked(m, k)
    && Lifo(m.data, m.list, m.log)
  }

  ghost predicate Holds(m: Shared, t: Tid, n: Node) {
    n in m.own && m.own[n] == t
  }

  ghost predicate Ok(m: Shared, t: Tid, pc: PC) {
    match pc
    case PData(n, v) => Holds(m, t, n)
    case PTop(n, v) => Holds(m, t, n) && n in m.data && m.data[n] == v
    case PTag(n, v, p) => Holds(m, t, n) && n in m.data && m.data[n] == v
    case PLink(n, v, p, g) => Holds(m, t, n) && n in m.data && m.data[n] == v
    case PCas(n, v, p, g) => Holds(m, t, n) && n in m.data && m.data[n] == v && n in m.next && m.next[n] == p
    case OTag(p) => p in m.next
    case ONext(p, g) => p in m.next && g <= m.tag
    case OCas(p, g, q) => p in m.next && g <= m.tag && (g == m.tag && p == m.top ==> m.next[p] == q)
    case OData(p, w) => Holds(m, t, p) && p in m.data && m.data[p] == w
    case OFree(p, d, w) => Holds(m, t, p) && d == w
    case _ => true
  }

  ghost predicate Inv(s: State) {
    && Global(s.m, Tally(s.thr))
    && forall t :: t in s.thr ==> Ok(s.m, t, s.thr[t])
  }

  // ---- Each kind of change keeps the invariant ----

  lemma AllocKeeps(m: Shared, k: Counts, t: Tid, pc: PC, a: Act)
    requires Global(m, k) && pc.PAlloc? && Enabled(m, pc, a)
    ensures Global(Exec(m, t, pc, a).0, k)
  {
    var m' := Exec(m, t, pc, a).0;
    assert a.n !in m.list;
    if a.n !in m.next {
      WriteElsewhere(m.next, m.top, m.list, a.n, NULL);
      SameItems(m.data, m'.data, m.list);
    }
  }

  lemma DataKeeps(m: Shared, k: Counts, n: Node, v: Item)
    requires Global(m, k) && n in m.own
    ensures Global(m.(data := m.data[n := v]), k)
  {
    hide Linked;
    assert n in m.live;
    SameItems(m.data, m.data[n := v], m.list);
  }

  lemma LinkKeeps(m: Shared, k: Counts, n: Node, p: Node)
    requires Global(m, k) && n in m.own
    ensures Global(m.(next := m.next[n := p]), k)
  {
    WriteElsewhere(m.next, m.top, m.list, n, p);
    assert n in m.live;
    assert m.next[n := p].Keys == m.next.Keys;
  }

  ghost function AfterPush(m: Shared, n: Node, v: Item): Shared {
    m.(top := n, tag := m.tag + 1, list := [n] + m.list, own := m.own - {n}, log := m.log + [Pushed(v)])
  }

  ghost function AfterPop(m: Shared, t: Tid): Shared
    requires m.top in m.next && m.top in m.data && m.list != []
  {
    m.(top := m.next[m.top], tag := m.tag + 1, list := m.list[1..], own := m.own[m.top := t],
       log := m.log + [Popped(m.data[m.top])])
  }

  lemma PushLifo(data: map<Node, Item>, list: seq<Node>, log: seq<Event>, n: Node)
    requires Lifo(data, list, log) && n in data
    ensures Lifo(data, [n] + list, log + [Pushed(data[n])])
  {
    ReplayOne(log, Pushed(data[n]));
    var r := [n] + list;
    forall i | 0 < i < |r| ensures r[i] == list[i - 1] {}
    assert Items(data, r) == [data[n]] + Items(data, list);
  }

  lemma PopLifo(data: map<Node, Item>, list: seq<Node>, log: seq<Event>)
    requires Lifo(data, list, log) && list != []
    ensures Lifo(data, list[1..], log + [Popped(data[list[0]])])
  {
    ReplayOne(log, Popped(data[list[0]]));
    var r := list[1..];
    forall i | 0 <= i < |r| ensures r[i] == list[i + 1] {}
    assert Items(data, r) == Items(data, list)[1..];
  }

  lemma PushOwned(m: Shared, n: Node)
    requires Owned(m.live, m.list, m.own, m.next) && n in m.own
    ensures Owned(m.live, [n] + m.list, m.own - {n}, m.next)
  {
  }

  lemma PopOwned(m: Shared, t: Tid)
    requires Owned(m.live, m.list, m.own, m.next) && NoDup(m.list) && m.list != []
    ensures Owned(m.live, m.list[1..], m.own[m.list[0] := t], m.next)
  {
    assert m.list == [m.list[0]] + m.list[1..];
    assert m.list[0] !in m.list[1..];
  }

  lemma PushKeeps(m: Shared, k: Counts, n: Node, v: Item)
    requires Global(m, k) && n in m.own && n in m.data && m.data[n] == v && m.next[n] == m.top
    ensures Global(AfterPush(m, n, v), k.(uncounted := k.uncounted + 1))
  {
    assert n in m.live;
    PushFront(m.next, m.top, m.list, n);
    hide Linked, Lifo, Owned;
    PushLifo(m.data, m.list, m.log, n);
    PushOwned(m, n);
  }

  lemma TopIsFirst(m: Shared)
    requires Linked(m.next, m.top, m.list) && (m.list != [] || m.top != NULL)
    ensures m.list != [] && m.top == m.list[0] && m.top in m.next && m.top in m.list && NoDup(m.list)
  {
    assert At(m.list, 0) == m.list[0];
  }

  lemma PopKeeps(m: Shared, k: Counts, t: Tid)
    requires Global(m, k) && k.popping >= 1
    ensures m.list != [] && m.top == m.list[0] && m.top in m.next && m.top in m.data
    ensures Global(AfterPop(m, t), k.(popping := k.popping - 1))
  {
    TopIsFirst(m);
    PopFront(m.next, m.top, m.list);
    hide Linked, Lifo, Owned;
    PopLifo(m.data, m.list, m.log);
    PopOwned(m, t);
  }

  lemma FreeKeeps(m: Shared, k: Counts, p: Node)
    requires Global(m, k) && p in m.own
    ensures Global(m.(live := m.live - {p}, own := m.own - {p}), k)
  {
    hide Linked, Lifo;
  }

  lemma CasKeeps(m: Shared, k: Counts, t: Tid, pc: PC, a: Act)
    requires Global(m, k) && Sane(k, pc) && Ok(m, t, pc) && Enabled(m, pc, a)
    requires (pc.PCas? || pc.OCas?) && m.top == pc.p && m.tag == pc.g
    ensures var (m', pc') := Exec(m, t, pc, a);
            Global(m', Shift(k, pc, pc')) && Ok(m', t, pc')
  {
    hide Linked, Owned, Booked, Lifo;
    var (m', pc') := Exec(m, t, pc, a);
    if pc.OCas? {
      PopKeeps(m, k, t);
      assert m' == AfterPop(m, t);
      assert Shift(k, pc, pc') == k.(popping := k.popping - 1);
    } else {
      PushKeeps(m, k, pc.n, pc.v);
      assert m' == AfterPush(m, pc.n, pc.v);
      assert Shift(k, pc, pc') == k.(uncounted := k.uncounted + 1);
    }
  }

  lemma KeepsGlobal(m: Shared, k: Counts, t: Tid, pc: PC, a: Act)
    requires Global(m, k) && Sane(k, pc) && Ok(m, t, pc) && Enabled(m, pc, a)
    ensures var (m', pc') := Exec(m, t, pc, a); Global(m', Shift(k, pc, pc'))
  {
    hide Linked, Owned, Lifo;
    if (pc.PCas? || pc.OCas?) && m.top == pc.p && m.tag == pc.g {
      CasKeeps(m, k, t, pc, a);
    } else if pc.PAlloc? {
      AllocKeeps(m, k, t, pc, a);
    } else if pc.PData? {
      DataKeeps(m, k, pc.n, pc.v);
    } else if pc.PLink? {
      LinkKeeps(m, k, pc.n, pc.p);
    } else if pc.OFree? {
      FreeKeeps(m, k, pc.p);
    }
  }

  lemma KeepsSelf(m: Shared, k: Counts, t: Tid, pc: PC, a: Act)
    requires Global(m, k) && Sane(k, pc) && Ok(m, t, pc) && Enabled(m, pc, a)
    ensures var (m', pc') := Exec(m, t, pc, a); Ok(m', t, pc')
  {
    if (pc.PCas? || pc.OCas?) && m.top == pc.p && m.tag == pc.g {
      CasKeeps(m, k, t, pc, a);
    } else if pc.OTop? {
      TopIsFirst(m);
    }
  }

  /** Writing to a node outside the stack disturbs nobody who does not hold it. */
  lemma WriteOthers(m: Shared, k: Counts, t: Tid, pc: PC, a: Act, o: Tid, other: PC)
    requires Global(m, k) && Ok(m, t, pc) && Enabled(m, pc, a)
    requires o != t && Ok(m, o, other) && (pc.PAlloc? || pc.PLink? || pc.PData?)
    ensures Ok(Exec(m, t, pc, a).0, o, other)
  {
    hide Lifo, Booked;
    if m.list != [] { TopIsFirst(m); }
    hide Linked;
    assert !pc.PAlloc? ==> pc.n in m.live;
  }

  lemma KeepsOthers(m: Shared, k: Counts, t: Tid, pc: PC, a: Act, o: Tid, other: PC)
    requires Global(m, k) && Ok(m, t, pc) && Enabled(m, pc, a)
    requires o != t && Ok(m, o, other)
    ensures Ok(Exec(m, t, pc, a).0, o, other)
  {
    hide Lifo, Booked, Linked;
    if pc.PAlloc? || pc.PLink? || pc.PData? {
      WriteOthers(m, k, t, pc, a, o, other);
    } else if pc.OCas? && m.top == pc.p && m.tag == pc.g {
      TopIsFirst(m);
    }
  }

  lemma KeepsInv(s: State, mv: Move)
    requires Inv(s) && Can(s, mv)
    ensures Inv(Step(s, mv))
  {
    hide Global;
    var t, pc := mv.t, s.thr[mv.t];
    var (m', pc') := Exec(s.m, t, pc, mv.act);
    Recount(s.thr, t, pc');
    KeepsGlobal(s.m, Tally(s.thr), t, pc, mv.act);
    KeepsSelf(s.m, Tally(s.thr), t, pc, mv.act);
    forall o | o in s.thr && o != t ensures Ok(m', o, s.thr[o]) {
      KeepsOthers(s.m, Tally(s.thr), t, pc, mv.act, o, s.thr[o]);
    }
  }

  lemma {:induction false} Reachable(s: State, mvs: seq<Move>)
    requires Inv(s) && Legal(s, mvs)
    ensures Inv(Play(s, mvs))
    decreases |mvs|
  {
    if mvs != [] {
      KeepsInv(s, mvs[0]);
      Reachable(Step(s, mvs[0]), mvs[1..]);
    }
  }

  lemma InitInv(s: State)
    requires Init(s)
    ensures Inv(s)
  {
    Nobody(s.thr, Popping);
    Nobody(s.thr, Uncounted);
    Nobody(s.thr, Failing);
  }

  // ---- What holds in every state of every run ----

  /** Every run from an empty stack keeps the invariant. */
  lemma RunKeeps(s: State, mvs: seq<Move>)
    requires Init(s) && Legal(s, mvs)
    ensures Inv(Play(s, mvs))
  {
    InitInv(s);
    Reachable(s, mvs);
  }

  /** LIFO: at every moment the CASes so far replay on a sequential stack, with no pop of anything but the top,
      and leave it holding exactly what is linked from the top word, in order. */
  lemma RefinesSequentialStack(s: State, mvs: seq<Move>)
    requires Init(s) && Legal(s, mvs)
    ensures var m := Play(s, mvs).m;
            && Linked(m.next, m.top, m.list)
            && (forall i :: 0 <= i < |m.list| ==> m.list[i] in m.data)
            && Replay(m.log) == Some(Items(m.data, m.list))
  {
    RunKeeps(s, mvs);
  }

  /** A Pop that returns an item returns the one logged at its CAS, although it reads the node only later. */
  lemma PopReturnsLoggedItem(s: State, mvs: seq<Move>, t: Tid)
    requires Init(s) && Legal(s, mvs)
    requires var r := Play(s, mvs); t in r.thr && r.thr[t].OFree?
    ensures var r := Play(s, mvs); r.thr[t].d == r.thr[t].w
  {
    RunKeeps(s, mvs);
    var r := Play(s, mvs);
    assert Ok(r.m, t, r.thr[t]);
  }

  /** No ABA: the CAS of a Pop succeeds only when the successor it read, through a top read as two separate
      words, is the current second node. */
  lemma PopCasIsCurrent(s: State, mvs: seq<Move>, t: Tid)
    requires Init(s) && Legal(s, mvs)
    requires var r := Play(s, mvs);
             t in r.thr && r.thr[t].OCas? && r.m.top == r.thr[t].p && r.m.tag == r.thr[t].g
    ensures var r := Play(s, mvs);
            var OCas(p, g, q) := r.thr[t];
            && r.m.list != [] && p == r.m.list[0] && q == At(r.m.list, 1)
            && Replay(r.m.log).Some? && p in r.m.data && [r.m.data[p]] <= Replay(r.m.log).value
  {
    RunKeeps(s, mvs);
    var r := Play(s, mvs);
    Moved(r.thr, t, Idle, Popping);
    assert Ok(r.m, t, r.thr[t]);
    TopIsFirst(r.m);
    assert r.m.next[r.m.list[0]] == At(r.m.list, 1);
  }

  /** Reservation: the stack is at least as long as the number of threads in the pop loop, so none of them
      reads a null top, and every pointer about to be followed is a created node. */
  lemma PopLoopNeverEmpty(s: State, mvs: seq<Move>, t: Tid)
    requires Init(s) && Legal(s, mvs) && t in s.thr
    ensures var r := Play(s, mvs);
            && Count(r.thr, Popping) <= |r.m.list|
            && (t in r.thr && r.thr[t].OTop? ==> r.m.top != NULL && r.m.top in r.m.next)
            && (t in r.thr && (r.thr[t].ONext? || r.thr[t].OCas? || r.thr[t].OData?) ==> r.thr[t].p in r.m.next)
  {
    RunKeeps(s, mvs);
    var r := Play(s, mvs);
    if t in r.thr {
      Moved(r.thr, t, Idle, Popping);
      assert Ok(r.m, t, r.thr[t]);
      if r.thr[t].OTop? { TopIsFirst(r.m); }
    }
  }

  /** The counter, exactly: it lags the stack by the pushes not yet counted and by the pops in flight. */
  lemma UseCount(s: State, mvs: seq<Move>)
    requires Init(s) && Legal(s, mvs)
    ensures var r := Play(s, mvs);
            r.m.use == |r.m.list| - Count(r.thr, Uncounted) - Count(r.thr, Popping) - Count(r.thr, Failing)
  {
    RunKeeps(s, mvs);
  }

  ghost function Effect(m: Shared, pc: PC, a: Act): Allocator.Event<Node>
    requires Enabled(m, pc, a)
  {
    match pc
    case PAlloc(_) => Allocator.Issue(a.n)
    case OFree(p, _, _) => Allocator.Retire(p)
    case _ => Allocator.Stutter
  }

  lemma EffectFollows(m: Shared, t: Tid, pc: PC, a: Act)
    requires Owned(m.live, m.list, m.own, m.next) && Ok(m, t, pc) && Enabled(m, pc, a)
    ensures var e := Effect(m, pc, a);
            && Allocator.Follows(m.live, Exec(m, t, pc, a).0.live, e)
            && (e.Retire? ==> e.n !in m.list && Holds(m, t, e.n))
  {
  }

  /** The stack is a well-behaved client: it gives back only nodes that are issued, that it has unlinked and that
      the freeing thread alone holds. */
  lemma StackObeysThePool(s: State, mvs: seq<Move>, mv: Move)
    requires Init(s) && Legal(s, mvs) && Can(Play(s, mvs), mv)
    ensures var r := Play(s, mvs);
            var e := Effect(r.m, r.thr[mv.t], mv.act);
            && Allocator.Follows(r.m.live, Step(r, mv).m.live, e)
            && (e.Retire? ==> e.n !in r.m.list && Holds(r.m, mv.t, e.n))
  {
    RunKeeps(s, mvs);
    var r := Play(s, mvs);
    assert Ok(r.m, mv.t, r.thr[mv.t]);
    assert Owned(r.m.live, r.m.list, r.m.own, r.m.next);
    hide Inv, Exec, Enabled, Ok, Owned, Effect, Allocator.Follows;
    EffectFollows(r.m, mv.t, r.thr[mv.t], mv.act);
  }
}
