/** The life of a CPacket: taken from the two-level pool with one reference, shared by AddRef, given back by the Free
    that drops the last reference. */
module PacketRefs {
  import opened Census
  import Allocator

  type Packet = nat

  /** `live` are the packets issued by the pool and `refs` their `_iRefCount` words, stale ones included.
      History: `holders` lists, with repetitions, the threads that hold a reference to each packet, and `busy` the
      packets inside Alloc, or inside Free after the last reference is gone. */
  datatype Shared = Shared(
    live: set<Packet>, refs: map<Packet, int>, holders: map<Packet, multiset<Tid>>, busy: map<Packet, Tid>)

  datatype PC =
    | Idle
    | AClear(p: Packet)
    | AAdd(p: Packet)
    | FPool(p: Packet)
    | Crashed

  datatype State = State(m: Shared, thr: map<Tid, PC>)

  datatype Act = Alloc(p: Packet) | AddRef(p: Packet) | Free(p: Packet) | Give(p: Packet, to: Tid) | Go
  datatype Move = Move(t: Tid, act: Act)

  ghost predicate Holds(m: Shared, t: Tid, p: Packet) {
    p in m.holders && t in m.holders[p]
  }

  /** Only a holder adds a reference, hands one over or frees, and it frees each of its references once. */
  ghost predicate Enabled(m: Shared, t: Tid, pc: PC, a: Act) {
    match pc
    case Idle =>
      (match a
       case Alloc(p) => p !in m.live
       case AddRef(p) => Holds(m, t, p) && p in m.refs
       case Free(p) => Holds(m, t, p) && p in m.refs
       case Give(p, _) => Holds(m, t, p)
       case Go => false)
    case AAdd(p) => a.Go? && p in m.refs
    case Crashed => false
    case _ => a.Go?
  }

  ghost function Exec(m: Shared, t: Tid, pc: PC, a: Act): (Shared, PC)
    requires Enabled(m, t, pc, a)
  {
    match pc
    case Idle =>
      (match a
       case Alloc(p) => (m.(live := m.live + {p}, busy := m.busy[p := t]), AClear(p))
       case AddRef(p) =>
         (m.(refs := m.refs[p := m.refs[p] + 1], holders := m.holders[p := m.holders[p] + multiset{t}]), Idle)
       case Free(p) =>
         var rest := m.holders[p] - multiset{t};
         var m' := m.(refs := m.refs[p := m.refs[p] - 1],
                      holders := if rest == multiset{} then m.holders - {p} else m.holders[p := rest]);
         if 0 >= m.refs[p] - 1 then
           if 0 > m.refs[p] - 1 then (m', Crashed) else (m'.(busy := m.busy[p := t]), FPool(p))
         else (m', Idle)
       case Give(p, to) =>
         (m.(holders := m.holders[p := m.holders[p] - multiset{t} + multiset{to}]), Idle)
       case Go => (m, Idle))
    case AClear(p) => (m.(refs := m.refs[p := 0]), AAdd(p))
    case AAdd(p) =>
      (m.(refs := m.refs[p := m.refs[p] + 1], holders := m.holders[p := multiset{t}], busy := m.busy - {p}), Idle)
    case FPool(p) => (m.(live := m.live - {p}, busy := m.busy - {p}), Idle)
    case Crashed => (m, Crashed)
  }

  ghost predicate Can(s: State, mv: Move) {
    mv.t in s.thr && Enabled(s.m, mv.t, s.thr[mv.t], mv.act)
  }

  ghost function Step(s: State, mv: Move): State
    requires Can(s, mv)
  {
    var (m, pc) := Exec(s.m, mv.t, s.thr[mv.t], mv.act);
    State(m, s.thr[mv.t := pc])
  }

  ghost predicate Legal(s: State, mvs: seq<Move>)
    decreases |mvs|
  {
    mvs == [] || (Can(s, mvs[0]) && Legal(Step(s, mvs[0]), mvs[1..]))
  }

  ghost function Play(s: State, mvs: seq<Move>): State
    requires Legal(s, mvs)
    decreases |mvs|
  {
    if mvs == [] then s else Play(Step(s, mvs[0]), mvs[1..])
  }

  ghost predicate Init(s: State) {
    s.m == Shared({}, map[], map[], map[]) && forall t :: t in s.thr ==> s.thr[t] == Idle
  }

  // ---- The invariant ----

  /** A live packet is shared or inside one call, never both; the count of a shared packet is its number of holders. */
  ghost predicate Global(m: Shared) {
    && (forall p :: p in m.live <==> (p in m.holders || p in m.busy))
    && (forall p :: p in m.holders ==> p !in m.busy)
    && (forall p :: p in m.holders ==> |m.holders[p]| > 0 && p in m.refs && m.refs[p] == |m.holders[p]|)
  }

  ghost predicate Ok(m: Shared, t: Tid, pc: PC) {
    match pc
    case AClear(p) => p in m.busy && m.busy[p] == t
    case AAdd(p) => p in m.busy && m.busy[p] == t && p in m.refs && m.refs[p] == 0
    case FPool(p) => p in m.busy && m.busy[p] == t && p in m.refs && m.refs[p] == 0
    case Crashed => false
    case Idle => true
  }

  ghost predicate Inv(s: State) {
    Global(s.m) && forall t :: t in s.thr ==> Ok(s.m, t, s.thr[t])
  }

  lemma Drop(h: multiset<Tid>, t: Tid)
    requires t in h
    ensures |h - multiset{t}| == |h| - 1
    ensures h - multiset{t} == multiset{} <==> |h| == 1
  {
    assert h == (h - multiset{t}) + multiset{t};
  }

  lemma KeepsGlobal(m: Shared, t: Tid, pc: PC, a: Act)
    requires Global(m) && Ok(m, t, pc) && Enabled(m, t, pc, a)
    ensures var (m', pc') := Exec(m, t, pc, a); Global(m') && Ok(m', t, pc')
  {
    if pc.Idle? && (a.Free? || a.Give?) {
      Drop(m.holders[a.p], t);
    }
  }

  lemma KeepsOthers(m: Shared, t: Tid, pc: PC, a: Act, o: Tid, other: PC)
    requires Global(m) && Ok(m, t, pc) && Enabled(m, t, pc, a)
    requires o != t && Ok(m, o, other)
    ensures Ok(Exec(m, t, pc, a).0, o, other)
  {
    if pc.Idle? && a.Free? {
      Drop(m.holders[a.p], t);
    }
  }

  lemma KeepsInv(s: State, mv: Move)
    requires Inv(s) && Can(s, mv)
    ensures Inv(Step(s, mv))
  {
    hide Global, Ok, Enabled, Exec;
    var t, pc := mv.t, s.thr[mv.t];
    KeepsGlobal(s.m, t, pc, mv.act);
    forall o | o in s.thr && o != t ensures Ok(Exec(s.m, t, pc, mv.act).0, o, s.thr[o]) {
      KeepsOthers(s.m, t, pc, mv.act, o, s.thr[o]);
    }
  }

  lemma {:induction false} Reachable(s: State, mvs: seq<Move>)
    requires Inv(s) && Legal(s, mvs)
    ensures Inv(Play(s, mvs))
    decreases |mvs|
  {
    if mvs != [] {
      KeepsInv(s, mvs[0]);
      Reachable(Step(s, mvs[0]), mvs[1..]);
    }
  }

  /** Every run from the start keeps the invariant. */
  lemma RunKeeps(s: State, mvs: seq<Move>)
    requires Init(s) && Legal(s, mvs)
    ensures Inv(Play(s, mvs))
  {
    Reachable(s, mvs);
  }

  // ---- What holds in every state of every run ----

  /** The reference count of a packet in circulation is its number of holders, and no Free finds it negative. */
  lemma CountIsHolders(s: State, mvs: seq<Move>, p: Packet, t: Tid)
    requires Init(s) && Legal(s, mvs)
    ensures var r := Play(s, mvs);
            && (p in r.m.holders ==> p in r.m.refs && r.m.refs[p] == |r.m.holders[p]| && r.m.refs[p] >= 1)
            && (t in r.thr ==> !r.thr[t].Crashed?)
  {
    RunKeeps(s, mvs);
    var r := Play(s, mvs);
    assert t in r.thr ==> Ok(r.m, t, r.thr[t]);
  }

  /** A Free gives the storage back exactly when the caller's is the last reference. */
  lemma LastFreeGivesBack(s: State, mvs: seq<Move>, t: Tid, p: Packet)
    requires Init(s) && Legal(s, mvs) && Can(Play(s, mvs), Move(t, Free(p)))
    requires Play(s, mvs).thr[t].Idle?
    ensures var r := Play(s, mvs);
            Step(r, Move(t, Free(p))).thr[t] == FPool(p) <==> r.m.holders[p] == multiset{t}
  {
    RunKeeps(s, mvs);
    var r := Play(s, mvs);
    Drop(r.m.holders[p], t);
    if |r.m.holders[p]| == 1 {
      assert r.m.holders[p] == (r.m.holders[p] - multiset{t}) + multiset{t};
    }
  }

  ghost function Effect(m: Shared, t: Tid, pc: PC, a: Act): Allocator.Event<Packet>
    requires Enabled(m, t, pc, a)
  {
    if pc.Idle? && a.Alloc? then Allocator.Issue(a.p)
    else if pc.FPool? then Allocator.Retire(pc.p)
    else Allocator.Stutter
  }

  /** Storage goes back to the pool only when it is issued and nobody holds it, by one thread, once per issue; and
      Alloc never returns storage that still has a holder. */
  lemma PacketsObeyThePool(s: State, mvs: seq<Move>, mv: Move)
    requires Init(s) && Legal(s, mvs) && Can(Play(s, mvs), mv)
    ensures var r := Play(s, mvs);
            var e := Effect(r.m, mv.t, r.thr[mv.t], mv.act);
            && Allocator.Follows(r.m.live, Step(r, mv).m.live, e)
            && (e.Issue? || e.Retire? ==> e.n !in r.m.holders)
            && (e.Retire? ==> forall o :: o in r.thr && r.thr[o] == FPool(e.n) ==> o == mv.t)
  {
    RunKeeps(s, mvs);
    var r := Play(s, mvs);
    assert Ok(r.m, mv.t, r.thr[mv.t]);
    forall o | o in r.thr && r.thr[o].FPool? ensures Ok(r.m, o, r.thr[o]) {}
  }

  // ---- The count, from the calls ----

  /** What the move adds to the references of thread `t` to packet `p`, from its call alone. */
  function ShareIn(mv: Move, t: Tid, p: Packet): int {
    match mv.act
    case Alloc(q) => Bit(q == p && mv.t == t)
    case AddRef(q) => Bit(q == p && mv.t == t)
    case Free(q) => -Bit(q == p && mv.t == t)
    case Give(q, to) => Bit(q == p && to == t) - Bit(q == p && mv.t == t)
    case Go => 0
  }

  function Share(mvs: seq<Move>, t: Tid, p: Packet): int {
    if mvs == [] then 0 else ShareIn(mvs[0], t, p) + Share(mvs[1..], t, p)
  }

  /** How many references thread `t` holds to packet `p`, and whether it is being given its first by an Alloc. */
  ghost function Held(m: Shared, t: Tid, p: Packet): nat {
    if p in m.holders then m.holders[p][t] else 0
  }

  predicate Allocating(pc: PC, p: Packet) { (pc.AClear? || pc.AAdd?) && pc.p == p }

  lemma FreeShare(m: Shared, o: Tid, q: Packet, t: Tid, p: Packet)
    requires Global(m) && Enabled(m, o, Idle, Free(q))
    ensures Held(Exec(m, o, Idle, Free(q)).0, t, p) == Held(m, t, p) + ShareIn(Move(o, Free(q)), t, p)
  {
    var rest := m.holders[q] - multiset{o};
    assert rest[t] == m.holders[q][t] - Bit(o == t);
    hide Global;
  }

  lemma OtherShare(m: Shared, o: Tid, a: Act, t: Tid, p: Packet)
    requires Global(m) && Enabled(m, o, Idle, a) && !a.Free?
    ensures Held(Exec(m, o, Idle, a).0, t, p) == Held(m, t, p) + (if a.Alloc? then 0 else ShareIn(Move(o, a), t, p))
  {
    hide Global;
  }

  lemma InsideShare(m: Shared, o: Tid, pc: PC, a: Act, t: Tid, p: Packet)
    requires Global(m) && Ok(m, o, pc) && Enabled(m, o, pc, a) && !pc.Idle?
    ensures Held(Exec(m, o, pc, a).0, t, p) == Held(m, t, p) + (if pc == AAdd(p) then Bit(o == t) else 0)
  {
  }

  lemma StepShare(s: State, mv: Move, t: Tid, p: Packet)
    requires Inv(s) && Can(s, mv) && t in s.thr
    ensures var s' := Step(s, mv);
            Held(s'.m, t, p) + Bit(Allocating(s'.thr[t], p))
            == Held(s.m, t, p) + Bit(Allocating(s.thr[t], p)) + ShareIn(mv, t, p)
  {
    var pc, a := s.thr[mv.t], mv.act;
    assert Ok(s.m, mv.t, pc);
    if !pc.Idle? {
      InsideShare(s.m, mv.t, pc, a, t, p);
    } else if a.Free? {
      FreeShare(s.m, mv.t, a.p, t, p);
    } else {
      OtherShare(s.m, mv.t, a, t, p);
    }
    hide Inv, Held;
  }

  /** The references of each thread to each packet are its Allocs, AddRefs and what it was given, less its Frees and
      what it gave, read off the moves alone, but for an Alloc in progress. With CountIsHolders this is what
      `_iRefCount` counts. */
  lemma {:induction false} HoldersFromCalls(s: State, mvs: seq<Move>, t: Tid, p: Packet)
    requires Inv(s) && Legal(s, mvs) && t in s.thr
    ensures var r := Play(s, mvs);
            && t in r.thr
            && Held(r.m, t, p) + Bit(Allocating(r.thr[t], p))
               == Held(s.m, t, p) + Bit(Allocating(s.thr[t], p)) + Share(mvs, t, p)
    decreases |mvs|
  {
    hide Inv, Exec, Enabled, Held, Allocating, ShareIn;
    if mvs != [] {
      StepShare(s, mvs[0], t, p);
      KeepsInv(s, mvs[0]);
      HoldersFromCalls(Step(s, mvs[0]), mvs[1..], t, p);
    }
  }

  // ---- Every call ends ----

  /** How many moves thread `p` makes, and how many of them are calls. */
  function Made(mvs: seq<Move>, p: Tid): nat {
    if mvs == [] then 0 else (if mvs[0].t == p then 1 else 0) + Made(mvs[1..], p)
  }

  function Called(mvs: seq<Move>, p: Tid): nat {
    if mvs == [] then 0 else (if mvs[0].t == p && !mvs[0].act.Go? then 1 else 0) + Called(mvs[1..], p)
  }

  /** The steps left, at most; the pool counts as one. */
  function Left(pc: PC): nat {
    match pc
    case AClear(_) => 2
    case AAdd(_) => 1
    case FPool(_) => 1
    case _ => 0
  }

  lemma StepLeft(s: State, mv: Move, p: Tid)
    requires Can(s, mv) && p in s.thr
    ensures (if mv.t == p then 1 else 0) + Left(Step(s, mv).thr[p])
            <= Left(s.thr[p]) + (if mv.t == p && !mv.act.Go? then 3 else 0)
  {
  }

  /** Wait freedom: in every interleaving a thread makes at most three moves for each call, and one inside a call can
      always make the next. */
  lemma {:induction false} WaitFree(s: State, mvs: seq<Move>, p: Tid)
    requires Inv(s) && Legal(s, mvs) && p in s.thr
    ensures var r := Play(s, mvs);
            && p in r.thr
            && Made(mvs, p) + Left(r.thr[p]) <= Left(s.thr[p]) + 3 * Called(mvs, p)
            && (!r.thr[p].Idle? ==> Can(r, Move(p, Go)))
    decreases |mvs|
  {
    hide Exec, Left;
    if mvs == [] {
      assert Ok(s.m, p, s.thr[p]);
    } else {
      StepLeft(s, mvs[0], p);
      KeepsInv(s, mvs[0]);
      hide Inv, Enabled;
      WaitFree(Step(s, mvs[0]), mvs[1..], p);
    }
  }
}
