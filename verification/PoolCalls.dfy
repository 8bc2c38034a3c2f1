/** What the calls of CMemoryPool do, in terms of what their callers asked for. */
module PoolCalls {
  import opened Census
  import opened LinkedList
  import opened MemoryPool
  import opened Ledger
  import Allocator

  // ---- Every interleaving: each call has its effect, once ----

  /** The node that the move asks to free on behalf of `p`, and whether it asks for one. */
  function GivenIn(mv: Move, p: Tid): seq<Node> {
    if mv.t == p && mv.act.Free? then [mv.act.n] else []
  }

  function AskedIn(mv: Move, p: Tid): nat { if mv.t == p && mv.act.Alloc? then 1 else 0 }

  /** The node that the move, made by `p`, puts on the free list, and whether it hands one to `p`. */
  ghost function RetiredIn(s: State, mv: Move, p: Tid): seq<Node>
    requires Can(s, mv)
  {
    var e := Effect(s.m, mv.t, s.thr[mv.t], mv.act);
    if mv.t == p && e.Retire? then [e.n] else []
  }

  ghost function IssuedIn(s: State, mv: Move, p: Tid): nat
    requires Can(s, mv)
  {
    var e := Effect(s.m, mv.t, s.thr[mv.t], mv.act);
    var held := Step(s, mv).m.held;
    if mv.t == p && e.Issue? && e.n in held && held[e.n] == p then 1 else 0
  }

  /** The same over a run. What was asked is read off the moves alone. */
  function Given(mvs: seq<Move>, p: Tid): seq<Node> {
    if mvs == [] then [] else GivenIn(mvs[0], p) + Given(mvs[1..], p)
  }

  function Asked(mvs: seq<Move>, p: Tid): nat {
    if mvs == [] then 0 else AskedIn(mvs[0], p) + Asked(mvs[1..], p)
  }

  ghost function RetiredBy(s: State, mvs: seq<Move>, p: Tid): seq<Node>
    requires Legal(s, mvs)
    decreases |mvs|
  {
    if mvs == [] then [] else RetiredIn(s, mvs[0], p) + RetiredBy(Step(s, mvs[0]), mvs[1..], p)
  }

  ghost function IssuedBy(s: State, mvs: seq<Move>, p: Tid): nat
    requires Legal(s, mvs)
    decreases |mvs|
  {
    if mvs == [] then 0 else IssuedIn(s, mvs[0], p) + IssuedBy(Step(s, mvs[0]), mvs[1..], p)
  }

  /** The node of a Free in progress, and whether an Alloc is. */
  function Freeing(pc: PC): seq<Node> {
    if pc.FTag? || pc.FTop? || pc.FLink? || pc.FCas? then [pc.n] else []
  }

  predicate Allocating(pc: PC) { pc.AUse? || pc.ANew? || Popping(pc) }

  lemma StepLedger(s: State, mv: Move, p: Tid)
    requires Can(s, mv) && p in s.thr
    ensures var pc, pc' := s.thr[p], Step(s, mv).thr[p];
            && RetiredIn(s, mv, p) + Freeing(pc') == Freeing(pc) + GivenIn(mv, p)
            && IssuedIn(s, mv, p) + Bit(Allocating(pc')) == Bit(Allocating(pc)) + AskedIn(mv, p)
  {
  }

  /** What thread `p` has put on the free list, followed by the node of its Free in progress, is what it asked to free,
      in order; and it was handed as many nodes as it asked for, but for an Alloc in progress. */
  lemma {:induction false} CallsTakeEffect(s: State, mvs: seq<Move>, p: Tid)
    requires Legal(s, mvs) && p in s.thr
    ensures p in Play(s, mvs).thr
    ensures var pc, pc' := s.thr[p], Play(s, mvs).thr[p];
            && RetiredBy(s, mvs, p) + Freeing(pc') == Freeing(pc) + Given(mvs, p)
            && IssuedBy(s, mvs, p) + Bit(Allocating(pc')) == Bit(Allocating(pc)) + Asked(mvs, p)
    decreases |mvs|
  {
    hide Exec, Enabled, Freeing, Allocating, RetiredIn, IssuedIn, GivenIn, AskedIn;
    if mvs != [] {
      var mv, rest, s' := mvs[0], mvs[1..], Step(s, mvs[0]);
      StepLedger(s, mv, p);
      CallsTakeEffect(s', rest, p);
      Carry(RetiredIn(s, mv, p), Freeing(s'.thr[p]), Freeing(s.thr[p]), GivenIn(mv, p),
            RetiredBy(s', rest, p), Given(rest, p), Freeing(Play(s', rest).thr[p]));
    }
  }

  // ---- A call that runs alone ----

  /** Thread `t` alone takes the machine from `s` to `q`. */
  ghost predicate Reaches(s: State, q: State, t: Tid) {
    exists mvs: seq<Move> :: Legal(s, mvs) && Play(s, mvs) == q && forall i :: 0 <= i < |mvs| ==> mvs[i].t == t
  }

  lemma ReachesSelf(s: State, t: Tid)
    ensures Reaches(s, s, t)
  {
    assert Legal(s, []) && Play(s, []) == s;
  }

  lemma {:induction false} RunsJoin(s: State, xs: seq<Move>, mv: Move)
    requires Legal(s, xs) && Can(Play(s, xs), mv)
    ensures Legal(s, xs + [mv]) && Play(s, xs + [mv]) == Step(Play(s, xs), mv)
    decreases |xs|
  {
    if xs == [] {
      assert [mv][1..] == [] && xs + [mv] == [mv];
      assert Legal(Step(s, mv), []) && Play(Step(s, mv), []) == Step(s, mv);
    } else {
      assert (xs + [mv])[1..] == xs[1..] + [mv];
      RunsJoin(Step(s, xs[0]), xs[1..], mv);
    }
  }

  lemma Goes(s: State, m: Shared, thr: map<Tid, PC>, t: Tid, pc: PC, a: Act, m': Shared, pc': PC)
    requires Reaches(s, State(m, thr[t := pc]), t)
    requires Enabled(m, t, pc, a) && Exec(m, t, pc, a) == (m', pc')
    ensures Reaches(s, State(m', thr[t := pc']), t)
  {
    hide Exec, Enabled;
    var q, mv := State(m, thr[t := pc]), Move(t, a);
    var mvs: seq<Move> :| Legal(s, mvs) && Play(s, mvs) == q && forall i :: 0 <= i < |mvs| ==> mvs[i].t == t;
    RunsJoin(s, mvs, mv);
    assert Step(q, mv) == State(m', thr[t := pc']);
  }

  /** How many calls of the other threads have reserved or are about to return. */
  ghost function Busy(thr: map<Tid, PC>): nat {
    Count(thr, Popping) + Count(thr, Creating) + Count(thr, Uncounting)
  }

  /** One more node is in use. */
  ghost function Counted(m: Shared): Shared { m.(use := m.use + 1) }

  ghost function Created(m: Shared, t: Tid, n: Node): Shared {
    m.(use := m.use + 1, alloc := m.alloc + 1, next := m.next[n := NULL], held := m.held[n := t])
  }

  lemma AllocStarts(s: State, t: Tid)
    requires Inv(s) && t in s.thr && s.thr[t].Idle?
    ensures Reaches(s, State(Counted(s.m), s.thr[t := if |s.m.free| > Busy(s.thr) then ATop else ANew]), t)
  {
    var m, thr := s.m, s.thr;
    assert Booked(m, Tally(thr));
    hide Reaches, Inv, Linked, Owned;
    ReachesSelf(s, t);
    assert thr[t := Idle] == thr;
    Goes(s, m, thr, t, Idle, Alloc, m, AUse(m.alloc));
    Goes(s, m, thr, t, AUse(m.alloc), Go(NULL), Counted(m), if |m.free| > Busy(thr) then ATop else ANew);
  }

  lemma PopsAlone(s: State, m: Shared, thr: map<Tid, PC>, t: Tid)
    requires Reaches(s, State(m, thr[t := ATop]), t) && m.free != [] && m.top in m.next
    ensures Reaches(s, State(Popped(m, t), thr[t := Idle]), t)
  {
    hide Reaches;
    var p, g, go := m.top, m.tag, Go(NULL);
    Goes(s, m, thr, t, ATop, go, m, ATag(p));
    Goes(s, m, thr, t, ATag(p), go, m, ANext(p, g));
    Goes(s, m, thr, t, ANext(p, g), go, m, ACas(p, g, m.next[p]));
    Goes(s, m, thr, t, ACas(p, g, m.next[p]), go, Popped(m, t), Idle);
  }

  lemma CreatesAlone(s: State, m: Shared, thr: map<Tid, PC>, t: Tid, n: Node)
    requires Reaches(s, State(Counted(m), thr[t := ANew]), t) && n != NULL && n !in m.next
    ensures Reaches(s, State(Created(m, t, n), thr[t := Idle]), t)
  {
    hide Reaches;
    Goes(s, Counted(m), thr, t, ANew, Go(n), Created(m, t, n), Idle);
  }

  lemma FirstFree(s: State)
    requires Inv(s) && s.m.free != []
    ensures s.m.top in s.m.next && s.m.top == s.m.free[0]
  {
    PopFront(s.m.next, s.m.top, s.m.free);
  }

  /** An Alloc that runs alone from any reachable state hands out the first free node and creates none if the free list
      is longer than the number of other threads popping, creating or uncounting, and otherwise creates exactly one. */
  lemma AllocAlone(s: State, t: Tid, n: Node)
    requires Inv(s) && t in s.thr && s.thr[t].Idle? && n != NULL && n !in s.m.next
    ensures if |s.m.free| > Busy(s.thr)
            then s.m.top in s.m.next && s.m.top == s.m.free[0]
                 && Reaches(s, State(Popped(Counted(s.m), t), s.thr), t)
            else Reaches(s, State(Created(s.m, t, n), s.thr), t)
  {
    var m, thr := s.m, s.thr;
    AllocStarts(s, t);
    if m.free != [] { FirstFree(s); }
    hide Reaches, Inv, Busy;
    assert thr[t := Idle] == thr;
    if |m.free| > Busy(thr) {
      assert Counted(m).free == m.free && Counted(m).top == m.top && Counted(m).next == m.next;
      hide *;
      PopsAlone(s, Counted(m), thr, t);
    } else {
      hide *;
      CreatesAlone(s, m, thr, t, n);
    }
  }

  /** So a freed node is used again: with no call in flight, Alloc creates a node only when none is free. */
  lemma QuietAllocRecycles(s: State, t: Tid)
    requires Inv(s) && Quiet(s) && t in s.thr && s.m.free != []
    ensures s.m.top in s.m.next && s.m.top == s.m.free[0]
    ensures var m' := Popped(Counted(s.m), t);
            Reaches(s, State(m', s.thr), t) && m'.alloc == s.m.alloc && m'.next == s.m.next
  {
    Nobody(s.thr, Popping);
    Nobody(s.thr, Creating);
    Nobody(s.thr, Uncounting);
    FirstFree(s);
    AllocStarts(s, t);
    assert |s.m.free| > Busy(s.thr);
    hide Reaches, Inv, Busy;
    assert s.thr[t := Idle] == s.thr;
    PopsAlone(s, Counted(s.m), s.thr, t);
  }

  /** A Free that runs alone puts the node in front of the free list and lowers the count. */
  lemma FreeAlone(s: State, t: Tid, n: Node)
    requires Inv(s) && t in s.thr && s.thr[t].Idle? && n in s.m.held && s.m.held[n] == t
    ensures var m := s.m.(next := s.m.next[n := s.m.top], top := n, tag := s.m.tag + 1, free := [n] + s.m.free,
                          held := s.m.held - {n}, use := s.m.use - 1);
            Reaches(s, State(m, s.thr), t)
  {
    hide Reaches, Inv;
    var m, thr, go := s.m, s.thr, Go(NULL);
    var p, g := m.top, m.tag;
    var m1 := m.(next := m.next[n := p]);
    var m2 := m1.(top := n, tag := g + 1, free := [n] + m.free, held := m.held - {n});
    ReachesSelf(s, t);
    assert thr[t := Idle] == thr;
    Goes(s, m, thr, t, Idle, Free(n), m, FTag(n));
    Goes(s, m, thr, t, FTag(n), go, m, FTop(n, g));
    Goes(s, m, thr, t, FTop(n, g), go, m, FLink(n, g, p));
    Goes(s, m, thr, t, FLink(n, g, p), go, m1, FCas(n, g, p));
    Goes(s, m1, thr, t, FCas(n, g, p), go, m2, FUse);
    Goes(s, m2, thr, t, FUse, go, m2.(use := m.use - 1), Idle);
  }
}
