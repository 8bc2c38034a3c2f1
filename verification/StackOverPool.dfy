/** CLockFreeStack over the CMemoryPool it really uses: every step of Alloc and Free is a step of the pool's machine. */
module StackOverPool {
  import opened Census
  import opened LinkedList
  import Allocator
  import Calls = StackCalls
  import Stack = LockFreeStack
  import Pool = MemoryPool

  /** The two machines side by side. In the pool's history the thread `self` stands for the stack: it holds the nodes
      that are linked in it. */
  datatype State = State(stack: Stack.State, pool: Pool.State, self: Tid)

  /** One move of a thread; the node of `act` is the address that a `new` in the pool returns. */
  datatype Move = Move(t: Tid, act: Stack.Act)

  /** A thread inside Alloc or Free of the pool moves there; otherwise it moves in the stack, or calls the pool. */
  ghost predicate Can(c: State, mv: Move) {
    && mv.t in c.stack.thr && mv.t in c.pool.thr && mv.t != c.self
    && var sp, pp := c.stack.thr[mv.t], c.pool.thr[mv.t];
       if !pp.Idle? then mv.act.Go? && Pool.Enabled(c.pool.m, mv.t, pp, Pool.Go(mv.act.n))
       else if sp.PAlloc? || sp.OFree? then mv.act.Go?
       else Stack.Enabled(c.stack.m, sp, mv.act)
  }

  ghost predicate Inside(c: State, mv: Move)
    requires Can(c, mv)
  {
    !c.pool.thr[mv.t].Idle?
  }

  /** What the pool does in this move, as its client sees it. */
  ghost function Effect(c: State, mv: Move): Allocator.Event<Node>
    requires Can(c, mv) && Inside(c, mv)
  {
    Pool.Effect(c.pool.m, mv.t, c.pool.thr[mv.t], Pool.Go(mv.act.n))
  }

  /** The part of the move that the stack's machine makes: the pool's issue ends its Alloc, the retirement its Free. */
  ghost function StackMoves(c: State, mv: Move): seq<Stack.Move>
    requires Can(c, mv)
  {
    if Inside(c, mv) then
      match Effect(c, mv)
      case Issue(n) => [Stack.Move(mv.t, Stack.Go(n))]
      case Retire(_) => [Stack.Move(mv.t, Stack.Go(NULL))]
      case Stutter => []
    else if c.stack.thr[mv.t].PAlloc? || c.stack.thr[mv.t].OFree? then []
    else [Stack.Move(mv.t, mv.act)]
  }

  /** A successful CAS on the stack's top hands a node to the stack or takes one from it. */
  ghost predicate Wins(m: Stack.Shared, pc: Stack.PC) {
    (pc.PCas? || pc.OCas?) && m.top == pc.p && m.tag == pc.g
  }

  ghost function PoolMoves(c: State, mv: Move): seq<Pool.Move>
    requires Can(c, mv)
  {
    var sp := c.stack.thr[mv.t];
    if Inside(c, mv) then [Pool.Move(mv.t, Pool.Go(mv.act.n))]
    else if sp.PAlloc? then [Pool.Move(mv.t, Pool.Alloc)]
    else if sp.OFree? then [Pool.Move(mv.t, Pool.Free(sp.p))]
    else if Wins(c.stack.m, sp) then
      [if sp.PCas? then Pool.Move(mv.t, Pool.Give(sp.n, c.self)) else Pool.Move(c.self, Pool.Give(sp.p, mv.t))]
    else []
  }

  /** Both machines allow their part: the stack asks the pool only for what a lawful client may ask, and the pool
      issues only what the stack expects of it. */
  ghost predicate Fit(c: State, mv: Move) {
    Can(c, mv) && Stack.Legal(c.stack, StackMoves(c, mv)) && Pool.Legal(c.pool, PoolMoves(c, mv))
  }

  ghost function Step(c: State, mv: Move): State
    requires Fit(c, mv)
  {
    State(Stack.Play(c.stack, StackMoves(c, mv)), Pool.Play(c.pool, PoolMoves(c, mv)), c.self)
  }

  ghost predicate Legal(c: State, mvs: seq<Move>)
    decreases |mvs|
  {
    mvs == [] || (Fit(c, mvs[0]) && Legal(Step(c, mvs[0]), mvs[1..]))
  }

  ghost function Play(c: State, mvs: seq<Move>): State
    requires Legal(c, mvs)
    decreases |mvs|
  {
    if mvs == [] then c else Play(Step(c, mvs[0]), mvs[1..])
  }

  ghost predicate Init(c: State) {
    && Stack.Init(c.stack) && Pool.Init(c.pool)
    && c.self !in c.stack.thr && c.pool.thr.Keys == c.stack.thr.Keys + {c.self}
  }

  // ---- The invariant that couples the machines ----

  /** The pool's holders are the threads that own nodes outside the stack, and the stack for those inside. */
  ghost predicate SameHolders(held: map<Node, Tid>, m: Stack.Shared, self: Tid) {
    && held.Keys == m.live
    && (forall n :: n in m.own ==> n in held && held[n] == m.own[n])
    && (forall n :: n in m.list ==> n in held && held[n] == self)
  }

  predicate Allocating(pp: Pool.PC) { pp.AUse? || pp.ANew? || pp.ATop? || pp.ATag? || pp.ANext? || pp.ACas? }
  predicate Freeing(pp: Pool.PC) { pp.FTag? || pp.FTop? || pp.FLink? || pp.FCas? }

  /** Where a thread stands in the pool, given where it stands in the stack. */
  predicate Together(sp: Stack.PC, pp: Pool.PC) {
    && (Allocating(pp) ==> sp.PAlloc?)
    && (Freeing(pp) ==> sp.OFree? && sp.p == pp.n)
    && (pp.FUse? ==> sp.Idle?)
  }

  ghost predicate Coupled(c: State) {
    && c.self !in c.stack.thr && c.pool.thr.Keys == c.stack.thr.Keys + {c.self} && c.pool.thr[c.self].Idle?
    && SameHolders(c.pool.m.held, c.stack.m, c.self)
    && forall t :: t in c.stack.thr ==> Together(c.stack.thr[t], c.pool.thr[t])
  }

  ghost predicate Inv(c: State) {
    Stack.Inv(c.stack) && Pool.Inv(c.pool) && Coupled(c)
  }

  // ---- Single moves as runs ----

  lemma StackOne(s: Stack.State, mv: Stack.Move)
    ensures Stack.Legal(s, [mv]) <==> Stack.Can(s, mv)
    ensures Stack.Can(s, mv) ==> Stack.Play(s, [mv]) == Stack.Step(s, mv)
  {
    assert [mv][1..] == [];
    if Stack.Can(s, mv) {
      assert Stack.Legal(Stack.Step(s, mv), []) && Stack.Play(Stack.Step(s, mv), []) == Stack.Step(s, mv);
    }
  }

  lemma PoolOne(s: Pool.State, mv: Pool.Move)
    ensures Pool.Legal(s, [mv]) <==> Pool.Can(s, mv)
    ensures Pool.Can(s, mv) ==> Pool.Play(s, [mv]) == Pool.Step(s, mv)
  {
    assert [mv][1..] == [];
    if Pool.Can(s, mv) {
      assert Pool.Legal(Pool.Step(s, mv), []) && Pool.Play(Pool.Step(s, mv), []) == Pool.Step(s, mv);
    }
  }

  // ---- Inside the pool ----

  /** What one step inside the pool does to the holders, and where it leaves its thread. */
  lemma PoolSteps(p: Pool.State, t: Tid, n: Node)
    requires Pool.Inv(p) && Pool.Can(p, Pool.Move(t, Pool.Go(n))) && !p.thr[t].Idle?
    ensures var pp := p.thr[t];
            var e := Pool.Effect(p.m, t, pp, Pool.Go(n));
            var (m', pp') := Pool.Exec(p.m, t, pp, Pool.Go(n));
            && (e.Stutter? ==> m'.held == p.m.held)
            && (e.Issue? ==>
                  && Allocating(pp) && pp'.Idle? && e.n != NULL && e.n !in p.m.held
                  && m'.held == p.m.held[e.n := t])
            && (e.Retire? ==> Freeing(pp) && pp.n == e.n && pp'.FUse? && m'.held == p.m.held - {e.n})
            && (e.Stutter? && Allocating(pp) ==> Allocating(pp'))
            && (e.Stutter? && Freeing(pp) ==> Freeing(pp') && pp'.n == pp.n)
            && (e.Stutter? && pp.FUse? ==> pp'.Idle?)
  {
    var pp, m := p.thr[t], p.m;
    assert Pool.Ok(m, t, pp);
    Pool.Recount(p.thr, t, Pool.Idle);
    if pp.ACas? && m.top == pp.p && m.tag == pp.g {
      Pool.PopKeeps(m, Pool.Tally(p.thr), t);
    }
    hide Linked;
  }

  // ---- What the stack's machine does to the holders ----

  lemma StackIssues(s: Stack.State, t: Tid, n: Node)
    requires Stack.Inv(s) && t in s.thr && s.thr[t].PAlloc? && n != NULL && n !in s.m.live
    ensures var mv := Stack.Move(t, Stack.Go(n));
            && Stack.Can(s, mv)
            && var s' := Stack.Step(s, mv);
               && s'.m.own == s.m.own[n := t] && s'.m.live == s.m.live + {n} && s'.m.list == s.m.list
               && s'.thr == s.thr[t := Stack.PData(n, s.thr[t].v)]
  {
    hide Stack.Inv;
  }

  lemma StackRetires(s: Stack.State, t: Tid)
    requires Stack.Inv(s) && t in s.thr && s.thr[t].OFree?
    ensures var mv, p := Stack.Move(t, Stack.Go(NULL)), s.thr[t].p;
            && Stack.Can(s, mv) && p in s.m.own && s.m.own[p] == t
            && var s' := Stack.Step(s, mv);
               && s'.m.own == s.m.own - {p} && s'.m.live == s.m.live - {p} && s'.m.list == s.m.list
               && s'.thr == s.thr[t := Stack.Idle]
  {
    assert Stack.Ok(s.m, t, s.thr[t]);
    hide Stack.Inv;
  }

  ghost predicate InStack(m: Stack.Shared) {
    Stack.Owned(m.live, m.list, m.own, m.next)
  }

  lemma OwnedNow(s: Stack.State)
    requires Stack.Inv(s)
    ensures InStack(s.m)
  {
  }

  lemma HoldersIssue(held: map<Node, Tid>, m: Stack.Shared, m': Stack.Shared, self: Tid, n: Node, t: Tid)
    requires SameHolders(held, m, self) && InStack(m) && n !in m.live
    requires m'.own == m.own[n := t] && m'.live == m.live + {n} && m'.list == m.list
    ensures SameHolders(held[n := t], m', self)
  {
  }

  lemma HoldersRetire(held: map<Node, Tid>, m: Stack.Shared, m': Stack.Shared, self: Tid, n: Node)
    requires SameHolders(held, m, self) && InStack(m) && n in m.own
    requires m'.own == m.own - {n} && m'.live == m.live - {n} && m'.list == m.list
    ensures SameHolders(held - {n}, m', self)
  {
  }

  // ---- A move keeps the invariant ----

  lemma CoupledAfter(c: State, s': Stack.State, p': Pool.State, t: Tid, sp': Stack.PC, pp': Pool.PC)
    requires Coupled(c) && t in c.stack.thr
    requires s'.thr == c.stack.thr[t := sp'] && p'.thr == c.pool.thr[t := pp']
    requires Together(sp', pp') && SameHolders(p'.m.held, s'.m, c.self)
    ensures Coupled(State(s', p', c.self))
  {
    hide Together, SameHolders;
  }

  /** The pool's part of a move inside it, apart from its history of holders. */
  lemma PoolPart(c: State, mv: Move)
    requires Inv(c) && Can(c, mv) && Inside(c, mv)
    ensures var pm := Pool.Move(mv.t, Pool.Go(mv.act.n));
            && PoolMoves(c, mv) == [pm] && Pool.Can(c.pool, pm)
            && Pool.Legal(c.pool, [pm]) && Pool.Play(c.pool, [pm]) == Pool.Step(c.pool, pm)
            && Pool.Inv(Pool.Step(c.pool, pm))
            && Together(c.stack.thr[mv.t], c.pool.thr[mv.t]) && SameHolders(c.pool.m.held, c.stack.m, c.self)
            && InStack(c.stack.m)
  {
    var pm := Pool.Move(mv.t, Pool.Go(mv.act.n));
    OwnedNow(c.stack);
    PoolOne(c.pool, pm);
    hide Pool.Exec, Pool.Enabled, Stack.Inv, Together, SameHolders, InStack, Pool.Step;
    assert Pool.Can(c.pool, pm);
    Pool.KeepsInv(c.pool, pm);
  }

  lemma SameKeys(held: map<Node, Tid>, m: Stack.Shared, self: Tid)
    requires SameHolders(held, m, self)
    ensures held.Keys == m.live
  {
  }

  lemma HolderOf(held: map<Node, Tid>, m: Stack.Shared, self: Tid, n: Node)
    requires SameHolders(held, m, self) && n in m.own
    ensures n in held && held[n] == m.own[n]
  {
  }

  lemma IssueKeeps(c: State, mv: Move, n: Node)
    requires Inv(c) && Can(c, mv) && Inside(c, mv) && Effect(c, mv) == Allocator.Issue(n)
    ensures Fit(c, mv) && Inv(Step(c, mv))
  {
    var t, s, p := mv.t, c.stack, c.pool;
    hide Pool.Exec, Pool.Enabled, Pool.Effect, Pool.Inv, Pool.Legal, Pool.Play;
    hide Stack.Exec, Stack.Enabled, Stack.Inv, Stack.Legal, Stack.Play, Stack.Step, InStack, SameHolders;
    PoolPart(c, mv);
    PoolSteps(p, t, mv.act.n);
    var p' := Pool.Step(p, Pool.Move(t, Pool.Go(mv.act.n)));
    assert n !in s.m.live by { assert p.m.held.Keys == s.m.live by { SameKeys(p.m.held, s.m, c.self); } }
    StackIssues(s, t, n);
    var sm := Stack.Move(t, Stack.Go(n));
    Stack.KeepsInv(s, sm);
    StackOne(s, sm);
    var s' := Stack.Step(s, sm);
    HoldersIssue(p.m.held, s.m, s'.m, c.self, n, t);
    CoupledAfter(c, s', p', t, s'.thr[t], p'.thr[t]);
  }

  lemma RetireKeeps(c: State, mv: Move, n: Node)
    requires Inv(c) && Can(c, mv) && Inside(c, mv) && Effect(c, mv) == Allocator.Retire(n)
    ensures Fit(c, mv) && Inv(Step(c, mv))
  {
    var t, s, p := mv.t, c.stack, c.pool;
    hide Pool.Exec, Pool.Enabled, Pool.Effect, Pool.Inv, Pool.Legal, Pool.Play;
    hide Stack.Exec, Stack.Enabled, Stack.Inv, Stack.Legal, Stack.Play, Stack.Step, InStack, SameHolders;
    PoolPart(c, mv);
    PoolSteps(p, t, mv.act.n);
    var p' := Pool.Step(p, Pool.Move(t, Pool.Go(mv.act.n)));
    StackRetires(s, t);
    var sm := Stack.Move(t, Stack.Go(NULL));
    Stack.KeepsInv(s, sm);
    StackOne(s, sm);
    var s' := Stack.Step(s, sm);
    HoldersRetire(p.m.held, s.m, s'.m, c.self, n);
    CoupledAfter(c, s', p', t, s'.thr[t], p'.thr[t]);
  }

  lemma StackRests(s: Stack.State)
    ensures Stack.Legal(s, []) && Stack.Play(s, []) == s
  {
  }

  lemma PoolRests(s: Pool.State)
    ensures Pool.Legal(s, []) && Pool.Play(s, []) == s
  {
  }

  lemma StutterKeeps(c: State, mv: Move)
    requires Inv(c) && Can(c, mv) && Inside(c, mv) && Effect(c, mv).Stutter?
    ensures Fit(c, mv) && Inv(Step(c, mv))
  {
    var t, s, p := mv.t, c.stack, c.pool;
    hide Pool.Exec, Pool.Enabled, Pool.Effect, Pool.Inv, Pool.Legal, Pool.Play;
    hide Stack.Inv, Stack.Legal, Stack.Play, InStack, SameHolders;
    PoolPart(c, mv);
    PoolSteps(p, t, mv.act.n);
    StackRests(s);
    var p' := Pool.Step(p, Pool.Move(t, Pool.Go(mv.act.n)));
    assert s.thr == s.thr[t := s.thr[t]];
    CoupledAfter(c, s, p', t, s.thr[t], p'.thr[t]);
  }

  lemma PoolCalls(p: Pool.State, t: Tid, a: Pool.Act)
    requires Pool.Inv(p) && t in p.thr && p.thr[t].Idle?
    requires a.Alloc? || (a.Free? && a.n in p.m.held && p.m.held[a.n] == t)
    ensures var pm := Pool.Move(t, a);
            && Pool.Legal(p, [pm])
            && var p' := Pool.Play(p, [pm]);
               && Pool.Inv(p') && p'.m.held == p.m.held
               && p'.thr == p.thr[t := if a.Alloc? then Pool.AUse(p.m.alloc) else Pool.FTag(a.n)]
  {
    var pm := Pool.Move(t, a);
    PoolOne(p, pm);
    hide Pool.Inv, Pool.Legal, Pool.Play;
    Pool.KeepsInv(p, pm);
  }

  /** The two parts of a move, put together. */
  lemma Assembles(c: State, mv: Move, s': Stack.State, p': Pool.State, sp': Stack.PC, pp': Pool.PC)
    requires Can(c, mv) && Coupled(c)
    requires Stack.Legal(c.stack, StackMoves(c, mv)) && Stack.Play(c.stack, StackMoves(c, mv)) == s' && Stack.Inv(s')
    requires Pool.Legal(c.pool, PoolMoves(c, mv)) && Pool.Play(c.pool, PoolMoves(c, mv)) == p' && Pool.Inv(p')
    requires s'.thr == c.stack.thr[mv.t := sp'] && p'.thr == c.pool.thr[mv.t := pp']
    requires Together(sp', pp') && SameHolders(p'.m.held, s'.m, c.self)
    ensures Fit(c, mv) && Inv(Step(c, mv))
  {
    hide Stack.Legal, Stack.Play, Stack.Inv, Pool.Legal, Pool.Play, Pool.Inv, StackMoves, PoolMoves, Coupled;
    hide SameHolders, Together;
    assert mv.t in c.stack.thr;
    CoupledAfter(c, s', p', mv.t, sp', pp');
  }

  /** A thread that holds what it frees, or frees nothing, enters the pool. */
  lemma CallKeeps(c: State, mv: Move, a: Pool.Act, pp': Pool.PC)
    requires Inv(c) && Can(c, mv) && !Inside(c, mv)
    requires StackMoves(c, mv) == [] && PoolMoves(c, mv) == [Pool.Move(mv.t, a)]
    requires a.Alloc? || (a.Free? && a.n in c.pool.m.held && c.pool.m.held[a.n] == mv.t)
    requires pp' == if a.Alloc? then Pool.AUse(c.pool.m.alloc) else Pool.FTag(a.n)
    requires Together(c.stack.thr[mv.t], pp')
    ensures Fit(c, mv) && Inv(Step(c, mv))
  {
    var t, s, p := mv.t, c.stack, c.pool;
    assert Coupled(c) && SameHolders(p.m.held, s.m, c.self) && p.thr[t].Idle?;
    assert s.thr[t := s.thr[t]] == s.thr;
    hide *;
    StackRests(s);
    PoolCalls(p, t, a);
    Assembles(c, mv, s, Pool.Play(p, PoolMoves(c, mv)), s.thr[t], pp');
  }

  lemma AllocCallMoves(c: State, mv: Move)
    requires Can(c, mv) && !Inside(c, mv) && c.stack.thr[mv.t].PAlloc?
    ensures StackMoves(c, mv) == [] && PoolMoves(c, mv) == [Pool.Move(mv.t, Pool.Alloc)]
    ensures Together(c.stack.thr[mv.t], Pool.AUse(c.pool.m.alloc))
  {
  }

  lemma AllocCallKeeps(c: State, mv: Move)
    requires Inv(c) && Can(c, mv) && !Inside(c, mv) && c.stack.thr[mv.t].PAlloc?
    ensures Fit(c, mv) && Inv(Step(c, mv))
  {
    assert mv.t in c.stack.thr;
    hide *;
    AllocCallMoves(c, mv);
    CallKeeps(c, mv, Pool.Alloc, Pool.AUse(c.pool.m.alloc));
  }

  lemma FreeCallMoves(c: State, mv: Move, n: Node)
    requires Can(c, mv) && !Inside(c, mv) && c.stack.thr[mv.t].OFree? && c.stack.thr[mv.t].p == n
    ensures StackMoves(c, mv) == [] && PoolMoves(c, mv) == [Pool.Move(mv.t, Pool.Free(n))]
    ensures Together(c.stack.thr[mv.t], Pool.FTag(n))
  {
  }

  /** When the stack frees a node, its invariant says that the thread holds it. */
  lemma FreeCallKeeps(c: State, mv: Move)
    requires Inv(c) && Can(c, mv) && !Inside(c, mv) && c.stack.thr[mv.t].OFree?
    ensures Fit(c, mv) && Inv(Step(c, mv))
  {
    assert mv.t in c.stack.thr;
    var n := c.stack.thr[mv.t].p;
    hide *;
    FreerHolds(c, mv.t);
    FreeCallMoves(c, mv, n);
    CallKeeps(c, mv, Pool.Free(n), Pool.FTag(n));
  }

  lemma FreerHolds(c: State, t: Tid)
    requires Inv(c) && t in c.stack.thr && c.stack.thr[t].OFree?
    ensures var n := c.stack.thr[t].p; n in c.pool.m.held && c.pool.m.held[n] == t
  {
    hide Pool.Inv, Together, Stack.Inv;
    StackRetires(c.stack, t);
    HolderOf(c.pool.m.held, c.stack.m, c.self, c.stack.thr[t].p);
  }

  // ---- Moves of the stack ----

  /** What a step of the stack that is not its pool's does to the holders. */
  ghost predicate Hands(m: Stack.Shared, m': Stack.Shared, t: Tid, sp: Stack.PC) {
    && m'.live == m.live
    && (if !Wins(m, sp) then m'.own == m.own && m'.list == m.list
        else if sp.PCas? then
          sp.n in m.own && m.own[sp.n] == t && m'.own == m.own - {sp.n} && m'.list == [sp.n] + m.list
        else
          m.list != [] && sp.p == m.list[0] && m'.own == m.own[sp.p := t] && m'.list == m.list[1..])
  }

  lemma PopHands(s: Stack.State, t: Tid, a: Stack.Act)
    requires Stack.Inv(s) && t in s.thr && s.thr[t].OCas? && Wins(s.m, s.thr[t])
    requires Stack.Enabled(s.m, s.thr[t], a)
    ensures Hands(s.m, Stack.Exec(s.m, t, s.thr[t], a).0, t, s.thr[t])
  {
    Stack.Recount(s.thr, t, Stack.Idle);
    Stack.PopKeeps(s.m, Stack.Tally(s.thr), t);
    hide Stack.Inv;
  }

  lemma StackSteps(s: Stack.State, t: Tid, a: Stack.Act)
    requires Stack.Inv(s) && t in s.thr && !s.thr[t].PAlloc? && !s.thr[t].OFree?
    requires Stack.Enabled(s.m, s.thr[t], a)
    ensures Hands(s.m, Stack.Exec(s.m, t, s.thr[t], a).0, t, s.thr[t])
  {
    if Wins(s.m, s.thr[t]) && s.thr[t].OCas? {
      hide Stack.Inv, Stack.Exec, Stack.Enabled, Hands, Wins;
      PopHands(s, t, a);
    } else {
      assert Stack.Ok(s.m, t, s.thr[t]);
      hide Stack.Inv;
    }
  }

  lemma HoldersPush(held: map<Node, Tid>, m: Stack.Shared, m': Stack.Shared, self: Tid, n: Node)
    requires SameHolders(held, m, self) && InStack(m) && n in m.own
    requires m'.live == m.live && m'.own == m.own - {n} && m'.list == [n] + m.list
    ensures SameHolders(held[n := self], m', self)
  {
    assert held[n := self].Keys == held.Keys;
  }

  lemma HoldersPop(held: map<Node, Tid>, m: Stack.Shared, m': Stack.Shared, self: Tid, t: Tid)
    requires SameHolders(held, m, self) && InStack(m) && m.list != [] && NoDup(m.list)
    requires m'.live == m.live && m'.own == m.own[m.list[0] := t] && m'.list == m.list[1..]
    ensures m.list[0] in held && held[m.list[0]] == self && SameHolders(held[m.list[0] := t], m', self)
  {
    var n := m.list[0];
    assert n in m.list && n !in m.list[1..] && m.list == [n] + m.list[1..];
    assert held[n := t].Keys == held.Keys;
  }

  lemma PoolGives(p: Pool.State, from: Tid, n: Node, to: Tid)
    requires Pool.Inv(p) && from in p.thr && p.thr[from].Idle? && n in p.m.held && p.m.held[n] == from
    ensures var pm := Pool.Move(from, Pool.Give(n, to));
            && Pool.Legal(p, [pm])
            && var p' := Pool.Play(p, [pm]);
               Pool.Inv(p') && p'.m.held == p.m.held[n := to] && p'.thr == p.thr
  {
    var pm := Pool.Move(from, Pool.Give(n, to));
    PoolOne(p, pm);
    hide Pool.Inv, Pool.Legal, Pool.Play;
    assert Pool.Can(p, pm);
    Pool.KeepsInv(p, pm);
    assert p.thr[from := Pool.Idle] == p.thr;
  }

  /** The stack's part of its own move. */
  lemma StackPart(c: State, mv: Move)
    requires Inv(c) && Can(c, mv) && !Inside(c, mv) && !c.stack.thr[mv.t].PAlloc? && !c.stack.thr[mv.t].OFree?
    ensures var sm := Stack.Move(mv.t, mv.act);
            && StackMoves(c, mv) == [sm] && Stack.Can(c.stack, sm)
            && Stack.Legal(c.stack, [sm]) && Stack.Play(c.stack, [sm]) == Stack.Step(c.stack, sm)
            && Stack.Inv(Stack.Step(c.stack, sm)) && InStack(c.stack.m)
            && SameHolders(c.pool.m.held, c.stack.m, c.self)
  {
    var sm := Stack.Move(mv.t, mv.act);
    OwnedNow(c.stack);
    StackOne(c.stack, sm);
    hide Stack.Exec, Stack.Enabled, Stack.Inv, Pool.Inv, Together, SameHolders, InStack, Stack.Step;
    assert Stack.Can(c.stack, sm);
    Stack.KeepsInv(c.stack, sm);
  }

  lemma ListOnce(s: Stack.State)
    requires Stack.Inv(s)
    ensures NoDup(s.m.list)
  {
  }

  lemma PushMoveKeeps(c: State, mv: Move)
    requires Inv(c) && Can(c, mv) && !Inside(c, mv) && c.stack.thr[mv.t].PCas? && Wins(c.stack.m, c.stack.thr[mv.t])
    ensures Fit(c, mv) && Inv(Step(c, mv))
  {
    var t, s, p := mv.t, c.stack, c.pool;
    assert Coupled(c) && t in c.stack.thr && c.self in p.thr && p.thr[c.self].Idle? && p.thr[t].Idle?;
    hide Coupled;
    hide Pool.Exec, Pool.Enabled, Pool.Inv, Pool.Legal, Pool.Play, Stack.Exec, Stack.Enabled, Stack.Inv;
    hide Stack.Legal, Stack.Play, InStack, SameHolders, Wins;
    StackPart(c, mv);
    StackSteps(s, t, mv.act);
    var s', n := Stack.Step(s, Stack.Move(t, mv.act)), s.thr[t].n;
    assert n in p.m.held && p.m.held[n] == t by { HolderOf(p.m.held, s.m, c.self, n); }
    PoolGives(p, t, n, c.self);
    HoldersPush(p.m.held, s.m, s'.m, c.self, n);
    assert p.thr == p.thr[t := p.thr[t]];
    CoupledAfter(c, s', Pool.Play(p, PoolMoves(c, mv)), t, s'.thr[t], p.thr[t]);
  }

  /** The node that a pop takes is the stack's to give. */
  lemma PopGives(s: Stack.State, p: Pool.State, self: Tid, t: Tid, a: Stack.Act)
    requires Stack.Inv(s) && Pool.Inv(p) && SameHolders(p.m.held, s.m, self) && self in p.thr && p.thr[self].Idle?
    requires t in s.thr && s.thr[t].OCas? && Wins(s.m, s.thr[t]) && Stack.Enabled(s.m, s.thr[t], a)
    ensures var pm := Pool.Move(self, Pool.Give(s.thr[t].p, t));
            && Pool.Legal(p, [pm])
            && var p' := Pool.Play(p, [pm]);
               && Pool.Inv(p') && p'.thr == p.thr
               && SameHolders(p'.m.held, Stack.Exec(s.m, t, s.thr[t], a).0, self)
  {
    ListOnce(s);
    OwnedNow(s);
    StackSteps(s, t, a);
    hide Stack.Inv, Pool.Inv, Stack.Exec, Stack.Enabled, Pool.Legal, Pool.Play, Wins, SameHolders, InStack, NoDup;
    var m' := Stack.Exec(s.m, t, s.thr[t], a).0;
    HoldersPop(p.m.held, s.m, m', self, t);
    PoolGives(p, self, s.thr[t].p, t);
  }

  lemma PopMoveKeeps(c: State, mv: Move)
    requires Inv(c) && Can(c, mv) && !Inside(c, mv) && c.stack.thr[mv.t].OCas? && Wins(c.stack.m, c.stack.thr[mv.t])
    ensures Fit(c, mv) && Inv(Step(c, mv))
  {
    var t, s, p := mv.t, c.stack, c.pool;
    assert Coupled(c) && t in c.stack.thr && c.self in p.thr && p.thr[c.self].Idle? && p.thr[t].Idle?;
    hide Coupled, Pool.Exec, Pool.Enabled, Pool.Inv, Pool.Legal, Pool.Play, Stack.Exec, Stack.Enabled, Stack.Inv;
    hide Stack.Legal, Stack.Play, InStack, SameHolders, Wins;
    StackPart(c, mv);
    PopGives(s, p, c.self, t, mv.act);
    var s' := Stack.Step(s, Stack.Move(t, mv.act));
    assert p.thr == p.thr[t := p.thr[t]];
    CoupledAfter(c, s', Pool.Play(p, PoolMoves(c, mv)), t, s'.thr[t], p.thr[t]);
  }

  lemma HoldersStay(held: map<Node, Tid>, m: Stack.Shared, m': Stack.Shared, self: Tid)
    requires SameHolders(held, m, self) && m'.live == m.live && m'.own == m.own && m'.list == m.list
    ensures SameHolders(held, m', self)
  {
  }

  lemma QuietMoveKeeps(c: State, mv: Move)
    requires Inv(c) && Can(c, mv) && !Inside(c, mv) && !c.stack.thr[mv.t].PAlloc? && !c.stack.thr[mv.t].OFree?
    requires !Wins(c.stack.m, c.stack.thr[mv.t])
    ensures Fit(c, mv) && Inv(Step(c, mv))
  {
    var t, s, p := mv.t, c.stack, c.pool;
    assert Coupled(c) && t in c.stack.thr && c.self in p.thr && p.thr[c.self].Idle? && p.thr[t].Idle?;
    hide Coupled;
    hide Pool.Exec, Pool.Enabled, Pool.Inv, Pool.Legal, Pool.Play, Stack.Exec, Stack.Enabled, Stack.Inv;
    hide Stack.Legal, Stack.Play, InStack, SameHolders, Wins;
    StackPart(c, mv);
    StackSteps(s, t, mv.act);
    var s' := Stack.Step(s, Stack.Move(t, mv.act));
    PoolRests(p);
    HoldersStay(p.m.held, s.m, s'.m, c.self);
    assert p.thr == p.thr[t := p.thr[t]];
    CoupledAfter(c, s', p, t, s'.thr[t], p.thr[t]);
  }

  /** Whatever a thread does next, the two machines fit and keep the invariant. */
  lemma KeepsInv(c: State, mv: Move)
    requires Inv(c) && Can(c, mv)
    ensures Fit(c, mv) && Inv(Step(c, mv))
  {
    var sp := c.stack.thr[mv.t];
    hide Inv, Can, Fit, Step, Wins, Inside;
    if Inside(c, mv) {
      match Effect(c, mv)
      case Issue(n) => IssueKeeps(c, mv, n);
      case Retire(n) => RetireKeeps(c, mv, n);
      case Stutter => StutterKeeps(c, mv);
    } else if sp.PAlloc? {
      AllocCallKeeps(c, mv);
    } else if sp.OFree? {
      FreeCallKeeps(c, mv);
    } else if !Wins(c.stack.m, sp) {
      QuietMoveKeeps(c, mv);
    } else if sp.PCas? {
      PushMoveKeeps(c, mv);
    } else {
      assert sp.OCas? by { WinsAt(c.stack.m, sp); }
      PopMoveKeeps(c, mv);
    }
  }

  lemma WinsAt(m: Stack.Shared, pc: Stack.PC)
    requires Wins(m, pc)
    ensures pc.PCas? || pc.OCas?
  {
  }

  lemma {:induction false} Reachable(c: State, mvs: seq<Move>)
    requires Inv(c) && Legal(c, mvs)
    ensures Inv(Play(c, mvs))
    decreases |mvs|
  {
    hide Inv, Fit, Step;
    if mvs != [] {
      assert Can(c, mvs[0]) by { FitCan(c, mvs[0]); }
      KeepsInv(c, mvs[0]);
      Reachable(Step(c, mvs[0]), mvs[1..]);
    }
  }

  lemma FitCan(c: State, mv: Move)
    requires Fit(c, mv)
    ensures Can(c, mv)
  {
  }

  lemma InitCoupled(c: State)
    requires Init(c)
    ensures Coupled(c)
  {
  }

  lemma RunKeeps(c: State, mvs: seq<Move>)
    requires Init(c) && Legal(c, mvs)
    ensures Inv(Play(c, mvs))
  {
    InitCoupled(c);
    hide Stack.Init, Pool.Init, Stack.Inv, Pool.Inv, Coupled;
    Stack.InitInv(c.stack);
    Pool.InitInv(c.pool);
    hide Legal, Play;
    Reachable(c, mvs);
  }

  // ---- What holds in every run of the two together ----

  /** The runs of the two machines that a run of both consists of. */
  ghost function StackRun(c: State, mvs: seq<Move>): seq<Stack.Move>
    requires Legal(c, mvs)
    decreases |mvs|
  {
    if mvs == [] then [] else StackMoves(c, mvs[0]) + StackRun(Step(c, mvs[0]), mvs[1..])
  }

  lemma {:induction false} StackJoins(s: Stack.State, xs: seq<Stack.Move>, ys: seq<Stack.Move>)
    requires Stack.Legal(s, xs) && Stack.Legal(Stack.Play(s, xs), ys)
    ensures Stack.Legal(s, xs + ys) && Stack.Play(s, xs + ys) == Stack.Play(Stack.Play(s, xs), ys)
    decreases |xs|
  {
    if xs == [] {
      assert xs + ys == ys;
    } else {
      assert (xs + ys)[1..] == xs[1..] + ys;
      StackJoins(Stack.Step(s, xs[0]), xs[1..], ys);
    }
  }

  /** The stack in a run over the real pool makes a run of the stack's machine, so all that is proved of that machine
      over any allocator holds over the real pool. */
  lemma {:induction false} StackRunsAsProved(c: State, mvs: seq<Move>)
    requires Legal(c, mvs)
    ensures Stack.Legal(c.stack, StackRun(c, mvs))
    ensures Stack.Play(c.stack, StackRun(c, mvs)) == Play(c, mvs).stack
    decreases |mvs|
  {
    if mvs != [] {
      var c' := Step(c, mvs[0]);
      StackRunsAsProved(c', mvs[1..]);
      StackJoins(c.stack, StackMoves(c, mvs[0]), StackRun(c', mvs[1..]));
    }
  }

  /** The stack never asks the pool for what a lawful client may not ask, and the pool never issues what the stack does
      not expect: in every state of every run, whatever move a thread can make next fits both machines. */
  lemma DisciplineHolds(c: State, mvs: seq<Move>, mv: Move)
    requires Init(c) && Legal(c, mvs) && Can(Play(c, mvs), mv)
    ensures Fit(Play(c, mvs), mv)
  {
    RunKeeps(c, mvs);
    hide Inv, Fit, Can;
    KeepsInv(Play(c, mvs), mv);
  }

  /** LIFO and ownership over the real pool: the successful CASes replay on a sequential stack to what is linked, and
      every node ever created is in the stack, or held by one thread outside it, or on the pool's free list, in one of
      these places only and once. */
  lemma LifoOverPool(c: State, mvs: seq<Move>, n: Node)
    requires Init(c) && Legal(c, mvs)
    ensures var m, q := Play(c, mvs).stack.m, Play(c, mvs).pool.m;
            && (forall i :: 0 <= i < |m.list| ==> m.list[i] in m.data)
            && Stack.Replay(m.log) == Stack.Some(Items(m.data, m.list))
            && multiset(m.list)[n] + Bit(n in m.own) + multiset(q.free)[n] == Bit(n in q.next)
  {
    RunKeeps(c, mvs);
    var r := Play(c, mvs);
    StackPlaces(r.stack, n);
    PoolPlaces(r.pool, n);
    hide Stack.Inv, Pool.Inv;
    SameKeys(r.pool.m.held, r.stack.m, r.self);
  }

  lemma StackPlaces(s: Stack.State, n: Node)
    requires Stack.Inv(s)
    ensures (forall i :: 0 <= i < |s.m.list| ==> s.m.list[i] in s.m.data)
    ensures Stack.Replay(s.m.log) == Stack.Some(Items(s.m.data, s.m.list))
    ensures multiset(s.m.list)[n] + Bit(n in s.m.own) == Bit(n in s.m.live)
  {
    if n in s.m.list { OccursOnce(s.m.list, n); }
  }

  lemma PoolPlaces(p: Pool.State, n: Node)
    requires Pool.Inv(p)
    ensures multiset(p.m.free)[n] + Bit(n in p.m.held) == Bit(n in p.m.next)
  {
    if n in p.m.free { OccursOnce(p.m.free, n); }
  }

  // ---- What was asked ----

  /** The items that the moves ask to push on behalf of `p`, and how many pops. */
  function Given(mvs: seq<Move>, p: Tid): seq<Stack.Item> {
    if mvs == [] then []
    else (if mvs[0].t == p && mvs[0].act.Push? then [mvs[0].act.v] else []) + Given(mvs[1..], p)
  }

  function Asked(mvs: seq<Move>, p: Tid): nat {
    if mvs == [] then 0 else (if mvs[0].t == p && mvs[0].act.Pop? then 1 else 0) + Asked(mvs[1..], p)
  }

  lemma {:induction false} CallsJoin(xs: seq<Stack.Move>, ys: seq<Stack.Move>, p: Tid)
    ensures Calls.Given(xs + ys, p) == Calls.Given(xs, p) + Calls.Given(ys, p)
    ensures Calls.Asked(xs + ys, p) == Calls.Asked(xs, p) + Calls.Asked(ys, p)
    decreases |xs|
  {
    if xs == [] {
      assert xs + ys == ys;
    } else {
      assert (xs + ys)[1..] == xs[1..] + ys;
      CallsJoin(xs[1..], ys, p);
    }
  }

  lemma CallsInMove(c: State, mv: Move, p: Tid)
    requires Can(c, mv)
    ensures Calls.Given(StackMoves(c, mv), p) == if mv.t == p && mv.act.Push? then [mv.act.v] else []
    ensures Calls.Asked(StackMoves(c, mv), p) == if mv.t == p && mv.act.Pop? then 1 else 0
  {
    var xs := StackMoves(c, mv);
    if xs != [] {
      assert xs == [xs[0]] && xs[1..] == [];
      assert Calls.Given([], p) == [] && Calls.Asked([], p) == 0;
    }
  }

  lemma {:induction false} SameCalls(c: State, mvs: seq<Move>, p: Tid)
    requires Legal(c, mvs)
    ensures Calls.Given(StackRun(c, mvs), p) == Given(mvs, p) && Calls.Asked(StackRun(c, mvs), p) == Asked(mvs, p)
    decreases |mvs|
  {
    hide Can, Step, StackMoves;
    if mvs != [] {
      FitCan(c, mvs[0]);
      CallsInMove(c, mvs[0], p);
      SameCalls(Step(c, mvs[0]), mvs[1..], p);
      CallsJoin(StackMoves(c, mvs[0]), StackRun(Step(c, mvs[0]), mvs[1..]), p);
    }
  }

  /** Over the real pool too, what thread `p` has pushed, followed by the item of its Push in progress, is what its
      callers gave it, and what its Pops have returned and owe is what it has popped, one answer for each call. */
  lemma CallsOverPool(c: State, mvs: seq<Move>, p: Tid)
    requires Init(c) && Legal(c, mvs) && p in c.stack.thr
    ensures var run, r := StackRun(c, mvs), Play(c, mvs).stack;
            && Stack.Legal(c.stack, run) && p in r.thr
            && Calls.PushedBy(c.stack, run, p) + Calls.Pushing(r.thr[p]) == Given(mvs, p)
            && Calls.ReturnedBy(c.stack, run, p) + Calls.Owed(r.thr[p]) == Calls.PoppedBy(c.stack, run, p)
            && Calls.AnsweredBy(c.stack, run, p) + Bit(Calls.InPop(r.thr[p])) == Asked(mvs, p)
  {
    StackRunsAsProved(c, mvs);
    SameCalls(c, mvs, p);
    Stack.InitInv(c.stack);
    assert c.stack.thr[p] == Stack.Idle;
    assert Calls.Pushing(Stack.Idle) == [] && Calls.Owed(Stack.Idle) == [] && !Calls.InPop(Stack.Idle);
    hide Init, Legal, Play, Stack.Inv, Stack.Init;
    Calls.PushesWhatWasGiven(c.stack, StackRun(c, mvs), p);
    Calls.ReturnsWhatWasPopped(c.stack, StackRun(c, mvs), p);
    assert [] + Given(mvs, p) == Given(mvs, p);
  }
}
