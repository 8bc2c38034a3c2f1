/** Obstruction freedom of the pool: a thread inside a call that runs alone finishes in a bounded number of steps. */
module PoolProgress {
  import opened Census
  import opened LinkedList
  import opened MemoryPool

  ghost predicate Current(m: Shared, p: Node, g: nat) { m.top == p && m.tag == g }

  /** The steps left if the thread at `pc` runs alone: a stale snapshot costs one more round. */
  ghost function Left(m: Shared, pc: PC): nat {
    match pc
    case Idle => 0
    case AUse(_) => 5
    case ANew => 1
    case ATop => 4
    case ATag(p) => if m.top == p then 3 else 7
    case ANext(p, g) => if Current(m, p, g) then 2 else 6
    case ACas(p, g, _) => if Current(m, p, g) then 1 else 5
    case FTag(_) => 5
    case FTop(_, g) => if m.tag == g then 4 else 8
    case FLink(_, g, p) => if Current(m, p, g) then 3 else 7
    case FCas(_, g, p) => if Current(m, p, g) then 2 else 6
    case FUse => 1
  }

  const ALONE: nat := 8

  /** Each step inside a call brings a thread that runs alone nearer its end, and there is always such a step. */
  lemma EachStepCounts(m: Shared, t: Tid, pc: PC, a: Act)
    requires Enabled(m, t, pc, a) && !pc.Idle?
    ensures var (m', pc') := Exec(m, t, pc, a); Left(m', pc') < Left(m, pc) <= ALONE
  {
  }

  lemma NeverStuck(s: State, t: Tid, n: Node)
    requires Inv(s) && t in s.thr && !s.thr[t].Idle? && n != NULL && n !in s.m.next
    ensures Can(s, Move(t, Go(n)))
  {
    assert Ok(s.m, t, s.thr[t]);
    hide Global;
  }

  /** A run of one thread inside its call, back to its caller. */
  ghost predicate Returns(s: State, mvs: seq<Move>, t: Tid) {
    && Legal(s, mvs) && (forall i :: 0 <= i < |mvs| ==> mvs[i].t == t && mvs[i].act.Go?)
    && var r := Play(s, mvs);
       t in r.thr && r.thr[t].Idle?
  }

  lemma ReturnsLater(s: State, mv: Move, rest: seq<Move>)
    requires Can(s, mv) && mv.act.Go? && Returns(Step(s, mv), rest, mv.t)
    ensures Returns(s, [mv] + rest, mv.t)
  {
    hide Exec, Enabled;
    var mvs := [mv] + rest;
    assert mvs[1..] == rest;
    assert forall i :: 0 < i < |mvs| ==> mvs[i] == rest[i - 1];
  }

  lemma StaysIdle(s: State, t: Tid)
    requires t in s.thr && s.thr[t].Idle?
    ensures Returns(s, [], t)
  {
  }

  /** From any reachable state, however stale its snapshot, an Alloc or Free that runs alone is over within ALONE
      steps. */
  lemma {:induction false} Completes(s: State, t: Tid) returns (mvs: seq<Move>)
    requires Inv(s) && t in s.thr
    ensures Returns(s, mvs, t) && |mvs| <= Left(s.m, s.thr[t]) <= ALONE
    decreases Left(s.m, s.thr[t])
  {
    hide Global, Ok, Exec, Enabled, Returns;
    mvs := [];
    if s.thr[t].Idle? {
      StaysIdle(s, t);
    } else {
      var n := Unissued(s.m.next.Keys + {NULL});
      var mv := Move(t, Go(n));
      NeverStuck(s, t, n);
      EachStepCounts(s.m, t, s.thr[t], mv.act);
      KeepsInv(s, mv);
      hide Inv, Left;
      var rest := Completes(Step(s, mv), t);
      ReturnsLater(s, mv, rest);
      mvs := [mv] + rest;
    }
  }
}
