/** Obstruction freedom of the stack: a thread inside a call that runs alone finishes in a bounded number of steps. */
module StackProgress {
  import opened Census
  import opened LinkedList
  import opened LockFreeStack
  import opened StackCalls

  ghost predicate Current(m: Shared, p: Node, g: nat) { m.top == p && m.tag == g }

  /** The steps left if the thread at `pc` runs alone: a stale snapshot costs one more round. */
  ghost function Left(m: Shared, pc: PC): nat {
    match pc
    case Idle => 0
    case PAlloc(_) => 7
    case PData(_, _) => 6
    case PTop(_, _) => 5
    case PTag(_, _, p) => if m.top == p then 4 else 8
    case PLink(_, _, p, g) => if Current(m, p, g) then 3 else 7
    case PCas(_, _, p, g) => if Current(m, p, g) then 2 else 6
    case PCount => 1
    case OFail => 1
    case OTop => 6
    case OTag(p) => if m.top == p then 5 else 9
    case ONext(p, g) => if Current(m, p, g) then 4 else 8
    case OCas(p, g, _) => if Current(m, p, g) then 3 else 7
    case OData(_, _) => 2
    case OFree(_, _, _) => 1
  }

  const ALONE: nat := 9

  /** Each step inside a call brings a thread that runs alone nearer its end, and there is always such a step. */
  lemma EachStepCounts(m: Shared, t: Tid, pc: PC, a: Act)
    requires Enabled(m, pc, a) && !pc.Idle?
    ensures var (m', pc') := Exec(m, t, pc, a); Left(m', pc') < Left(m, pc) <= ALONE
  {
  }

  lemma NeverStuck(s: State, t: Tid, n: Node)
    requires Inv(s) && t in s.thr && !s.thr[t].Idle? && n != NULL && n !in s.m.live
    ensures Can(s, Move(t, Go(n)))
  {
    assert Ok(s.m, t, s.thr[t]) && s.m.data.Keys == s.m.next.Keys;
    assert s.thr[t].OData? ==> s.thr[t].p in s.m.data;
    hide Global;
  }

  /** A run of one thread inside its call, back to its caller. */
  ghost predicate Returns(s: State, mvs: seq<Move>, t: Tid) {
    && Legal(s, mvs) && (forall i :: 0 <= i < |mvs| ==> mvs[i].t == t && mvs[i].act.Go?)
    && var r := Play(s, mvs);
       t in r.thr && r.thr[t].Idle?
  }

  lemma ReturnsLater(s: State, mv: Move, rest: seq<Move>)
    requires Can(s, mv) && mv.act.Go? && Returns(Step(s, mv), rest, mv.t)
    ensures Returns(s, [mv] + rest, mv.t)
  {
    hide Exec, Enabled;
    var mvs := [mv] + rest;
    assert mvs[1..] == rest;
    assert forall i :: 0 < i < |mvs| ==> mvs[i] == rest[i - 1];
  }

  lemma StaysIdle(s: State, t: Tid)
    requires t in s.thr && s.thr[t].Idle?
    ensures Returns(s, [], t)
  {
  }

  /** From any reachable state, however stale its snapshot, a Push or Pop that runs alone is over within ALONE steps. */
  lemma {:induction false} Completes(s: State, t: Tid) returns (mvs: seq<Move>)
    requires Inv(s) && t in s.thr
    ensures Returns(s, mvs, t) && |mvs| <= Left(s.m, s.thr[t]) <= ALONE
    decreases Left(s.m, s.thr[t])
  {
    hide Global, Ok, Exec, Enabled, Returns;
    mvs := [];
    if s.thr[t].Idle? {
      StaysIdle(s, t);
    } else {
      var n := Unissued(s.m.live + {NULL});
      var mv := Move(t, Go(n));
      NeverStuck(s, t, n);
      EachStepCounts(s.m, t, s.thr[t], mv.act);
      KeepsInv(s, mv);
      hide Inv, Left;
      var rest := Completes(Step(s, mv), t);
      ReturnsLater(s, mv, rest);
      mvs := [mv] + rest;
    }
  }

  // ---- A Pop that is let in returns an item ----

  /** Whether a Pop has been let past its count check and has yet to return. */
  predicate Serving(pc: PC) { Popping(pc) || pc.OData? || pc.OFree? }

  /** Whether the move calls a Pop for `p` that is let in: the stack is longer than the lag of its counter. */
  ghost function AdmittedIn(s: State, mv: Move, p: Tid): nat {
    if mv.t == p && mv.act.Pop? && |s.m.list| > Lag(s.thr) then 1 else 0
  }

  ghost function Admitted(s: State, mvs: seq<Move>, p: Tid): nat
    requires Legal(s, mvs)
    decreases |mvs|
  {
    if mvs == [] then 0 else AdmittedIn(s, mvs[0], p) + Admitted(Step(s, mvs[0]), mvs[1..], p)
  }

  lemma ServeStep(s: State, mv: Move, p: Tid)
    requires Can(s, mv) && p in s.thr && !mv.act.Pop?
    ensures |ReturnedIn(s, mv, p)| + Bit(Serving(Step(s, mv).thr[p])) == Bit(Serving(s.thr[p]))
  {
  }

  lemma ServeCall(s: State, t: Tid)
    requires Inv(s) && t in s.thr && s.thr[t].Idle?
    ensures var mv := Move(t, Pop);
            && Can(s, mv) && ReturnedIn(s, mv, t) == []
            && Bit(Serving(Step(s, mv).thr[t])) == AdmittedIn(s, mv, t)
  {
    RefusedIff(s, t);
    hide Inv, Lag, Exec;
  }

  lemma NotAdmitted(s: State, mv: Move, p: Tid)
    requires mv.t != p || !mv.act.Pop?
    ensures AdmittedIn(s, mv, p) == 0
  {
  }

  lemma ServeOther(s: State, mv: Move, p: Tid)
    requires Can(s, mv) && p in s.thr && mv.t != p
    ensures ReturnedIn(s, mv, p) == [] && Step(s, mv).thr[p] == s.thr[p]
  {
    hide Exec, Enabled;
  }

  lemma ServeLedger(s: State, mv: Move, p: Tid)
    requires Inv(s) && Can(s, mv) && p in s.thr
    ensures |ReturnedIn(s, mv, p)| + Bit(Serving(Step(s, mv).thr[p]))
            == Bit(Serving(s.thr[p])) + AdmittedIn(s, mv, p)
  {
    if mv.t != p {
      hide *;
      NotAdmitted(s, mv, p);
      ServeOther(s, mv, p);
    } else if !mv.act.Pop? {
      hide *;
      NotAdmitted(s, mv, p);
      ServeStep(s, mv, p);
    } else {
      assert s.thr[p].Idle? && mv == Move(p, Pop) && Bit(Serving(s.thr[p])) == 0;
      hide *;
      ServeCall(s, p);
    }
  }

  /** In every interleaving, each Pop that is let in returns an item, but for one in progress, whatever CAS it loses. */
  lemma {:induction false} AdmittedReturn(s: State, mvs: seq<Move>, p: Tid)
    requires Inv(s) && Legal(s, mvs) && p in s.thr
    ensures p in Play(s, mvs).thr
    ensures |ReturnedBy(s, mvs, p)| + Bit(Serving(Play(s, mvs).thr[p]))
            == Bit(Serving(s.thr[p])) + Admitted(s, mvs, p)
    decreases |mvs|
  {
    hide Global, Ok, Exec, Enabled, Serving, ReturnedIn, AdmittedIn;
    if mvs != [] {
      ServeLedger(s, mvs[0], p);
      KeepsInv(s, mvs[0]);
      AdmittedReturn(Step(s, mvs[0]), mvs[1..], p);
    }
  }
}
