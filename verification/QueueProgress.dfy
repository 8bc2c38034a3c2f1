/** Obstruction freedom of the queue: a thread inside a call that runs alone finishes in a bounded number of steps. */
module QueueProgress {
  import opened Census
  import opened LinkedList
  import opened LockFreeQueue
  import opened QueueInvariant

  /** The tail is behind. */
  ghost predicate Lags(m: Shared) {
    m.tail in m.next && m.next[m.tail] != NULL
  }

  /** Steps an Enqueue needs from the top of its loop: a round to refresh a stale tag and a round to advance a
      lagging tail, each at most once, then the round that links. */
  ghost function EnqueueRounds(m: Shared, u: int): nat {
    if !Lags(m) then 5 else if u == m.ttag then 9 else 13
  }

  /** The same for a Dequeue past its count check: at most one stale tail tag, one help, one stale head tag. */
  ghost function DequeueRounds(m: Shared, u: int, tu: int): nat {
    (if m.tail != m.head then 0 else if tu == m.ttag then 2 else 7) + (if u == m.htag then 7 else 13)
  }

  /** A bound on the steps left if the thread at `pc` runs alone. */
  ghost function Left(m: Shared, pc: PC): nat {
    if pc.Idle? then 0
    else if Enqueuing(pc) then EnqueueLeft(m, pc)
    else DequeueLeft(m, pc)
  }

  ghost function EnqueueLeft(m: Shared, pc: PC): nat {
    match pc
    case EAlloc(_) => 4 + EnqueueRounds(m, m.ttag)
    case EInit(_, _) => 3 + EnqueueRounds(m, m.ttag)
    case EData(_, _) => 2 + EnqueueRounds(m, m.ttag)
    case ETag(_, _) => 1 + EnqueueRounds(m, m.ttag)
    case ETail(_, _, u) => EnqueueRounds(m, u)
    case ENext(_, _, u, tp) => if tp in m.next && m.next[tp] == NULL then 4 else 2 + HelpLeft(m, u, tp)
    case ELink(_, _, u, tp) => if tp in m.next && m.next[tp] == NULL then 3 else 1 + EnqueueRounds(m, u)
    case EReread(_, _, u, tp) => 1 + HelpLeft(m, u, tp)
    case EHelp(_, _, u, tp, _) => HelpLeft(m, u, tp)
    case ESwing(_, _, _) => 2
    case ECount => 1
    case _ => 0
  }

  ghost function HelpLeft(m: Shared, u: int, tp: Node): nat {
    1 + if m.tail == tp && m.ttag == u then 5 else EnqueueRounds(m, m.ttag)
  }

  ghost function DequeueLeft(m: Shared, pc: PC): nat {
    match pc
    case DFail => 1
    case DTag => 1 + DequeueRounds(m.(htag := m.htag + 1), m.htag + 1, m.ttag - 1)
    case DHead(u, tu) => DequeueRounds(m, u, tu)
    case DTail(u, tu, h) => 1 + NextLeft(m, u, tu, h, m.tail)
    case DNext(u, tu, h, tl) => NextLeft(m, u, tu, h, tl)
    case DReread(u, tu, h, _) => 1 + AssistLeft(m, u, tu, h)
    case DHelp(u, tu, h, _, _) => AssistLeft(m, u, tu, h)
    case DData(u, tu, h, _) => 2 + CasLeft(m, u, tu, h)
    case DNext2(u, tu, h, _) => 1 + CasLeft(m, u, tu, h)
    case DCas(u, tu, h, _, _) => CasLeft(m, u, tu, h)
    case DFree(_, _) => 1
    case _ => 0
  }

  ghost function NextLeft(m: Shared, u: int, tu: int, h: Node, tl: Node): nat {
    1 + if h in m.next && m.next[h] == NULL then DequeueRounds(m, u, tu)
        else if h == tl then 1 + AssistLeft(m, u, tu, h)
        else 2 + CasLeft(m, u, tu, h)
  }

  ghost function AssistLeft(m: Shared, u: int, tu: int, h: Node): nat {
    1 + if m.tail == h && m.ttag == tu then (if m.head == h && m.htag == u then 4 else 10)
        else DequeueRounds(m, u, m.ttag)
  }

  ghost function CasLeft(m: Shared, u: int, tu: int, h: Node): nat {
    if m.head == h && m.htag == u then 2 else 1 + DequeueRounds(m, m.htag, tu)
  }

  /** The bound that holds at every point of every call. */
  const ALONE: nat := 22

  lemma LeftIsBounded(m: Shared, pc: PC)
    ensures Left(m, pc) <= ALONE
  {
  }

  /** A lagging tail is the node before the last; otherwise it is the last. */
  lemma LagShape(m: Shared, k: Counts)
    requires Global(m, k)
    ensures m.tail in m.next && (Lags(m) <==> m.tail != Last(m.chain))
    ensures m.tail == m.head && |m.chain| >= 2 ==> Lags(m)
  {
    hide Fifo;
    Basics(m, k);
    if m.next[m.tail] == NULL {
      LastPoints(m, m.tail);
    } else {
      TailPoints(m, m.next[m.tail]);
    }
  }

  lemma EnqueueAdvances(m: Shared, k: Counts, t: Tid, pc: PC, a: Act)
    requires Global(m, k) && Ok(m, k.looping, t, pc) && Enabled(m, pc, a)
    requires pc.ETail? || pc.ENext? || pc.EReread? || pc.ELink? || pc.ESwing?
    ensures var (m', pc') := Exec(m, t, pc, a); Left(m', pc') < Left(m, pc)
  {
    hide Global, TailSnap, LinkSnap, Ready, DequeueOk;
    LagShape(m, k);
  }

  lemma EnqueueHelps(m: Shared, k: Counts, t: Tid, pc: PC, a: Act)
    requires Global(m, k) && Ok(m, k.looping, t, pc) && Enabled(m, pc, a) && pc.EHelp?
    ensures var (m', pc') := Exec(m, t, pc, a); Left(m', pc') < Left(m, pc)
  {
    hide Global, LinkSnap, Ready, DequeueOk;
    if m.tail == pc.tp && m.ttag == pc.u {
      TailMoveKeeps(m, k, m.ttag, pc.nx);
      LagShape(m.(tail := pc.nx), k);
    }
  }

  lemma EnqueueEnters(m: Shared, k: Counts, t: Tid, pc: PC, a: Act)
    requires Global(m, k) && Ok(m, k.looping, t, pc) && Enabled(m, pc, a)
    requires pc.EAlloc? || pc.EInit? || pc.EData? || pc.ETag? || pc.ECount?
    ensures var (m', pc') := Exec(m, t, pc, a); Left(m', pc') < Left(m, pc)
  {
    hide Global, TailSnap, LinkSnap, DequeueOk;
    Basics(m, k);
    if pc.EInit? || pc.EData? || pc.ETag? { Outside(m, k, t, pc.n, Fresh); }
  }

  lemma DequeueStarts(m: Shared, k: Counts, t: Tid, pc: PC, a: Act)
    requires Global(m, k) && Ok(m, k.looping, t, pc) && Enabled(m, pc, a) && (pc.DHead? ==> |m.chain| >= 2)
    requires pc.DTag? || pc.DHead? || pc.DTail? || pc.DFree? || pc.DFail?
    ensures var (m', pc') := Exec(m, t, pc, a); Left(m', pc') < Left(m, pc)
  {
    hide Global, HeadSnap, TailSnap, EnqueueOk;
    Basics(m, k);
  }

  lemma DequeueReads(m: Shared, k: Counts, t: Tid, pc: PC, a: Act)
    requires Global(m, k) && Ok(m, k.looping, t, pc) && Enabled(m, pc, a)
    requires pc.DNext? || pc.DReread? || pc.DData? || pc.DNext2?
    ensures var (m', pc') := Exec(m, t, pc, a); Left(m', pc') < Left(m, pc)
  {
    hide Global, HeadSnap, TailSnap, EnqueueOk;
  }

  lemma DequeueTries(m: Shared, k: Counts, t: Tid, pc: PC, a: Act)
    requires Global(m, k) && Ok(m, k.looping, t, pc) && Enabled(m, pc, a)
    requires pc.DHelp? || pc.DCas?
    ensures var (m', pc') := Exec(m, t, pc, a); Left(m', pc') < Left(m, pc)
  {
    hide Global, HeadSnap, EnqueueOk;
    if pc.DHelp? && m.tail == pc.h && m.ttag == pc.tu {
      TailMoveKeeps(m, k, m.ttag, pc.nx2);
    }
  }

  /** From a reachable state, each step inside a call brings a thread that runs alone nearer its end. */
  lemma EachStepCounts(m: Shared, k: Counts, t: Tid, pc: PC, a: Act)
    requires Global(m, k) && Sane(k, pc) && Ok(m, k.looping, t, pc) && Enabled(m, pc, a) && !pc.Idle?
    requires pc.DHead? ==> |m.chain| >= 2
    ensures var (m', pc') := Exec(m, t, pc, a); Left(m', pc') < Left(m, pc)
  {
    hide Global, Ok, Exec, Enabled, Left;
    if pc.ETail? || pc.ENext? || pc.EReread? || pc.ELink? || pc.ESwing? {
      EnqueueAdvances(m, k, t, pc, a);
    } else if pc.EHelp? {
      EnqueueHelps(m, k, t, pc, a);
    } else if pc.EAlloc? || pc.EInit? || pc.EData? || pc.ETag? || pc.ECount? {
      EnqueueEnters(m, k, t, pc, a);
    } else if pc.DHelp? || pc.DCas? {
      DequeueTries(m, k, t, pc, a);
    } else if pc.DNext? || pc.DReread? || pc.DData? || pc.DNext2? {
      DequeueReads(m, k, t, pc, a);
    } else {
      DequeueStarts(m, k, t, pc, a);
    }
  }

  ghost predicate Alone(mvs: seq<Move>, t: Tid) {
    forall i :: 0 <= i < |mvs| ==> mvs[i].t == t && mvs[i].act.Go?
  }

  lemma Reserved(s: State, t: Tid)
    requires Inv(s) && t in s.thr && Looping(s.thr[t])
    ensures |s.m.chain| >= 2
  {
    Moved(s.thr, t, Idle, Looping);
  }

  lemma StepCounts(s: State, mv: Move)
    requires Inv(s) && Can(s, mv) && mv.act.Go?
    ensures Left(Step(s, mv).m, Step(s, mv).thr[mv.t]) < Left(s.m, s.thr[mv.t])
  {
    hide Global, Ok, Exec, Left;
    var t, pc := mv.t, s.thr[mv.t];
    if Looping(pc) { Reserved(s, t); }
    Recount(s.thr, t, Idle);
    assert Inv(s) && !pc.Idle?;
    var k := Tally(s.thr);
    assert Global(s.m, k) && Ok(s.m, k.looping, t, pc);
    EachStepCounts(s.m, k, t, pc, mv.act);
  }

  /** Obstruction freedom: from any reachable state, an Enqueue, or a Dequeue past its count check, that runs alone
      is over after at most ALONE steps, whatever the other threads were doing. */
  lemma {:induction false} FinishesAlone(s: State, mvs: seq<Move>, t: Tid)
    requires Inv(s) && t in s.thr && Legal(s, mvs) && SparesAll(s, mvs) && Alone(mvs, t)
    ensures |mvs| <= Left(s.m, s.thr[t]) <= ALONE
    decreases |mvs|
  {
    hide Global, Ok, Exec, Left;
    LeftIsBounded(s.m, s.thr[t]);
    if mvs != [] {
      assert mvs[0].t == t && mvs[0].act.Go?;
      StepCounts(s, mvs[0]);
      KeepsInv(s, mvs[0]);
      var rest := mvs[1..];
      assert forall i :: 0 <= i < |rest| ==> rest[i] == mvs[i + 1];
      FinishesAlone(Step(s, mvs[0]), rest, t);
    }
  }

  /** A move that a thread inside a call can always make, with a node that the pool may issue now. */
  lemma NextMove(s: State, t: Tid) returns (mv: Move)
    requires Inv(s) && t in s.thr && !s.thr[t].Idle?
    ensures mv.t == t && mv.act.Go? && Can(s, mv) && Spares(s, mv)
  {
    hide Global, EnqueueOk, DequeueOk;
    var snaps := set o | o in s.thr && (s.thr[o].ENext? || s.thr[o].ELink?) :: s.thr[o].tp;
    var n := Unissued({NULL} + s.m.live + snaps);
    mv := Move(t, Go(n, s.m.ttag));
    var k := Tally(s.thr);
    assert Global(s.m, k) && Ok(s.m, k.looping, t, s.thr[t]);
    PointersHold(s.m, k, t, s.thr[t]);
    forall o | o in s.thr ensures !Snapped(s.thr[o], n) {
      if s.thr[o].ENext? || s.thr[o].ELink? { assert s.thr[o].tp in snaps; }
    }
  }

  lemma PointersHold(m: Shared, k: Counts, t: Tid, pc: PC)
    requires Global(m, k) && Ok(m, k.looping, t, pc)
    ensures Mapped(m, pc)
  {
    hide Linked, Fifo, Beyond, Owned, Booked;
    assert m.data.Keys == m.next.Keys;
  }

  /** A run of one thread alone that spares snapped nodes and takes the thread back to its caller. */
  ghost predicate Returns(s: State, mvs: seq<Move>, t: Tid) {
    && Legal(s, mvs) && SparesAll(s, mvs) && Alone(mvs, t)
    && var r := Play(s, mvs);
       t in r.thr && r.thr[t].Idle?
  }

  lemma ReturnsLater(s: State, mv: Move, rest: seq<Move>)
    requires Can(s, mv) && Spares(s, mv) && mv.act.Go? && Returns(Step(s, mv), rest, mv.t)
    ensures Returns(s, [mv] + rest, mv.t)
  {
    hide Exec, Enabled;
    var mvs := [mv] + rest;
    assert mvs[1..] == rest;
    assert forall i :: 0 < i < |mvs| ==> mvs[i] == rest[i - 1];
  }

  lemma StaysIdle(s: State, t: Tid)
    requires t in s.thr
    ensures s.thr[t].Idle? ==> Returns(s, [], t)
  {
  }

  /** And the call does end: the thread alone gets back to its caller within ALONE steps. */
  lemma {:induction false} Completes(s: State, t: Tid) returns (mvs: seq<Move>)
    requires Inv(s) && t in s.thr
    ensures Returns(s, mvs, t) && |mvs| <= Left(s.m, s.thr[t]) <= ALONE
    decreases Left(s.m, s.thr[t])
  {
    hide Global, Ok, Exec, Left, Enabled, Returns;
    LeftIsBounded(s.m, s.thr[t]);
    mvs := [];
    StaysIdle(s, t);
    if !s.thr[t].Idle? {
      var mv := NextMove(s, t);
      StepCounts(s, mv);
      KeepsInv(s, mv);
      hide Inv, Spares;
      var rest := Completes(Step(s, mv), t);
      ReturnsLater(s, mv, rest);
      mvs := [mv] + rest;
    }
  }
}
