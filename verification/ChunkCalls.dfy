/** What the calls of CMemoryPoolTLS do, in terms of what their callers asked for. */
module ChunkCalls {
  import opened Census
  import opened Ledger
  import opened ChunkPool
  import Allocator

  /** The block that the move asks to free on behalf of `p`, and whether it asks for one. */
  function GivenIn(mv: Move, p: Tid): seq<Block> {
    if mv.t == p && mv.act.Free? then [mv.act.b] else []
  }

  function AskedIn(mv: Move, p: Tid): nat { if mv.t == p && mv.act.Alloc? then 1 else 0 }

  function Given(mvs: seq<Move>, p: Tid): seq<Block> {
    if mvs == [] then [] else GivenIn(mvs[0], p) + Given(mvs[1..], p)
  }

  function Asked(mvs: seq<Move>, p: Tid): nat {
    if mvs == [] then 0 else AskedIn(mvs[0], p) + Asked(mvs[1..], p)
  }

  /** The block that the move, made by `p`, counts as freed, and whether it hands one to `p`. */
  ghost function RetiredIn(s: State, mv: Move, p: Tid): seq<Block>
    requires Can(s, mv)
  {
    var e := Effect(s.m, mv.t, s.thr[mv.t], mv.act);
    if mv.t == p && e.Retire? then [e.n] else []
  }

  ghost function IssuedIn(s: State, mv: Move, p: Tid): nat
    requires Can(s, mv)
  {
    var e := Effect(s.m, mv.t, s.thr[mv.t], mv.act);
    var held := Step(s, mv).m.held;
    if mv.t == p && e.Issue? && e.n in held && held[e.n] == p then 1 else 0
  }

  ghost function RetiredBy(s: State, mvs: seq<Move>, p: Tid): seq<Block>
    requires Legal(s, mvs)
    decreases |mvs|
  {
    if mvs == [] then [] else RetiredIn(s, mvs[0], p) + RetiredBy(Step(s, mvs[0]), mvs[1..], p)
  }

  ghost function IssuedBy(s: State, mvs: seq<Move>, p: Tid): nat
    requires Legal(s, mvs)
    decreases |mvs|
  {
    if mvs == [] then 0 else IssuedIn(s, mvs[0], p) + IssuedBy(Step(s, mvs[0]), mvs[1..], p)
  }

  /** The block of a Free that is not counted yet, and whether an Alloc is in progress. */
  function Freeing(pc: PC): seq<Block> { if pc.FCount? then [pc.b] else [] }

  predicate Allocating(pc: PC) { !pc.Idle? && !IsFreeing(pc) }

  lemma RetireLedger(s: State, mv: Move, p: Tid)
    requires Can(s, mv) && p in s.thr
    ensures RetiredIn(s, mv, p) + Freeing(Step(s, mv).thr[p]) == Freeing(s.thr[p]) + GivenIn(mv, p)
  {
  }

  lemma IssueLedger(s: State, mv: Move, p: Tid)
    requires Can(s, mv) && p in s.thr
    ensures IssuedIn(s, mv, p) + Bit(Allocating(Step(s, mv).thr[p])) == Bit(Allocating(s.thr[p])) + AskedIn(mv, p)
  {
  }

  /** The blocks that thread `p` has freed, followed by the block of its Free in progress, are what it asked to free, in
      order; and it was handed as many blocks as it asked for, but for an Alloc in progress. */
  lemma {:induction false} CallsTakeEffect(s: State, mvs: seq<Move>, p: Tid)
    requires Legal(s, mvs) && p in s.thr
    ensures p in Play(s, mvs).thr
    ensures var pc, pc' := s.thr[p], Play(s, mvs).thr[p];
            && RetiredBy(s, mvs, p) + Freeing(pc') == Freeing(pc) + Given(mvs, p)
            && IssuedBy(s, mvs, p) + Bit(Allocating(pc')) == Bit(Allocating(pc)) + Asked(mvs, p)
    decreases |mvs|
  {
    hide Exec, Enabled, Freeing, Allocating, RetiredIn, IssuedIn, GivenIn, AskedIn;
    if mvs != [] {
      var mv, rest, s' := mvs[0], mvs[1..], Step(s, mvs[0]);
      RetireLedger(s, mv, p);
      IssueLedger(s, mv, p);
      CallsTakeEffect(s', rest, p);
      Carry(RetiredIn(s, mv, p), Freeing(s'.thr[p]), Freeing(s.thr[p]), GivenIn(mv, p),
            RetiredBy(s', rest, p), Given(rest, p), Freeing(Play(s', rest).thr[p]));
    }
  }

  // ---- Every call ends ----

  /** How many moves thread `p` makes, and how many of them are calls. */
  function Made(mvs: seq<Move>, p: Tid): nat {
    if mvs == [] then 0 else (if mvs[0].t == p then 1 else 0) + Made(mvs[1..], p)
  }

  function Called(mvs: seq<Move>, p: Tid): nat {
    if mvs == [] then 0 else (if mvs[0].t == p && !mvs[0].act.Go? then 1 else 0) + Called(mvs[1..], p)
  }

  /** The steps left, at most, whatever the other threads do; the pool of chunks counts as one. */
  function Left(pc: PC): nat {
    match pc
    case Idle => 0
    case AGet => 11
    case ANew => 10
    case AInitTop(_) => 9
    case AInitAlloc(_) => 8
    case AInitFree(_) => 7
    case ASet(_) => 6
    case ATake(_) => 5
    case ATop(_) => 4
    case ANext(_, _) => 3
    case ACheck(_, _) => 2
    case AClear(_, _) => 1
    case FCount(_) => 2
    case FPool(_) => 1
  }

  lemma StepLeft(s: State, mv: Move, p: Tid)
    requires Can(s, mv) && p in s.thr
    ensures (if mv.t == p then 1 else 0) + Left(Step(s, mv).thr[p])
            <= Left(s.thr[p]) + (if mv.t == p && !mv.act.Go? then 12 else 0)
  {
  }

  /** Wait freedom: in every interleaving a thread makes at most twelve moves for each call. */
  lemma {:induction false} WaitFree(s: State, mvs: seq<Move>, p: Tid)
    requires Legal(s, mvs) && p in s.thr
    ensures p in Play(s, mvs).thr
    ensures Made(mvs, p) + Left(Play(s, mvs).thr[p]) <= Left(s.thr[p]) + 12 * Called(mvs, p)
    decreases |mvs|
  {
    hide Exec, Enabled, Left;
    if mvs != [] {
      StepLeft(s, mvs[0], p);
      WaitFree(Step(s, mvs[0]), mvs[1..], p);
    }
  }
}
