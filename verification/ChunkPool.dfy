/** CMemoryPoolTLS: each thread allocates from its own chunk of 200 blocks, any thread frees, and a chunk goes back to
    the pool of chunks when its last block is freed. */
module ChunkPool {
  import opened Census
  import Allocator

  type Chunk = nat
  const NONE: Chunk := 0
  const BLOCKS := 200

  datatype Block = Block(c: Chunk, i: nat)

  /** A chunk object: the index its `_pTop` points at (200 is the past-the-end pointer) and its two counters.
      History: `out` are the blocks issued and not yet counted as freed, `freed` those counted. */
  datatype Cell = Cell(top: nat, alloc: int, free: int, out: set<nat>, freed: set<nat>)

  /** The life of a chunk between two visits to the pool of chunks. */
  datatype Phase = Opening(t: Tid) | Filling(t: Tid) | Draining | Closing(t: Tid)

  /** `issued` are the chunks taken from the pool of chunks, `tls` the slots (NONE is null); `phase` and `held`,
      the blocks in the callers' hands, are history. */
  datatype Shared = Shared(
    cells: map<Chunk, Cell>, issued: set<Chunk>, tls: map<Tid, Chunk>,
    phase: map<Chunk, Phase>, held: map<Block, Tid>)

  datatype PC =
    | Idle
    | AGet
    | ANew
    | AInitTop(c: Chunk)
    | AInitAlloc(c: Chunk)
    | AInitFree(c: Chunk)
    | ASet(c: Chunk)
    | ATake(c: Chunk)
    | ATop(c: Chunk)
    | ANext(c: Chunk, i: nat)
    | ACheck(c: Chunk, i: nat)
    | AClear(c: Chunk, i: nat)
    | FCount(b: Block)
    | FPool(c: Chunk)

  datatype State = State(m: Shared, thr: map<Tid, PC>)

  datatype Act = Alloc | Free(b: Block) | Give(b: Block, to: Tid) | Go(c: Chunk)
  datatype Move = Move(t: Tid, act: Act)

  /** Callers free or hand over only blocks they hold; the pool of chunks issues any chunk not issued already. */
  ghost predicate Enabled(m: Shared, t: Tid, pc: PC, a: Act) {
    && t in m.tls
    && (match pc
        case Idle => a.Alloc? || ((a.Free? || a.Give?) && a.b in m.held && m.held[a.b] == t)
        case ANew => a.Go? && a.c != NONE && a.c !in m.issued
        case _ => a.Go?)
    && Mapped(m, pc)
  }

  /** The chunk the next step touches exists, and a `pNext` that is followed belongs to a real block. */
  ghost predicate Mapped(m: Shared, pc: PC) {
    match pc
    case AInitTop(c) => c in m.cells
    case AInitAlloc(c) => c in m.cells
    case AInitFree(c) => c in m.cells
    case ATake(c) => c in m.cells
    case ATop(c) => c in m.cells
    case ANext(c, i) => c in m.cells && m.cells[c].top < BLOCKS
    case ACheck(c, _) => c in m.cells
    case FCount(b) => b.c in m.cells
    case _ => true
  }

  ghost function Put(m: Shared, c: Chunk, x: Cell): Shared { m.(cells := m.cells[c := x]) }

  ghost function Exec(m: Shared, t: Tid, pc: PC, a: Act): (Shared, PC)
    requires Enabled(m, t, pc, a)
  {
    match pc
    case Idle =>
      if a.Alloc? then (m, AGet)
      else if a.Free? then (m, FCount(a.b))
      else (m.(held := m.held[a.b := a.to]), Idle)
    case AGet => (m, if m.tls[t] == NONE then ANew else ATake(m.tls[t]))
    case ANew =>
      // A recycled chunk keeps its stale fields; a new one is filled by its constructor.
      var cells := if a.c in m.cells then m.cells else m.cells[a.c := Cell(0, BLOCKS, BLOCKS, {}, {})];
      (m.(cells := cells, issued := m.issued + {a.c}, phase := m.phase[a.c := Opening(t)]), AInitTop(a.c))
    case AInitTop(c) => (Put(m, c, m.cells[c].(top := 0)), AInitAlloc(c))
    case AInitAlloc(c) => (Put(m, c, m.cells[c].(alloc := BLOCKS)), AInitFree(c))
    case AInitFree(c) =>
      (Put(m, c, m.cells[c].(free := BLOCKS, out := {}, freed := {})).(phase := m.phase[c := Filling(t)]), ASet(c))
    case ASet(c) => (m.(tls := m.tls[t := c]), ATake(c))
    case ATake(c) => (Put(m, c, m.cells[c].(alloc := m.cells[c].alloc - 1)), ATop(c))
    case ATop(c) => (m, ANext(c, m.cells[c].top))
    case ANext(c, i) =>
      (Put(m, c, m.cells[c].(top := m.cells[c].top + 1, out := m.cells[c].out + {i})), ACheck(c, i))
    case ACheck(c, i) =>
      if m.cells[c].alloc == 0 then (m, AClear(c, i)) else (m.(held := m.held[Block(c, i) := t]), Idle)
    case AClear(c, i) =>
      (m.(tls := m.tls[t := NONE], phase := m.phase[c := Draining], held := m.held[Block(c, i) := t]), Idle)
    case FCount(b) =>
      var x := m.cells[b.c];
      var m' := Put(m, b.c, x.(free := x.free - 1, out := x.out - {b.i}, freed := x.freed + {b.i}))
                .(held := m.held - {b});
      if x.free - 1 == 0 then (m'.(phase := m.phase[b.c := Closing(t)]), FPool(b.c)) else (m', Idle)
    case FPool(c) => (m.(issued := m.issued - {c}, phase := m.phase - {c}), Idle)
  }

  ghost predicate Can(s: State, mv: Move) {
    mv.t in s.thr && Enabled(s.m, mv.t, s.thr[mv.t], mv.act)
  }

  ghost function Step(s: State, mv: Move): State
    requires Can(s, mv)
  {
    var (m, pc) := Exec(s.m, mv.t, s.thr[mv.t], mv.act);
    State(m, s.thr[mv.t := pc])
  }

  ghost predicate Legal(s: State, mvs: seq<Move>)
    decreases |mvs|
  {
    mvs == [] || (Can(s, mvs[0]) && Legal(Step(s, mvs[0]), mvs[1..]))
  }

  ghost function Play(s: State, mvs: seq<Move>): State
    requires Legal(s, mvs)
    decreases |mvs|
  {
    if mvs == [] then s else Play(Step(s, mvs[0]), mvs[1..])
  }

  ghost predicate Init(s: State) {
    && s.m.cells == map[] && s.m.issued == {} && s.m.phase == map[] && s.m.held == map[]
    && s.m.tls.Keys == s.thr.Keys
    && (forall t :: t in s.m.tls ==> s.m.tls[t] == NONE)
    && forall t :: t in s.thr ==> s.thr[t] == Idle
  }

  // ---- The invariant ----

  ghost function Below(n: nat): (r: set<nat>)
    ensures |r| == n && forall i :: i in r <==> 0 <= i < n
  {
    if n == 0 then {} else Below(n - 1) + {n - 1}
  }

  /** The blocks issued since Initialize are 0 up to the top; each is either out or freed, and the counter counts. */
  ghost predicate CellOk(x: Cell) {
    && x.top <= BLOCKS
    && x.out + x.freed == Below(x.top) && x.out !! x.freed
    && x.free == BLOCKS - |x.freed|
  }

  ghost predicate PhaseOk(x: Cell, p: Phase) {
    match p
    case Opening(_) => true
    case Filling(_) => CellOk(x)
    case Draining => CellOk(x) && x.top == BLOCKS && x.out != {}
    case Closing(_) => CellOk(x) && x.top == BLOCKS && x.out == {}
  }

  ghost predicate ChunksOk(m: Shared) {
    && NONE !in m.issued && m.phase.Keys == m.issued && m.issued <= m.cells.Keys
    && forall c :: c in m.phase ==> PhaseOk(m.cells[c], m.phase[c])
  }

  /** A slot refers only to a chunk that its own thread is filling. */
  ghost predicate SlotsOk(m: Shared) {
    forall t :: t in m.tls && m.tls[t] != NONE ==> m.tls[t] in m.phase && m.phase[m.tls[t]] == Filling(t)
  }

  ghost predicate BlocksOk(m: Shared) {
    forall b :: b in m.held ==>
      && b.c in m.phase && (m.phase[b.c].Filling? || m.phase[b.c].Draining?)
      && b.c in m.cells && b.i in m.cells[b.c].out
  }

  /** A chunk being filled that is used up still has its last block in the hands of the thread that fills it. */
  ghost predicate LastOk(m: Shared) {
    forall c :: c in m.phase && m.phase[c].Filling? && c in m.cells && m.cells[c].top == BLOCKS ==>
      BLOCKS - 1 in m.cells[c].out && Block(c, BLOCKS - 1) !in m.held
  }

  ghost predicate Global(m: Shared) {
    ChunksOk(m) && SlotsOk(m) && BlocksOk(m) && LastOk(m)
  }

  ghost predicate Owns(m: Shared, c: Chunk, p: Phase) {
    c in m.phase && m.phase[c] == p && c in m.cells
  }

  /** The slot is null or holds a chunk with a block to give. */
  ghost predicate Rested(m: Shared, t: Tid) {
    && t in m.tls
    && (m.tls[t] != NONE ==>
          var c := m.tls[t];
          Owns(m, c, Filling(t)) && m.cells[c].top < BLOCKS && m.cells[c].alloc == BLOCKS - m.cells[c].top)
  }

  /** The thread is inside Alloc with its chunk `c`; `taken` blocks are counted but not yet passed over. */
  ghost predicate Filled(m: Shared, t: Tid, c: Chunk, taken: nat) {
    && Owns(m, c, Filling(t)) && t in m.tls && m.tls[t] == c
    && m.cells[c].alloc == BLOCKS - m.cells[c].top - taken
  }

  ghost predicate Passing(m: Shared, c: Chunk, i: nat) {
    c in m.cells && m.cells[c].top == i + 1 && i in m.cells[c].out && Block(c, i) !in m.held
  }

  ghost predicate Ok(m: Shared, t: Tid, pc: PC) {
    match pc
    case ANew => t in m.tls && m.tls[t] == NONE
    case AInitTop(c) => t in m.tls && m.tls[t] == NONE && Owns(m, c, Opening(t))
    case AInitAlloc(c) => t in m.tls && m.tls[t] == NONE && Owns(m, c, Opening(t)) && m.cells[c].top == 0
    case AInitFree(c) =>
      t in m.tls && m.tls[t] == NONE && Owns(m, c, Opening(t)) && m.cells[c].top == 0 && m.cells[c].alloc == BLOCKS
    case ASet(c) =>
      t in m.tls && m.tls[t] == NONE && Owns(m, c, Filling(t)) && m.cells[c].top == 0 && m.cells[c].alloc == BLOCKS
    case ATake(c) => Filled(m, t, c, 0) && m.cells[c].top < BLOCKS
    case ATop(c) => Filled(m, t, c, 1) && m.cells[c].top < BLOCKS
    case ANext(c, i) => Filled(m, t, c, 1) && m.cells[c].top == i < BLOCKS
    case ACheck(c, i) => Filled(m, t, c, 0) && Passing(m, c, i)
    case AClear(c, i) => Filled(m, t, c, 0) && Passing(m, c, i) && m.cells[c].top == BLOCKS
    case FCount(b) => Rested(m, t) && b in m.held && m.held[b] == t
    case FPool(c) => Rested(m, t) && Owns(m, c, Closing(t))
    case _ => Rested(m, t)
  }

  ghost predicate Inv(s: State) {
    && Global(s.m)
    && s.m.tls.Keys == s.thr.Keys
    && forall t :: t in s.thr ==> Ok(s.m, t, s.thr[t])
  }

  // ---- Each step keeps it ----

  /** The cell after one more block is counted as freed, and after one more is passed over. */
  function Freed(x: Cell, i: nat): Cell { x.(free := x.free - 1, out := x.out - {i}, freed := x.freed + {i}) }

  function Passed(x: Cell): Cell { x.(top := x.top + 1, out := x.out + {x.top}) }

  lemma CountOut(x: Cell, i: nat)
    requires CellOk(x) && i in x.out
    ensures CellOk(Freed(x, i))
    ensures x.free == 1 <==> x.top == BLOCKS && x.out == {i}
  {
    var y := Freed(x, i);
    assert y.out + y.freed == x.out + x.freed;
    assert |y.out + y.freed| == |y.out| + |y.freed|;
    assert |y.out| == 0 <==> y.out == {};
    assert y.out == {} <==> x.out == {i};
  }

  lemma OneMore(out: set<nat>, freed: set<nat>, n: nat)
    requires out + freed == Below(n) && out !! freed
    ensures n !in out && (out + {n}) + freed == Below(n + 1) && (out + {n}) !! freed
  {
    assert n !in out + freed;
    assert (out + {n}) + freed == (out + freed) + {n};
  }

  lemma PassTop(x: Cell)
    requires CellOk(x) && x.top < BLOCKS
    ensures CellOk(Passed(x)) && x.top !in x.out
  {
    OneMore(x.out, x.freed, x.top);
  }

  predicate IsOpening(pc: PC) { pc.ANew? || pc.AInitTop? || pc.AInitAlloc? || pc.AInitFree? || pc.ASet? }
  predicate IsTaking(pc: PC) { pc.AGet? || pc.ATake? || pc.ATop? || pc.ANext? }
  predicate IsReturning(pc: PC) { pc.Idle? || pc.ACheck? || pc.AClear? }
  predicate IsFreeing(pc: PC) { pc.FCount? || pc.FPool? }

  lemma OpeningKeeps(m: Shared, t: Tid, pc: PC, a: Act)
    requires Global(m) && Ok(m, t, pc) && Enabled(m, t, pc, a) && IsOpening(pc)
    ensures Global(Exec(m, t, pc, a).0)
  {
    hide ChunksOk, BlocksOk, SlotsOk, LastOk;
    var m' := Exec(m, t, pc, a).0;
    OpeningChunks(m, t, pc, a);
    OpeningSlots(m, t, pc, a);
    var c := if pc.ANew? then a.c else if pc.ASet? then NONE else pc.c;
    if pc.ANew? { NotIssued(m, a.c); }
    OpeningBlocks(m, m', c);
    OpeningLast(m, m', c);
  }

  lemma NotIssued(m: Shared, c: Chunk)
    requires ChunksOk(m) && c !in m.issued
    ensures c !in m.phase
  {
  }

  lemma OpeningSlots(m: Shared, t: Tid, pc: PC, a: Act)
    requires Global(m) && Ok(m, t, pc) && Enabled(m, t, pc, a) && IsOpening(pc)
    ensures SlotsOk(Exec(m, t, pc, a).0)
  {
    hide PhaseOk, BlocksOk, LastOk;
  }

  lemma OpeningLast(m: Shared, m': Shared, c: Chunk)
    requires LastOk(m) && m'.held == m.held
    requires forall d :: d in m'.phase && d != c ==> d in m.phase && m'.phase[d] == m.phase[d]
    requires forall d :: d in m'.cells && d != c ==> d in m.cells && m'.cells[d] == m.cells[d]
    requires c in m'.phase && c in m'.cells && m'.phase[c].Filling? ==>
               || m'.cells[c].top < BLOCKS
               || (c in m.phase && c in m.cells && m.phase[c] == m'.phase[c] && m.cells[c] == m'.cells[c])
    ensures LastOk(m')
  {
  }

  lemma OpeningChunks(m: Shared, t: Tid, pc: PC, a: Act)
    requires ChunksOk(m) && Ok(m, t, pc) && Enabled(m, t, pc, a) && IsOpening(pc)
    ensures ChunksOk(Exec(m, t, pc, a).0)
  {
    hide CellOk;
    if pc.AInitFree? { NewCell(m.cells[pc.c]); }
  }

  /** No block of a chunk being opened is in anyone's hands. */
  lemma OpeningBlocks(m: Shared, m': Shared, c: Chunk)
    requires BlocksOk(m) && (c in m.phase ==> m.phase[c].Opening? || (m'.phase == m.phase && m'.cells == m.cells))
    requires m'.held == m.held
    requires forall d :: d in m.phase && d != c ==> d in m'.phase && m'.phase[d] == m.phase[d]
    requires forall d :: d in m.cells && d != c ==> d in m'.cells && m'.cells[d] == m.cells[d]
    ensures BlocksOk(m')
  {
    forall b | b in m.held && b.c == c ensures m'.phase == m.phase && m'.cells == m.cells {}
  }

  lemma NewCell(x: Cell)
    requires x.top == 0
    ensures CellOk(x.(free := BLOCKS, out := {}, freed := {}))
  {
  }

  lemma TakingKeeps(m: Shared, t: Tid, pc: PC, a: Act)
    requires Global(m) && Ok(m, t, pc) && Enabled(m, t, pc, a) && IsTaking(pc)
    ensures Global(Exec(m, t, pc, a).0)
  {
    hide Global;
    if pc.ANext? {
      PassKeeps(m, t, pc.c);
    } else if pc.ATake? {
      TakeKeeps(m, pc.c);
    }
  }

  /** Counting a block as taken touches only the counter of its chunk. */
  lemma TakeKeeps(m: Shared, c: Chunk)
    requires Global(m) && c in m.cells
    ensures Global(Put(m, c, m.cells[c].(alloc := m.cells[c].alloc - 1)))
  {
    var m' := Put(m, c, m.cells[c].(alloc := m.cells[c].alloc - 1));
    SameOut(m, m');
    TakeChunks(m, c);
    TakeLast(m, c);
    assert SlotsOk(m');
    hide ChunksOk, BlocksOk, SlotsOk, LastOk;
  }

  lemma TakeLast(m: Shared, c: Chunk)
    requires LastOk(m) && c in m.cells
    ensures LastOk(Put(m, c, m.cells[c].(alloc := m.cells[c].alloc - 1)))
  {
  }

  lemma TakeChunks(m: Shared, c: Chunk)
    requires ChunksOk(m) && c in m.cells
    ensures ChunksOk(Put(m, c, m.cells[c].(alloc := m.cells[c].alloc - 1)))
  {
    assert m.cells[c := m.cells[c].(alloc := m.cells[c].alloc - 1)].Keys == m.cells.Keys;
  }

  lemma SameOut(m: Shared, m': Shared)
    requires m'.held == m.held && m'.phase == m.phase && m.cells.Keys == m'.cells.Keys
    requires forall c :: c in m.cells ==> m'.cells[c].out == m.cells[c].out
    ensures BlocksOk(m) ==> BlocksOk(m')
  {
  }

  lemma PassKeeps(m: Shared, t: Tid, c: Chunk)
    requires Global(m) && Filled(m, t, c, 1) && m.cells[c].top < BLOCKS
    ensures Global(Put(m, c, Passed(m.cells[c]))) && Block(c, m.cells[c].top) !in m.held
  {
    hide CellOk, PhaseOk;
    PassChunks(m, c);
    PassBlocks(m, c);
    hide ChunksOk, BlocksOk;
  }

  lemma PassChunks(m: Shared, c: Chunk)
    requires ChunksOk(m) && c in m.phase && m.phase[c].Filling? && m.cells[c].top < BLOCKS
    ensures ChunksOk(Put(m, c, Passed(m.cells[c]))) && m.cells[c].top !in m.cells[c].out
  {
    assert PhaseOk(m.cells[c], m.phase[c]);
    PassTop(m.cells[c]);
    hide CellOk;
    assert m.cells[c := Passed(m.cells[c])].Keys == m.cells.Keys;
  }

  lemma PassBlocks(m: Shared, c: Chunk)
    requires BlocksOk(m) && c in m.cells && m.cells[c].top !in m.cells[c].out
    ensures BlocksOk(Put(m, c, Passed(m.cells[c]))) && Block(c, m.cells[c].top) !in m.held
  {
  }

  lemma ReturningKeeps(m: Shared, t: Tid, pc: PC, a: Act)
    requires Global(m) && Ok(m, t, pc) && Enabled(m, t, pc, a) && IsReturning(pc)
    ensures Global(Exec(m, t, pc, a).0)
  {
    hide CellOk;
  }

  /** The last free of a chunk finds it used up and no longer filled by anyone. */
  lemma LastFree(m: Shared, b: Block)
    requires Global(m) && b in m.held
    ensures LastCount(m, b)
  {
    var x := m.cells[b.c];
    assert PhaseOk(x, m.phase[b.c]);
    CountOut(x, b.i);
    if m.phase[b.c].Filling? && x.top == BLOCKS {
      assert BLOCKS - 1 in x.out && b.i != BLOCKS - 1;
    }
  }

  lemma FreeingKeeps(m: Shared, t: Tid, pc: PC, a: Act)
    requires Global(m) && Ok(m, t, pc) && Enabled(m, t, pc, a) && IsFreeing(pc)
    ensures Global(Exec(m, t, pc, a).0)
  {
    hide CellOk;
    if pc.FCount? {
      FreeKeeps(m, t, pc.b);
      hide Global;
      assert Exec(m, t, pc, a).0 == AfterFree(m, t, pc.b);
    }
  }

  ghost function AfterFree(m: Shared, t: Tid, b: Block): Shared
    requires b.c in m.cells
  {
    var x := m.cells[b.c];
    var m' := Put(m, b.c, Freed(x, b.i)).(held := m.held - {b});
    if x.free == 1 then m'.(phase := m.phase[b.c := Closing(t)]) else m'
  }

  lemma FreeKeeps(m: Shared, t: Tid, b: Block)
    requires Global(m) && b in m.held
    ensures b.c in m.cells && Global(AfterFree(m, t, b))
  {
    hide CellOk;
    LastFree(m, b);
    FreeKeepsChunks(m, t, b);
    FreeKeepsBlocks(m, t, b);
    FreeKeepsLast(m, t, b);
    hide ChunksOk, BlocksOk, LastOk;
  }

  /** What LastFree establishes. */
  ghost predicate LastCount(m: Shared, b: Block) {
    && b.c in m.cells && b.c in m.phase && b.i in m.cells[b.c].out
    && CellOk(Freed(m.cells[b.c], b.i))
    && (m.cells[b.c].free == 1 <==> m.phase[b.c].Draining? && m.cells[b.c].out == {b.i})
    && (m.phase[b.c].Filling? || m.phase[b.c].Draining?)
  }

  lemma FreeKeepsChunks(m: Shared, t: Tid, b: Block)
    requires ChunksOk(m) && LastCount(m, b)
    ensures ChunksOk(AfterFree(m, t, b))
  {
    hide CellOk;
    var x, y := m.cells[b.c], Freed(m.cells[b.c], b.i);
    assert PhaseOk(x, m.phase[b.c]);
    if x.free == 1 {
      assert y.out == {};
      assert PhaseOk(y, Closing(t));
    } else {
      assert m.phase[b.c].Draining? ==> y.out != {} by {
        if m.phase[b.c].Draining? { Another(x.out, b.i); }
      }
      assert PhaseOk(y, m.phase[b.c]);
    }
    hide PhaseOk;
    assert m.cells[b.c := y].Keys == m.cells.Keys;
  }

  lemma Another(s: set<nat>, i: nat)
    requires i in s && s != {i}
    ensures s - {i} != {}
  {
    assert s == (s - {i}) + {i};
  }

  lemma FreeKeepsBlocks(m: Shared, t: Tid, b: Block)
    requires BlocksOk(m) && LastCount(m, b) && b in m.held
    ensures BlocksOk(AfterFree(m, t, b))
  {
    hide CellOk;
    var m' := AfterFree(m, t, b);
    forall d | d in m'.held
      ensures d.c in m'.phase && (m'.phase[d.c].Filling? || m'.phase[d.c].Draining?) && d.i in m'.cells[d.c].out
    {
      assert d in m.held && d.i in m.cells[d.c].out && d != b;
    }
  }

  lemma FreeKeepsLast(m: Shared, t: Tid, b: Block)
    requires LastOk(m) && b in m.held && b.c in m.cells && b.c in m.phase
    ensures LastOk(AfterFree(m, t, b))
  {
    var m' := AfterFree(m, t, b);
    forall c | c in m'.phase && m'.phase[c].Filling? && c in m'.cells && m'.cells[c].top == BLOCKS
      ensures BLOCKS - 1 in m'.cells[c].out && Block(c, BLOCKS - 1) !in m'.held
    {
      assert BLOCKS - 1 in m.cells[c].out && Block(c, BLOCKS - 1) !in m.held;
    }
  }

  lemma OpeningSelf(m: Shared, t: Tid, pc: PC, a: Act)
    requires Global(m) && Ok(m, t, pc) && Enabled(m, t, pc, a) && IsOpening(pc)
    ensures var (m', pc') := Exec(m, t, pc, a); Ok(m', t, pc')
  {
    hide PhaseOk, BlocksOk, LastOk;
  }

  lemma TakingSelf(m: Shared, t: Tid, pc: PC, a: Act)
    requires Global(m) && Ok(m, t, pc) && Enabled(m, t, pc, a) && IsTaking(pc)
    ensures var (m', pc') := Exec(m, t, pc, a); Ok(m', t, pc')
  {
    hide Global;
    if pc.ANext? { PassKeeps(m, t, pc.c); }
  }

  lemma ReturningSelf(m: Shared, t: Tid, pc: PC, a: Act)
    requires Global(m) && Ok(m, t, pc) && Enabled(m, t, pc, a) && IsReturning(pc)
    ensures var (m', pc') := Exec(m, t, pc, a); Ok(m', t, pc')
  {
    hide Global;
    if pc.ACheck? {
      TopInRange(m, pc.c);
    } else if pc.AClear? {
      assert Exec(m, t, pc, a).0.tls[t] == NONE;
      hide Passing, Owns;
    }
  }

  lemma TopInRange(m: Shared, c: Chunk)
    requires Global(m) && c in m.phase && m.phase[c].Filling?
    ensures c in m.cells && m.cells[c].top <= BLOCKS
  {
    assert PhaseOk(m.cells[c], m.phase[c]);
  }

  lemma FreeingSelf(m: Shared, t: Tid, pc: PC, a: Act)
    requires Global(m) && Ok(m, t, pc) && Enabled(m, t, pc, a) && IsFreeing(pc)
    ensures var (m', pc') := Exec(m, t, pc, a); Ok(m', t, pc')
  {
    hide Global, CellOk;
    if pc.FCount? { LastFree(m, pc.b); }
  }

  /** What a step of `t` leaves alone for `o`: its slot, the chunk it opens, fills or closes, and the blocks it
      holds. */
  ghost predicate Undisturbed(m: Shared, m': Shared, o: Tid) {
    && (o in m.tls ==> o in m'.tls && m'.tls[o] == m.tls[o])
    && ChunkKept(m, m', o)
    && PassingKept(m, m', o)
    && (forall b :: b in m.held && m.held[b] == o ==> b in m'.held && m'.held[b] == o)
  }

  ghost predicate ChunkKept(m: Shared, m': Shared, o: Tid) {
    forall c :: c in m.phase && c in m.cells && m.phase[c] in {Opening(o), Filling(o), Closing(o)} ==>
      && c in m'.phase && m'.phase[c] == m.phase[c]
      && c in m'.cells && m'.cells[c].top == m.cells[c].top && m'.cells[c].alloc == m.cells[c].alloc
  }

  ghost predicate PassingKept(m: Shared, m': Shared, o: Tid) {
    forall c, i :: c in m.phase && c in m.cells && m.phase[c] == Filling(o) && i in m.cells[c].out
                   && Block(c, i) !in m.held ==>
      c in m'.cells && i in m'.cells[c].out && Block(c, i) !in m'.held
  }

  lemma UndisturbedOk(m: Shared, m': Shared, o: Tid, other: PC)
    requires Undisturbed(m, m', o) && Ok(m, o, other)
    ensures Ok(m', o, other)
  {
  }

  lemma OpeningOthers(m: Shared, t: Tid, pc: PC, a: Act, o: Tid)
    requires Global(m) && Ok(m, t, pc) && Enabled(m, t, pc, a) && IsOpening(pc) && o != t
    ensures Undisturbed(m, Exec(m, t, pc, a).0, o)
  {
    hide PhaseOk, SlotsOk, LastOk;
  }

  lemma TakingOthers(m: Shared, t: Tid, pc: PC, a: Act, o: Tid)
    requires Global(m) && Ok(m, t, pc) && Enabled(m, t, pc, a) && IsTaking(pc) && o != t
    ensures Undisturbed(m, Exec(m, t, pc, a).0, o)
  {
    hide PhaseOk, SlotsOk;
  }

  lemma ReturningOthers(m: Shared, t: Tid, pc: PC, a: Act, o: Tid)
    requires Global(m) && Ok(m, t, pc) && Enabled(m, t, pc, a) && IsReturning(pc) && o != t
    ensures Undisturbed(m, Exec(m, t, pc, a).0, o)
  {
    hide PhaseOk, SlotsOk;
  }

  lemma FreeOthers(m: Shared, t: Tid, b: Block, o: Tid)
    requires Global(m) && b in m.held && m.held[b] == t && o != t && b.c in m.cells
    ensures Undisturbed(m, AfterFree(m, t, b), o)
  {
    hide Global, CellOk;
    LastFree(m, b);
    FreePassing(m, t, b, o);
    FreeChunk(m, t, b, o);
    hide PassingKept, ChunkKept;
  }

  lemma FreeChunk(m: Shared, t: Tid, b: Block, o: Tid)
    requires LastCount(m, b)
    ensures ChunkKept(m, AfterFree(m, t, b), o)
  {
    hide CellOk;
    var m' := AfterFree(m, t, b);
    assert m.cells[b.c].free == 1 ==> m.phase[b.c].Draining?;
  }

  lemma FreePassing(m: Shared, t: Tid, b: Block, o: Tid)
    requires b in m.held && b.c in m.cells
    ensures PassingKept(m, AfterFree(m, t, b), o)
  {
    var m' := AfterFree(m, t, b);
    forall c, i | c in m.cells && i in m.cells[c].out && Block(c, i) !in m.held
      ensures c in m'.cells && i in m'.cells[c].out && Block(c, i) !in m'.held
    {
      assert Block(c, i) != b;
    }
  }

  lemma FreeingOthers(m: Shared, t: Tid, pc: PC, a: Act, o: Tid)
    requires Global(m) && Ok(m, t, pc) && Enabled(m, t, pc, a) && IsFreeing(pc) && o != t
    ensures Undisturbed(m, Exec(m, t, pc, a).0, o)
  {
    hide Global, CellOk;
    if pc.FCount? {
      FreeOthers(m, t, pc.b, o);
      assert Exec(m, t, pc, a).0 == AfterFree(m, t, pc.b);
    }
  }

  lemma KeepsGlobal(m: Shared, t: Tid, pc: PC, a: Act)
    requires Global(m) && Ok(m, t, pc) && Enabled(m, t, pc, a)
    ensures var (m', pc') := Exec(m, t, pc, a);
            Global(m') && Ok(m', t, pc') && m'.tls.Keys == m.tls.Keys
  {
    SlotKeys(m, t, pc, a);
    hide Global, Ok, Exec, Enabled;
    if IsOpening(pc) {
      OpeningKeeps(m, t, pc, a);
      OpeningSelf(m, t, pc, a);
    } else if IsTaking(pc) {
      TakingKeeps(m, t, pc, a);
      TakingSelf(m, t, pc, a);
    } else if IsReturning(pc) {
      ReturningKeeps(m, t, pc, a);
      ReturningSelf(m, t, pc, a);
    } else {
      FreeingKeeps(m, t, pc, a);
      FreeingSelf(m, t, pc, a);
    }
  }

  lemma SlotKeys(m: Shared, t: Tid, pc: PC, a: Act)
    requires Enabled(m, t, pc, a)
    ensures Exec(m, t, pc, a).0.tls.Keys == m.tls.Keys
  {
  }

  lemma KeepsOthers(m: Shared, t: Tid, pc: PC, a: Act, o: Tid, other: PC)
    requires Global(m) && Ok(m, t, pc) && Enabled(m, t, pc, a)
    requires o != t && Ok(m, o, other)
    ensures Ok(Exec(m, t, pc, a).0, o, other)
  {
    hide Global, Ok, Exec, Enabled, Undisturbed;
    if IsOpening(pc) {
      OpeningOthers(m, t, pc, a, o);
    } else if IsTaking(pc) {
      TakingOthers(m, t, pc, a, o);
    } else if IsReturning(pc) {
      ReturningOthers(m, t, pc, a, o);
    } else {
      FreeingOthers(m, t, pc, a, o);
    }
    UndisturbedOk(m, Exec(m, t, pc, a).0, o, other);
  }

  lemma KeepsInv(s: State, mv: Move)
    requires Inv(s) && Can(s, mv)
    ensures Inv(Step(s, mv))
  {
    hide Global, Ok, Enabled, Exec;
    var t, pc := mv.t, s.thr[mv.t];
    var (m', pc') := Exec(s.m, t, pc, mv.act);
    KeepsGlobal(s.m, t, pc, mv.act);
    forall o | o in s.thr && o != t ensures Ok(m', o, s.thr[o]) {
      KeepsOthers(s.m, t, pc, mv.act, o, s.thr[o]);
    }
    assert s.thr[t := pc'].Keys == s.thr.Keys;
  }

  lemma {:induction false} Reachable(s: State, mvs: seq<Move>)
    requires Inv(s) && Legal(s, mvs)
    ensures Inv(Play(s, mvs))
    decreases |mvs|
  {
    if mvs != [] {
      KeepsInv(s, mvs[0]);
      Reachable(Step(s, mvs[0]), mvs[1..]);
    }
  }

  lemma InitInv(s: State)
    requires Init(s)
    ensures Inv(s)
  {
  }

  /** Every run from an empty allocator keeps the invariant. */
  lemma RunKeeps(s: State, mvs: seq<Move>)
    requires Init(s) && Legal(s, mvs)
    ensures Inv(Play(s, mvs))
  {
    InitInv(s);
    Reachable(s, mvs);
  }

  // ---- What holds in every state of every run ----

  /** The block that this move hands to its caller, if it ends an Alloc. */
  ghost function Effect(m: Shared, t: Tid, pc: PC, a: Act): Allocator.Event<Block>
    requires Enabled(m, t, pc, a)
  {
    match pc
    case ACheck(c, i) => if m.cells[c].alloc == 0 then Allocator.Stutter else Allocator.Issue(Block(c, i))
    case AClear(c, i) => Allocator.Issue(Block(c, i))
    case FCount(b) => Allocator.Retire(b)
    case _ => Allocator.Stutter
  }

  lemma EffectFollows(m: Shared, t: Tid, pc: PC, a: Act)
    requires Global(m) && Ok(m, t, pc) && Enabled(m, t, pc, a)
    ensures Allocator.Follows(m.held.Keys, Exec(m, t, pc, a).0.held.Keys, Effect(m, t, pc, a))
  {
    hide Global;
    var m' := Exec(m, t, pc, a).0;
    if pc.Idle? && a.Give? {
      assert m'.held.Keys == m.held.Keys;
    } else if pc.ACheck? && m.cells[pc.c].alloc != 0 {
      assert m'.held.Keys == m.held.Keys + {Block(pc.c, pc.i)};
    } else if pc.AClear? {
      assert m'.held.Keys == m.held.Keys + {Block(pc.c, pc.i)};
    } else if pc.FCount? {
      assert m'.held.Keys == m.held.Keys - {pc.b};
    }
  }

  ghost function Effects(s: State, mvs: seq<Move>): seq<Allocator.Event<Block>>
    requires Legal(s, mvs)
    decreases |mvs|
  {
    if mvs == [] then []
    else [Effect(s.m, mvs[0].t, s.thr[mvs[0].t], mvs[0].act)] + Effects(Step(s, mvs[0]), mvs[1..])
  }

  /** Every run of the two-level allocator is a history of the allocator its clients are proved against. */
  lemma {:induction false} ChunkPoolIsAnAllocator(s: State, mvs: seq<Move>)
    requires Inv(s) && Legal(s, mvs)
    ensures Allocator.History(s.m.held.Keys, Effects(s, mvs), Play(s, mvs).m.held.Keys)
    decreases |mvs|
  {
    if mvs != [] {
      hide Global, Ok, Enabled, Exec, Effect, Allocator.Follows;
      EffectFollows(s.m, mvs[0].t, s.thr[mvs[0].t], mvs[0].act);
      KeepsInv(s, mvs[0]);
      ChunkPoolIsAnAllocator(Step(s, mvs[0]), mvs[1..]);
      var es := Effects(s, mvs);
      assert es[1..] == Effects(Step(s, mvs[0]), mvs[1..]);
      assert Allocator.Follows(s.m.held.Keys, Step(s, mvs[0]).m.held.Keys, es[0]);
    }
  }

  /** No live block is handed out twice: across all threads, a block is issued once more than it is freed while
      someone holds it, and as often as it is freed otherwise. */
  lemma IssuedOnceAtATime(s: State, mvs: seq<Move>, b: Block)
    requires Init(s) && Legal(s, mvs)
    ensures var es := Effects(s, mvs);
            Allocator.Issues(es, b) - Allocator.Retires(es, b) == Bit(b in Play(s, mvs).m.held)
  {
    RunKeeps(s, mvs);
    InitInv(s);
    hide Global, Ok;
    ChunkPoolIsAnAllocator(s, mvs);
    assert s.m.held.Keys == {};
    Allocator.Balance({}, Effects(s, mvs), Play(s, mvs).m.held.Keys, b);
  }

  /** Between two Initialize calls a chunk issues its blocks in the order 0, 1, .. and each once: when a thread is
      about to pass over the top block, that block is a real one, is neither out nor freed, and becomes the next
      one out; the past-the-end pointer is never followed. */
  lemma EachBlockOncePerRound(s: State, mvs: seq<Move>, t: Tid)
    requires Init(s) && Legal(s, mvs)
    requires var r := Play(s, mvs); t in r.thr && r.thr[t].ANext?
    ensures var r := Play(s, mvs);
            var ANext(c, i) := r.thr[t];
            && c in r.m.cells && i <= 199 && i == r.m.cells[c].top
            && r.m.cells[c].out + r.m.cells[c].freed == Below(i)
            && Can(r, Move(t, Go(NONE)))
            && (var m' := Step(r, Move(t, Go(NONE))).m;
                c in m'.cells && m'.cells[c].top == i + 1 && m'.cells[c].out + m'.cells[c].freed == Below(i + 1))
  {
    RunKeeps(s, mvs);
    var r := Play(s, mvs);
    var ANext(c, i) := r.thr[t];
    assert Ok(r.m, t, r.thr[t]);
    assert PhaseOk(r.m.cells[c], r.m.phase[c]);
    PassTop(r.m.cells[c]);
  }

  /** The slot is cleared after block 199, and after no other: the next Alloc of the thread opens another chunk. */
  lemma LastBlockClearsSlot(s: State, mvs: seq<Move>, t: Tid)
    requires Init(s) && Legal(s, mvs)
    requires var r := Play(s, mvs); t in r.thr && r.thr[t].ACheck?
    ensures var r := Play(s, mvs);
            Can(r, Move(t, Go(NONE))) && (Step(r, Move(t, Go(NONE))).thr[t].AClear? <==> r.thr[t].i == 199)
  {
    RunKeeps(s, mvs);
    var r := Play(s, mvs);
    hide Global;
    assert Ok(r.m, t, r.thr[t]);
  }

  /** A chunk goes back to the pool of chunks only when all of its 200 blocks were issued and freed, while no slot of
      any thread refers to it and no caller holds one of its blocks; and only one thread is giving it back. */
  lemma RecycledOnceWhenEmpty(s: State, mvs: seq<Move>, t: Tid, o: Tid)
    requires Init(s) && Legal(s, mvs)
    requires var r := Play(s, mvs); t in r.thr && r.thr[t].FPool? && o in r.thr
    ensures var r := Play(s, mvs);
            var c := r.thr[t].c;
            && c in r.m.issued && c in r.m.cells && r.m.cells[c].freed == Below(200)
            && o in r.m.tls && r.m.tls[o] != c
            && (forall b :: b in r.m.held ==> b.c != c)
            && (o != t ==> r.thr[o] != FPool(c))
  {
    RunKeeps(s, mvs);
    var r := Play(s, mvs);
    var c := r.thr[t].c;
    assert Ok(r.m, t, r.thr[t]) && Ok(r.m, o, r.thr[o]);
    AllFreed(r.m, c, t);
    hide PhaseOk, LastOk;
  }

  lemma AllFreed(m: Shared, c: Chunk, t: Tid)
    requires ChunksOk(m) && Owns(m, c, Closing(t))
    ensures m.cells[c].freed == Below(BLOCKS)
  {
    assert PhaseOk(m.cells[c], m.phase[c]);
    assert m.cells[c].freed == m.cells[c].out + m.cells[c].freed;
  }

  /** What the move takes from or gives back to the pool of chunks. */
  ghost function ChunkEffect(pc: PC, a: Act): Allocator.Event<Chunk> {
    if pc.ANew? && a.Go? then Allocator.Issue(a.c)
    else if pc.FPool? then Allocator.Retire(pc.c)
    else Allocator.Stutter
  }

  lemma ChunkEffectFollows(m: Shared, t: Tid, pc: PC, a: Act)
    requires ChunksOk(m) && Ok(m, t, pc) && Enabled(m, t, pc, a)
    ensures Allocator.Follows(m.issued, Exec(m, t, pc, a).0.issued, ChunkEffect(pc, a))
  {
    assert pc.FPool? ==> pc.c in m.phase;
  }

  /** The pool of chunks is used lawfully: a chunk is given back only while it is issued, and then it is free again. */
  lemma ChunksObeyThePool(s: State, mvs: seq<Move>, mv: Move)
    requires Init(s) && Legal(s, mvs) && Can(Play(s, mvs), mv)
    ensures var r := Play(s, mvs);
            Allocator.Follows(r.m.issued, Step(r, mv).m.issued, ChunkEffect(r.thr[mv.t], mv.act))
  {
    RunKeeps(s, mvs);
    var r := Play(s, mvs);
    assert Ok(r.m, mv.t, r.thr[mv.t]) && ChunksOk(r.m);
    hide Inv, Ok, ChunksOk, Exec, Enabled, Allocator.Follows, ChunkEffect;
    ChunkEffectFollows(r.m, mv.t, r.thr[mv.t], mv.act);
  }

  /** And it does go back: the free that brings the count to zero is the one that finds every block freed. */
  lemma LastFreeRecycles(s: State, mvs: seq<Move>, t: Tid)
    requires Init(s) && Legal(s, mvs)
    requires var r := Play(s, mvs); t in r.thr && r.thr[t].FCount?
    ensures var r := Play(s, mvs);
            var b := r.thr[t].b;
            && b.c in r.m.cells && Can(r, Move(t, Go(NONE)))
            && (Step(r, Move(t, Go(NONE))).thr[t] == FPool(b.c) <==>
                r.m.cells[b.c].freed + {b.i} == Below(200))
  {
    hide Global;
    RunKeeps(s, mvs);
    var r := Play(s, mvs);
    var b := r.thr[t].b;
    assert Ok(r.m, t, r.thr[t]);
    assert b in r.m.held;
    CountsAll(r.m, b);
  }

  lemma CountsAll(m: Shared, b: Block)
    requires Global(m) && b in m.held
    ensures b.c in m.cells && (m.cells[b.c].free == 1 <==> m.cells[b.c].freed + {b.i} == Below(BLOCKS))
  {
    var x := m.cells[b.c];
    assert PhaseOk(x, m.phase[b.c]);
    CountOut(x, b.i);
    assert b.i in x.out && b.i !in x.freed;
    assert |x.freed + {b.i}| == |x.freed| + 1;
    if x.free == 1 {
      assert x.freed + {b.i} == x.out + x.freed;
    }
  }

  /** No thread touches a chunk that does not exist, and none is stuck inside a call. */
  lemma NeverFaults(s: State, mvs: seq<Move>, t: Tid)
    requires Init(s) && Legal(s, mvs) && t in Play(s, mvs).thr
    ensures var r := Play(s, mvs); Mapped(r.m, r.thr[t])
    ensures var r := Play(s, mvs);
            !r.thr[t].Idle? ==> forall c :: c != NONE && c !in r.m.issued ==> Enabled(r.m, t, r.thr[t], Go(c))
  {
    RunKeeps(s, mvs);
    var r := Play(s, mvs);
    assert Ok(r.m, t, r.thr[t]);
    assert r.thr[t].FCount? ==> r.thr[t].b.c in r.m.cells;
    hide ChunksOk, SlotsOk, LastOk;
  }
}
