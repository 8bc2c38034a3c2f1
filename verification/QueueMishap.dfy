/** A run with two producers in which the pool re-issues a node that an Enqueue is about to link to. */
module QueueMishap {
  import opened Census
  import opened LinkedList
  import opened LockFreeQueue
  import opened QueueInvariant
  import opened QueueSafety

  // ---- Playing a run move by move ----

  /** Reached by a run that spares every snapped node. */
  ghost predicate Reaches(s: State, q: State) {
    exists mvs :: Legal(s, mvs) && SparesAll(s, mvs) && Play(s, mvs) == q
  }

  lemma ReachesSelf(s: State)
    ensures Reaches(s, s)
  {
    assert Legal(s, []) && SparesAll(s, []) && Play(s, []) == s;
  }

  lemma Then(s: State, q: State, mv: Move)
    requires Reaches(s, q) && Can(q, mv) && Spares(q, mv)
    ensures Reaches(s, Step(q, mv))
  {
    var q' := Step(q, mv);
    var mvs :| Legal(s, mvs) && SparesAll(s, mvs) && Play(s, mvs) == q;
    OneMove(q, mv, []);
    assert Legal(q', []) && SparesAll(q', []) && Play(q', []) == q';
    RunsJoin(s, mvs, [mv]);
  }

  /** Thread `t` makes one move while the others stay where they are in `thr`. */
  lemma Goes(s: State, m: Shared, thr: map<Tid, PC>, t: Tid, pc: PC, a: Act, m': Shared, pc': PC)
    requires Reaches(s, State(m, thr[t := pc]))
    requires Enabled(m, pc, a) && Exec(m, t, pc, a) == (m', pc')
    requires pc.EAlloc? ==> forall o :: o in thr && o != t ==> !Snapped(thr[o], a.n)
    ensures Reaches(s, State(m', thr[t := pc']))
  {
    hide Reaches, Exec, Enabled;
    var q := State(m, thr[t := pc]);
    Then(s, q, Move(t, a));
    assert q.thr[t := pc'] == thr[t := pc'];
  }

  ghost const GO: Act := Go(NULL, 0)

  // ---- What a call does that is not interrupted ----

  /** Enqueue(v) up to its tail snapshot, on node `n`. */
  ghost function Begun(m: Shared, t: Tid, v: Item, n: Node): Shared {
    m.(next := m.next[n := NULL], data := m.data[n := v], ttag := m.ttag + 1,
       live := m.live + {n}, own := m.own[n := Own(t, Armed)])
  }

  /** The second half of Begins, from a node just issued. */
  lemma Prepares(s: State, m: Shared, thr: map<Tid, PC>, t: Tid, v: Item, n: Node)
    requires Reaches(s, State(m, thr[t := EInit(n, v)]))
    ensures var m' := m.(next := m.next[n := NULL], data := m.data[n := v], ttag := m.ttag + 1,
                         own := m.own[n := Own(t, Armed)]);
            Reaches(s, State(m', thr[t := ENext(n, v, m.ttag + 1, m.tail)]))
  {
    hide Reaches;
    var m1 := m.(next := m.next[n := NULL]);
    var m2 := m1.(data := m.data[n := v]);
    var m3 := m2.(ttag := m.ttag + 1, own := m.own[n := Own(t, Armed)]);
    Goes(s, m, thr, t, EInit(n, v), GO, m1, EData(n, v));
    Goes(s, m1, thr, t, EData(n, v), GO, m2, ETag(n, v));
    Goes(s, m2, thr, t, ETag(n, v), GO, m3, ETail(n, v, m.ttag + 1));
    Goes(s, m3, thr, t, ETail(n, v, m.ttag + 1), GO, m3, ENext(n, v, m.ttag + 1, m.tail));
  }

  lemma Begins(s: State, m: Shared, thr: map<Tid, PC>, t: Tid, v: Item, n: Node)
    requires Reaches(s, State(m, thr[t := Idle])) && n != NULL && n !in m.live
    requires forall o :: o in thr && o != t ==> !Snapped(thr[o], n)
    ensures Reaches(s, State(Begun(m, t, v, n), thr[t := ENext(n, v, m.ttag + 1, m.tail)]))
  {
    hide Reaches;
    var m1 := Issued(m, t, n);
    Goes(s, m, thr, t, Idle, Enqueue(v), m, EAlloc(v));
    Goes(s, m, thr, t, EAlloc(v), Go(n, 0), m1, EInit(n, v));
    Prepares(s, m1, thr, t, v, n);
    assert m1.next[n := NULL] == m.next[n := NULL] && m1.data[n := v] == m.data[n := v];
    assert m1.own[n := Own(t, Armed)] == m.own[n := Own(t, Armed)];
  }

  /** An Enqueue that finds the link of its tail snapshot null and links to it. */
  lemma Attaches(s: State, m: Shared, thr: map<Tid, PC>, t: Tid, v: Item, n: Node, u: int, tp: Node)
    requires Reaches(s, State(m, thr[t := ENext(n, v, u, tp)])) && tp in m.next && m.next[tp] == NULL
    ensures Reaches(s, State(Linking(m, n, v, tp), thr[t := ESwing(n, u, tp)]))
  {
    hide Reaches, Linking;
    Goes(s, m, thr, t, ENext(n, v, u, tp), GO, m, ELink(n, v, u, tp));
    Goes(s, m, thr, t, ELink(n, v, u, tp), GO, Linking(m, n, v, tp), ESwing(n, u, tp));
  }

  /** The rest of an Enqueue that finds its snapshot current. */
  lemma Finishes(s: State, m: Shared, thr: map<Tid, PC>, t: Tid, v: Item, n: Node)
    requires Reaches(s, State(m, thr[t := ENext(n, v, m.ttag, m.tail)]))
    requires m.tail in m.next && m.next[m.tail] == NULL
    ensures Reaches(s, State(Linking(m, n, v, m.tail).(tail := n, use := m.use + 1), thr[t := Idle]))
  {
    hide Reaches;
    var u, tp := m.ttag, m.tail;
    Attaches(s, m, thr, t, v, n, u, tp);
    var m1 := Linking(m, n, v, tp);
    var m2 := m1.(tail := n);
    Goes(s, m1, thr, t, ESwing(n, u, tp), GO, m2, ECount);
    Goes(s, m2, thr, t, ECount, GO, m2.(use := m.use + 1), Idle);
  }

  /** A Dequeue up to its head and tail snapshots. */
  lemma Looks(s: State, m: Shared, thr: map<Tid, PC>, t: Tid)
    requires Reaches(s, State(m, thr[t := Idle])) && m.use >= 1 && m.ttag >= 0
    ensures Reaches(s, State(m.(use := m.use - 1, htag := m.htag + 1), thr[t := DNext(m.htag + 1, 0, m.head, m.tail)]))
  {
    hide Reaches;
    var u, h := m.htag + 1, m.head;
    var m1 := m.(use := m.use - 1);
    var m2 := m1.(htag := u);
    Goes(s, m, thr, t, Idle, Dequeue, m1, DTag);
    Goes(s, m1, thr, t, DTag, GO, m2, DHead(u, 0));
    Goes(s, m2, thr, t, DHead(u, 0), GO, m2, DTail(u, 0, h));
    Goes(s, m2, thr, t, DTail(u, 0, h), GO, m2, DNext(u, 0, h, m.tail));
  }

  /** The rest of it up to its successful head CAS, when the tail is not at the head. */
  lemma Takes(s: State, m: Shared, thr: map<Tid, PC>, t: Tid, nx: Node, v: Item)
    requires Reaches(s, State(m, thr[t := DNext(m.htag, 0, m.head, m.tail)])) && m.tail != m.head
    requires m.head in m.next && m.next[m.head] == nx && nx != NULL && nx in m.data && m.data[nx] == v
    ensures Reaches(s, State(Unlinking(m, t, m.head, v, nx), thr[t := DFree(m.head, v)]))
  {
    hide Reaches, Unlinking;
    var u, h := m.htag, m.head;
    Goes(s, m, thr, t, DNext(u, 0, h, m.tail), GO, m, DData(u, 0, h, nx));
    Goes(s, m, thr, t, DData(u, 0, h, nx), GO, m, DNext2(u, 0, h, v));
    Goes(s, m, thr, t, DNext2(u, 0, h, v), GO, m, DCas(u, 0, h, v, nx));
    Goes(s, m, thr, t, DCas(u, 0, h, v, nx), GO, Unlinking(m, t, h, v, nx), DFree(h, v));
  }

  // ---- The run ----

  const START := State(
    Shared(map[1 := NULL], map[1 := 0], 1, 0, 1, 0, 0, {1}, [1], map[], [], []),
    map[0 := Idle, 1 := Idle])

  /** Thread 0 has stopped in Enqueue(10) just after its tail snapshot, and thread 1 in Enqueue(20) likewise. */
  const SNAPPED := State(
    Shared(map[1 := NULL, 2 := NULL, 3 := NULL], map[1 := 0, 2 := 10, 3 := 20], 1, 0, 1, 2, 0, {1, 2, 3}, [1],
           map[2 := Own(0, Armed), 3 := Own(1, Armed)], [], []),
    map[0 := ENext(2, 10, 1, 1), 1 := ENext(3, 20, 2, 1)])

  const QUEUED := State(
    Shared(map[1 := 3, 2 := NULL, 3 := NULL], map[1 := 0, 2 := 10, 3 := 20], 1, 0, 3, 2, 1, {1, 2, 3}, [1, 3],
           map[2 := Own(0, Armed)], [20], []),
    map[0 := ENext(2, 10, 1, 1), 1 := Idle])

  /** Thread 1 has enqueued 20 and dequeued it, which freed the snapped dummy node 1, and is about to have a node
      issued for Enqueue(30). */
  const FREED := State(
    Shared(map[1 := 3, 2 := NULL, 3 := NULL], map[1 := 0, 2 := 10, 3 := 20], 3, 1, 3, 2, 0, {2, 3}, [3],
           map[2 := Own(0, Armed)], [20], [20]),
    map[0 := ENext(2, 10, 1, 1), 1 := EAlloc(30)])

  /** Node 1 is issued again. */
  const STALE := State(
    Shared(map[1 := 3, 2 := NULL, 3 := NULL], map[1 := 0, 2 := 10, 3 := 20], 3, 1, 3, 2, 0, {1, 2, 3}, [3],
           map[1 := Own(1, Fresh), 2 := Own(0, Armed)], [20], [20]),
    map[0 := ENext(2, 10, 1, 1), 1 := EInit(1, 30)])

  /** Thread 1 has nulled its link. */
  const NULLED := State(
    Shared(map[1 := NULL, 2 := NULL, 3 := NULL], map[1 := 0, 2 := 10, 3 := 20], 3, 1, 3, 2, 0, {1, 2, 3}, [3],
           map[1 := Own(1, Fresh), 2 := Own(0, Armed)], [20], [20]),
    map[0 := ENext(2, 10, 1, 1), 1 := EData(1, 30)])

  /** Thread 0 has linked its own node to it, off the queue. */
  const ASTRAY := State(
    Shared(map[1 := 2, 2 := NULL, 3 := NULL], map[1 := 0, 2 := 10, 3 := 20], 3, 1, 3, 2, 0, {1, 2, 3}, [3, 2],
           map[1 := Own(1, Fresh)], [20, 10], [20]),
    map[0 := ESwing(2, 1, 1), 1 := EData(1, 30)])

  /** Thread 1 has linked node 1, with the stray node behind it. */
  const JOINED := State(
    Shared(map[1 := 2, 2 := NULL, 3 := 1], map[1 := 30, 2 := 10, 3 := 20], 3, 1, 1, 3, 1, {1, 2, 3}, [3, 2, 1],
           map[], [20, 10, 30], [20]),
    map[0 := ESwing(2, 1, 1), 1 := Idle])

  /** And it has dequeued 30. */
  const SWAPPED := State(
    Shared(map[1 := 2, 2 := NULL, 3 := 1], map[1 := 30, 2 := 10, 3 := 20], 1, 2, 1, 3, 0, {1, 2, 3}, [2, 1],
           map[3 := Own(1, Retired)], [20, 10, 30], [20, 30]),
    map[0 := ESwing(2, 1, 1), 1 := DFree(3, 30)])

  lemma ReachSnapped()
    ensures Reaches(START, SNAPPED)
  {
    ReachesSelf(START);
    hide Reaches;
    var thr := START.thr;
    assert thr[0 := Idle] == thr;
    Begins(START, START.m, thr, 0, 10, 2);
    var m, at := Begun(START.m, 0, 10, 2), thr[0 := ENext(2, 10, 1, 1)];
    assert at[1 := Idle] == at;
    Begins(START, m, at, 1, 20, 3);
    assert Begun(m, 1, 20, 3) == SNAPPED.m && at[1 := ENext(3, 20, 2, 1)] == SNAPPED.thr;
  }

  lemma ReachQueued()
    requires Reaches(START, SNAPPED)
    ensures Reaches(START, QUEUED)
  {
    hide Reaches;
    var m, thr := SNAPPED.m, SNAPPED.thr;
    assert thr[1 := ENext(3, 20, 2, 1)] == thr;
    Finishes(START, m, thr, 1, 20, 3);
    assert Linking(m, 3, 20, 1).(tail := 3, use := 1) == QUEUED.m && thr[1 := Idle] == QUEUED.thr;
  }

  lemma ReachFreed()
    requires Reaches(START, QUEUED)
    ensures Reaches(START, FREED)
  {
    hide Reaches;
    var m, thr := QUEUED.m, QUEUED.thr;
    assert thr[1 := Idle] == thr;
    Looks(START, m, thr, 1);
    var m1 := m.(use := 0, htag := 1);
    Takes(START, m1, thr, 1, 3, 20);
    var m2 := Unlinking(m1, 1, 1, 20, 3);
    assert m2.(live := m2.live - {1}, own := m2.own - {1}) == FREED.m;
    Goes(START, m2, thr, 1, DFree(1, 20), GO, FREED.m, Idle);
    Goes(START, FREED.m, thr, 1, Idle, Enqueue(30), FREED.m, EAlloc(30));
    assert thr[1 := EAlloc(30)] == FREED.thr;
  }

  lemma ReachNulled()
    ensures Reaches(STALE, NULLED)
  {
    ReachesSelf(STALE);
    hide Reaches;
    var m, thr := STALE.m, STALE.thr;
    assert thr[1 := EInit(1, 30)] == thr && m.next[1 := NULL] == NULLED.m.next;
    Goes(STALE, m, thr, 1, EInit(1, 30), GO, NULLED.m, EData(1, 30));
    assert thr[1 := EData(1, 30)] == NULLED.thr;
  }

  lemma ReachAstray()
    requires Reaches(STALE, NULLED)
    ensures Reaches(STALE, ASTRAY)
  {
    hide Reaches;
    var m, thr := NULLED.m, NULLED.thr;
    assert thr[0 := ENext(2, 10, 1, 1)] == thr;
    Attaches(STALE, m, thr, 0, 10, 2, 1, 1);
    assert Linking(m, 2, 10, 1) == ASTRAY.m && thr[0 := ESwing(2, 1, 1)] == ASTRAY.thr;
  }

  lemma ReachJoined()
    requires Reaches(STALE, ASTRAY)
    ensures Reaches(STALE, JOINED)
  {
    hide Reaches;
    var m, thr := ASTRAY.m, ASTRAY.thr;
    var m1 := m.(data := m.data[1 := 30]);
    var m2 := m1.(ttag := 3, own := m.own[1 := Own(1, Armed)]);
    assert thr[1 := EData(1, 30)] == thr;
    Goes(STALE, m, thr, 1, EData(1, 30), GO, m1, ETag(1, 30));
    Goes(STALE, m1, thr, 1, ETag(1, 30), GO, m2, ETail(1, 30, 3));
    Goes(STALE, m2, thr, 1, ETail(1, 30, 3), GO, m2, ENext(1, 30, 3, 3));
    Finishes(STALE, m2, thr, 1, 30, 1);
    assert Linking(m2, 1, 30, 3).(tail := 1, use := 1) == JOINED.m && thr[1 := Idle] == JOINED.thr;
  }

  lemma ReachSwapped()
    requires Reaches(STALE, JOINED)
    ensures Reaches(STALE, SWAPPED)
  {
    hide Reaches;
    var m, thr := JOINED.m, JOINED.thr;
    assert thr[1 := Idle] == thr;
    Looks(STALE, m, thr, 1);
    var m1 := m.(use := 0, htag := 2);
    Takes(STALE, m1, thr, 1, 1, 30);
    assert Unlinking(m1, 1, 3, 30, 1) == SWAPPED.m && thr[1 := DFree(3, 30)] == SWAPPED.thr;
  }

  lemma Reissued()
    ensures var mv := Move(1, Go(1, 0)); Can(FREED, mv) && !Spares(FREED, mv) && Step(FREED, mv) == STALE
  {
    assert Snapped(FREED.thr[0], 1);
  }

  /** The assumption on the pool does not come for free with two producers: a run reaches a state where the pool may
      re-issue a snapped node, and if it does, the run goes on to dequeue 30 while 10, enqueued before it, waits. */
  lemma TwoProducersCanMisorder()
    ensures Init(START) && Reaches(START, FREED)
    ensures var mv := Move(1, Go(1, 0)); Can(FREED, mv) && !Spares(FREED, mv) && Step(FREED, mv) == STALE
    ensures Reaches(STALE, SWAPPED) && SWAPPED.m.enq == [20, 10, 30] && SWAPPED.m.deq == [20, 30]
    ensures !(SWAPPED.m.deq <= SWAPPED.m.enq)
  {
    assert Init(START);
    assert SWAPPED.m.deq[1] != SWAPPED.m.enq[1];
    hide *;
    ReachSnapped();
    ReachQueued();
    ReachFreed();
    Reissued();
    ReachNulled();
    ReachAstray();
    ReachJoined();
    ReachSwapped();
  }
}
