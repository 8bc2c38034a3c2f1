/** What the calls of CLockFreeStack do, in terms of what their callers asked for. */
module StackCalls {
  import opened Census
  import opened LinkedList
  import opened Ledger
  import opened LockFreeStack

  // ---- Every interleaving: each call has its effect, once ----

  /** The item that the move asks to push on behalf of `p`, and whether it asks for a pop. */
  function GivenIn(mv: Move, p: Tid): seq<Item> {
    if mv.t == p && mv.act.Push? then [mv.act.v] else []
  }

  function AskedIn(mv: Move, p: Tid): nat { if mv.t == p && mv.act.Pop? then 1 else 0 }

  function Given(mvs: seq<Move>, p: Tid): seq<Item> {
    if mvs == [] then [] else GivenIn(mvs[0], p) + Given(mvs[1..], p)
  }

  function Asked(mvs: seq<Move>, p: Tid): nat {
    if mvs == [] then 0 else AskedIn(mvs[0], p) + Asked(mvs[1..], p)
  }

  /** What the move, made by `p`, adds to the log: an item pushed or an item popped. */
  ghost function PushedIn(s: State, mv: Move, p: Tid): seq<Item>
    requires Can(s, mv)
  {
    var before, after := s.m.log, Step(s, mv).m.log;
    if mv.t == p && |after| > |before| && after[|before|].Pushed? then [after[|before|].v] else []
  }

  ghost function PoppedIn(s: State, mv: Move, p: Tid): seq<Item>
    requires Can(s, mv)
  {
    var before, after := s.m.log, Step(s, mv).m.log;
    if mv.t == p && |after| > |before| && after[|before|].Popped? then [after[|before|].v] else []
  }

  /** The item that a Pop of `p` returns to its caller in this move, and whether it returns at all. */
  ghost function ReturnedIn(s: State, mv: Move, p: Tid): seq<Item>
    requires Can(s, mv)
  {
    if mv.t == p && s.thr[p].OFree? then [s.thr[p].d] else []
  }

  ghost function AnsweredIn(s: State, mv: Move, p: Tid): nat
    requires Can(s, mv)
  {
    if mv.t == p && (s.thr[p].OFree? || s.thr[p].OFail?) then 1 else 0
  }

  ghost function PushedBy(s: State, mvs: seq<Move>, p: Tid): seq<Item>
    requires Legal(s, mvs)
    decreases |mvs|
  {
    if mvs == [] then [] else PushedIn(s, mvs[0], p) + PushedBy(Step(s, mvs[0]), mvs[1..], p)
  }

  ghost function PoppedBy(s: State, mvs: seq<Move>, p: Tid): seq<Item>
    requires Legal(s, mvs)
    decreases |mvs|
  {
    if mvs == [] then [] else PoppedIn(s, mvs[0], p) + PoppedBy(Step(s, mvs[0]), mvs[1..], p)
  }

  ghost function ReturnedBy(s: State, mvs: seq<Move>, p: Tid): seq<Item>
    requires Legal(s, mvs)
    decreases |mvs|
  {
    if mvs == [] then [] else ReturnedIn(s, mvs[0], p) + ReturnedBy(Step(s, mvs[0]), mvs[1..], p)
  }

  ghost function AnsweredBy(s: State, mvs: seq<Move>, p: Tid): nat
    requires Legal(s, mvs)
    decreases |mvs|
  {
    if mvs == [] then 0 else AnsweredIn(s, mvs[0], p) + AnsweredBy(Step(s, mvs[0]), mvs[1..], p)
  }

  /** The item of a Push that has not reached its CAS, the item of a Pop that is past it, and whether a Pop is in
      progress. */
  function Pushing(pc: PC): seq<Item> {
    if pc.PAlloc? || pc.PData? || pc.PTop? || pc.PTag? || pc.PLink? || pc.PCas? then [pc.v] else []
  }

  function Owed(pc: PC): seq<Item> { if pc.OData? || pc.OFree? then [pc.w] else [] }

  predicate InPop(pc: PC) { pc.OFail? || Popping(pc) || pc.OData? || pc.OFree? }

  lemma PushLedger(s: State, mv: Move, p: Tid)
    requires Can(s, mv) && p in s.thr
    ensures PushedIn(s, mv, p) + Pushing(Step(s, mv).thr[p]) == Pushing(s.thr[p]) + GivenIn(mv, p)
  {
  }

  lemma PopLedger(s: State, mv: Move, p: Tid)
    requires Can(s, mv) && p in s.thr && Ok(s.m, p, s.thr[p])
    ensures ReturnedIn(s, mv, p) + Owed(Step(s, mv).thr[p]) == Owed(s.thr[p]) + PoppedIn(s, mv, p)
    ensures AnsweredIn(s, mv, p) + Bit(InPop(Step(s, mv).thr[p])) == Bit(InPop(s.thr[p])) + AskedIn(mv, p)
  {
  }

  /** What thread `p` has pushed, at its CASes and in their order, followed by the item of its Push in progress, is what
      its callers gave it. */
  lemma {:induction false} PushesWhatWasGiven(s: State, mvs: seq<Move>, p: Tid)
    requires Legal(s, mvs) && p in s.thr
    ensures p in Play(s, mvs).thr
    ensures PushedBy(s, mvs, p) + Pushing(Play(s, mvs).thr[p]) == Pushing(s.thr[p]) + Given(mvs, p)
    decreases |mvs|
  {
    hide Exec, Enabled, Pushing, PushedIn, GivenIn;
    if mvs != [] {
      var mv, rest, s' := mvs[0], mvs[1..], Step(s, mvs[0]);
      PushLedger(s, mv, p);
      PushesWhatWasGiven(s', rest, p);
      Carry(PushedIn(s, mv, p), Pushing(s'.thr[p]), Pushing(s.thr[p]), GivenIn(mv, p),
            PushedBy(s', rest, p), Given(rest, p), Pushing(Play(s', rest).thr[p]));
    }
  }

  /** What the Pops of thread `p` have returned, followed by what its Pop past the CAS will return, is what `p` has
      popped, in order; and each Pop it was asked for has answered, but for one in progress. */
  lemma {:induction false} ReturnsWhatWasPopped(s: State, mvs: seq<Move>, p: Tid)
    requires Inv(s) && Legal(s, mvs) && p in s.thr
    ensures p in Play(s, mvs).thr
    ensures ReturnedBy(s, mvs, p) + Owed(Play(s, mvs).thr[p]) == Owed(s.thr[p]) + PoppedBy(s, mvs, p)
    ensures AnsweredBy(s, mvs, p) + Bit(InPop(Play(s, mvs).thr[p])) == Bit(InPop(s.thr[p])) + Asked(mvs, p)
    decreases |mvs|
  {
    hide Global, Ok, Exec, Enabled, Owed, InPop, ReturnedIn, PoppedIn, AnsweredIn, AskedIn;
    if mvs != [] {
      var mv, rest, s' := mvs[0], mvs[1..], Step(s, mvs[0]);
      PopLedger(s, mv, p);
      KeepsInv(s, mv);
      ReturnsWhatWasPopped(s', rest, p);
      Carry(ReturnedIn(s, mv, p), Owed(s'.thr[p]), Owed(s.thr[p]), PoppedIn(s, mv, p),
            ReturnedBy(s', rest, p), PoppedBy(s', rest, p), Owed(Play(s', rest).thr[p]));
    }
  }

  // ---- A call that runs alone ----

  /** Thread `t` alone takes the machine from `s` to `q`. */
  ghost predicate Reaches(s: State, q: State, t: Tid) {
    exists mvs: seq<Move> :: Legal(s, mvs) && Play(s, mvs) == q && forall i :: 0 <= i < |mvs| ==> mvs[i].t == t
  }

  lemma ReachesSelf(s: State, t: Tid)
    ensures Reaches(s, s, t)
  {
    assert Legal(s, []) && Play(s, []) == s;
  }

  lemma {:induction false} RunsJoin(s: State, xs: seq<Move>, mv: Move)
    requires Legal(s, xs) && Can(Play(s, xs), mv)
    ensures Legal(s, xs + [mv]) && Play(s, xs + [mv]) == Step(Play(s, xs), mv)
    decreases |xs|
  {
    if xs == [] {
      assert [mv][1..] == [] && xs + [mv] == [mv];
      assert Legal(Step(s, mv), []) && Play(Step(s, mv), []) == Step(s, mv);
    } else {
      assert (xs + [mv])[1..] == xs[1..] + [mv];
      RunsJoin(Step(s, xs[0]), xs[1..], mv);
    }
  }

  lemma Goes(s: State, m: Shared, thr: map<Tid, PC>, t: Tid, pc: PC, a: Act, m': Shared, pc': PC)
    requires Reaches(s, State(m, thr[t := pc]), t)
    requires Enabled(m, pc, a) && Exec(m, t, pc, a) == (m', pc')
    ensures Reaches(s, State(m', thr[t := pc']), t)
  {
    hide Exec, Enabled;
    var q, mv := State(m, thr[t := pc]), Move(t, a);
    var mvs: seq<Move> :| Legal(s, mvs) && Play(s, mvs) == q && forall i :: 0 <= i < |mvs| ==> mvs[i].t == t;
    RunsJoin(s, mvs, mv);
    assert Step(q, mv) == State(m', thr[t := pc']);
  }

  /** How many elements of the stack the counter does not count, or counts for a Pop in progress. */
  ghost function Lag(thr: map<Tid, PC>): nat {
    Count(thr, Uncounted) + Count(thr, Popping) + Count(thr, Failing)
  }

  /** A Pop that is called in a reachable state answers that the stack is empty if and only if the stack is no longer
      than that. */
  lemma RefusedIff(s: State, t: Tid)
    requires Inv(s) && t in s.thr && s.thr[t].Idle?
    ensures Step(s, Move(t, Pop)).thr[t] == (if |s.m.list| <= Lag(s.thr) then OFail else OTop)
    ensures Step(s, Move(t, Pop)).m == s.m.(use := s.m.use - 1)
  {
    assert Booked(s.m, Tally(s.thr));
    hide Inv, Booked;
  }

  /** The counter after a Pop has reserved an element. */
  ghost function Reserved(m: Shared): (r: Shared)
    ensures r.top == m.top && r.next == m.next && r.data == m.data && r.list == m.list
  {
    m.(use := m.use - 1)
  }

  lemma PopStarts(s: State, t: Tid)
    requires Inv(s) && t in s.thr && s.thr[t].Idle?
    ensures var pc := if |s.m.list| <= Lag(s.thr) then OFail else OTop;
            Reaches(s, State(Reserved(s.m), s.thr[t := pc]), t)
  {
    RefusedIff(s, t);
    hide Inv, Reaches, Lag;
    ReachesSelf(s, t);
    assert s.thr[t := Idle] == s.thr;
    var q := Step(s, Move(t, Pop));
    Goes(s, s.m, s.thr, t, Idle, Pop, q.m, q.thr[t]);
  }

  lemma UnlinksAlone(s: State, m: Shared, thr: map<Tid, PC>, t: Tid)
    requires Reaches(s, State(m, thr[t := OTop]), t) && m.list != [] && m.top in m.next && m.top in m.data
    ensures var x := m.data[m.top]; Reaches(s, State(AfterPop(m, t), thr[t := OFree(m.top, x, x)]), t)
  {
    hide Reaches;
    var p, g, go := m.top, m.tag, Go(NULL);
    var x := m.data[p];
    Goes(s, m, thr, t, OTop, go, m, OTag(p));
    Goes(s, m, thr, t, OTag(p), go, m, ONext(p, g));
    Goes(s, m, thr, t, ONext(p, g), go, m, OCas(p, g, m.next[p]));
    Goes(s, m, thr, t, OCas(p, g, m.next[p]), go, AfterPop(m, t), OData(p, x));
    Goes(s, AfterPop(m, t), thr, t, OData(p, x), go, AfterPop(m, t), OFree(p, x, x));
  }

  /** What is left after popping the first of `m.list`: its node given back, and nothing else changed. */
  ghost function Without(m: Shared): Shared
    requires m.top in m.next && m.top in m.data && m.list != []
  {
    m.(use := m.use - 1, top := m.next[m.top], tag := m.tag + 1, list := m.list[1..],
       log := m.log + [Popped(m.data[m.top])], live := m.live - {m.top})
  }

  lemma FirstNode(s: State)
    requires Inv(s) && s.m.list != []
    ensures s.m.top in s.m.next && s.m.top in s.m.data && s.m.top == s.m.list[0] && s.m.top !in s.m.own
    ensures Replay(s.m.log).Some? && [s.m.data[s.m.top]] <= Replay(s.m.log).value
  {
    TopIsFirst(s.m);
    hide Linked;
    assert s.m.data.Keys == s.m.next.Keys;
  }

  lemma GivesBackAlone(s: State, m: Shared, thr: map<Tid, PC>, t: Tid)
    requires m.list != [] && m.top in m.next && m.top in m.data && m.top !in m.own
    requires var x := m.data[m.top];
             Reaches(s, State(AfterPop(Reserved(m), t), thr[t := OFree(m.top, x, x)]), t)
    ensures Reaches(s, State(Without(m), thr[t := Idle]), t)
  {
    hide Reaches;
    var p, x, m1 := m.top, m.data[m.top], AfterPop(Reserved(m), t);
    assert m.own[p := t] - {p} == m.own;
    Goes(s, m1, thr, t, OFree(p, x, x), Go(NULL), Without(m), Idle);
  }

  /** A Pop that runs alone from any reachable state in which it is not refused unlinks the first node, returns its
      item, which is the one on top of the sequential stack, and gives the node back. */
  lemma PopAlone(s: State, t: Tid)
    requires Inv(s) && t in s.thr && s.thr[t].Idle? && |s.m.list| > Lag(s.thr)
    ensures s.m.top in s.m.next && s.m.top in s.m.data && s.m.top == s.m.list[0]
    ensures Replay(s.m.log).Some? && [s.m.data[s.m.top]] <= Replay(s.m.log).value
    ensures var x := s.m.data[s.m.top];
            && Reaches(s, State(AfterPop(Reserved(s.m), t), s.thr[t := OFree(s.m.top, x, x)]), t)
            && Reaches(s, State(Without(s.m), s.thr), t)
  {
    assert s.thr[t := Idle] == s.thr;
    hide *;
    PopStarts(s, t);
    FirstNode(s);
    UnlinksAlone(s, Reserved(s.m), s.thr, t);
    GivesBackAlone(s, s.m, s.thr, t);
  }

  /** With no call in flight that is every Pop of a non-empty stack. */
  lemma QuietLag(s: State)
    requires forall t :: t in s.thr ==> s.thr[t].Idle?
    ensures Lag(s.thr) == 0
  {
    Nobody(s.thr, Uncounted);
    Nobody(s.thr, Popping);
    Nobody(s.thr, Failing);
  }

  lemma LinksAlone(s: State, m: Shared, thr: map<Tid, PC>, t: Tid, v: Item, n: Node)
    requires Reaches(s, State(m, thr[t := PData(n, v)]), t)
    ensures var m' := m.(next := m.next[n := m.top], data := m.data[n := v]);
            Reaches(s, State(AfterPush(m', n, v), thr[t := PCount]), t)
  {
    hide Reaches;
    var p, g, go := m.top, m.tag, Go(NULL);
    var m1 := m.(data := m.data[n := v]);
    var m2 := m1.(next := m.next[n := p]);
    Goes(s, m, thr, t, PData(n, v), go, m1, PTop(n, v));
    Goes(s, m1, thr, t, PTop(n, v), go, m1, PTag(n, v, p));
    Goes(s, m1, thr, t, PTag(n, v, p), go, m1, PLink(n, v, p, g));
    Goes(s, m1, thr, t, PLink(n, v, p, g), go, m2, PCas(n, v, p, g));
    Goes(s, m2, thr, t, PCas(n, v, p, g), go, AfterPush(m2, n, v), PCount);
  }

  /** What the stack is after pushing `v` on node `n`: that node in front, and nothing else changed. */
  ghost function With(m: Shared, v: Item, n: Node): Shared {
    m.(live := m.live + {n}, next := m.next[n := m.top], data := m.data[n := v], top := n, tag := m.tag + 1,
       list := [n] + m.list, log := m.log + [Pushed(v)], use := m.use + 1)
  }

  /** The state after the pool has issued node `n`. */
  ghost function Got(m: Shared, t: Tid, n: Node): Shared
    requires n != NULL && n !in m.live
  {
    Exec(m, t, PAlloc(0), Go(n)).0
  }

  lemma TakesNode(s: State, t: Tid, v: Item, n: Node)
    requires t in s.thr && s.thr[t].Idle? && n != NULL && n !in s.m.live
    ensures Reaches(s, State(Got(s.m, t, n), s.thr[t := PData(n, v)]), t)
  {
    var m, thr := s.m, s.thr;
    hide Reaches;
    ReachesSelf(s, t);
    assert thr[t := Idle] == thr;
    Goes(s, m, thr, t, Idle, Push(v), m, PAlloc(v));
    Goes(s, m, thr, t, PAlloc(v), Go(n), Got(m, t, n), PData(n, v));
  }

  lemma SameEnd(m: Shared, t: Tid, v: Item, n: Node)
    requires n != NULL && n !in m.live && n !in m.own
    ensures var m1 := Got(m, t, n);
            && m1.top == m.top
            && var m2 := AfterPush(m1.(next := m1.next[n := m1.top], data := m1.data[n := v]), n, v);
               m2.(use := m2.use + 1) == With(m, v, n)
  {
    var m1 := Got(m, t, n);
    assert m1.next[n := m.top] == m.next[n := m.top] && m1.data[n := v] == m.data[n := v];
    assert m.own[n := t] - {n} == m.own;
  }

  lemma CountsAlone(s: State, m: Shared, thr: map<Tid, PC>, t: Tid)
    requires Reaches(s, State(m, thr[t := PCount]), t)
    ensures Reaches(s, State(m.(use := m.use + 1), thr[t := Idle]), t)
  {
    hide Reaches;
    Goes(s, m, thr, t, PCount, Go(NULL), m.(use := m.use + 1), Idle);
  }

  /** A Push that runs alone from any reachable state, on any node that the pool may issue. */
  lemma PushAlone(s: State, t: Tid, v: Item, n: Node)
    requires Inv(s) && t in s.thr && s.thr[t].Idle? && n != NULL && n !in s.m.live
    ensures Reaches(s, State(With(s.m, v, n), s.thr), t)
  {
    assert n !in s.m.own;
    assert s.thr[t := Idle] == s.thr;
    SameEnd(s.m, t, v, n);
    hide *;
    TakesNode(s, t, v, n);
    var m1 := Got(s.m, t, n);
    LinksAlone(s, m1, s.thr, t, v, n);
    CountsAlone(s, AfterPush(m1.(next := m1.next[n := m1.top], data := m1.data[n := v]), n, v), s.thr, t);
  }
}
