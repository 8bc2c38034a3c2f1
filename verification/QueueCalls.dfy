/** What the calls of CLockFreeQueue do, in terms of what their callers asked for. */
module QueueCalls {
  import opened Census
  import opened LinkedList
  import opened Ledger
  import opened LockFreeQueue
  import opened QueueInvariant
  import opened QueueSafety
  import opened QueueProgress

  // ---- Every interleaving: each call has its effect, once ----

  /** The item that the move asks to enqueue on behalf of `p`, and whether it asks for a dequeue. */
  function GivenIn(mv: Move, p: Tid): seq<Item> {
    if mv.t == p && mv.act.Enqueue? then [mv.act.v] else []
  }

  function AskedIn(mv: Move, p: Tid): nat { if mv.t == p && mv.act.Dequeue? then 1 else 0 }

  function Given(mvs: seq<Move>, p: Tid): seq<Item> {
    if mvs == [] then [] else GivenIn(mvs[0], p) + Given(mvs[1..], p)
  }

  function Asked(mvs: seq<Move>, p: Tid): nat {
    if mvs == [] then 0 else AskedIn(mvs[0], p) + Asked(mvs[1..], p)
  }

  /** What `after` has beyond `before`. */
  function Grown(before: seq<Item>, after: seq<Item>): seq<Item> {
    if |before| <= |after| then after[|before|..] else []
  }

  /** What the move, made by `p`, adds to the items linked and to the items unlinked. */
  ghost function LinkedIn(s: State, mv: Move, p: Tid): seq<Item>
    requires Can(s, mv)
  {
    if mv.t == p then Grown(s.m.enq, Step(s, mv).m.enq) else []
  }

  ghost function TakenIn(s: State, mv: Move, p: Tid): seq<Item>
    requires Can(s, mv)
  {
    if mv.t == p then Grown(s.m.deq, Step(s, mv).m.deq) else []
  }

  /** The item that a Dequeue of `p` returns to its caller in this move, and whether it returns at all. */
  ghost function ReturnedIn(s: State, mv: Move, p: Tid): seq<Item>
    requires Can(s, mv)
  {
    if mv.t == p && s.thr[p].DFree? then [s.thr[p].v] else []
  }

  ghost function AnsweredIn(s: State, mv: Move, p: Tid): nat
    requires Can(s, mv)
  {
    if mv.t == p && (s.thr[p].DFree? || s.thr[p].DFail?) then 1 else 0
  }

  ghost function LinkedBy(s: State, mvs: seq<Move>, p: Tid): seq<Item>
    requires Legal(s, mvs)
    decreases |mvs|
  {
    if mvs == [] then [] else LinkedIn(s, mvs[0], p) + LinkedBy(Step(s, mvs[0]), mvs[1..], p)
  }

  ghost function TakenBy(s: State, mvs: seq<Move>, p: Tid): seq<Item>
    requires Legal(s, mvs)
    decreases |mvs|
  {
    if mvs == [] then [] else TakenIn(s, mvs[0], p) + TakenBy(Step(s, mvs[0]), mvs[1..], p)
  }

  ghost function ReturnedBy(s: State, mvs: seq<Move>, p: Tid): seq<Item>
    requires Legal(s, mvs)
    decreases |mvs|
  {
    if mvs == [] then [] else ReturnedIn(s, mvs[0], p) + ReturnedBy(Step(s, mvs[0]), mvs[1..], p)
  }

  ghost function AnsweredBy(s: State, mvs: seq<Move>, p: Tid): nat
    requires Legal(s, mvs)
    decreases |mvs|
  {
    if mvs == [] then 0 else AnsweredIn(s, mvs[0], p) + AnsweredBy(Step(s, mvs[0]), mvs[1..], p)
  }

  /** The item of an Enqueue that has not linked it, the item of a Dequeue past its head CAS, and whether a Dequeue is
      in progress. */
  function Enqueued(pc: PC): seq<Item> {
    if Enqueuing(pc) && !pc.ESwing? && !pc.ECount? then [pc.v] else []
  }

  function Owed(pc: PC): seq<Item> { if pc.DFree? then [pc.v] else [] }

  predicate InDequeue(pc: PC) { pc.DFail? || pc.DTag? || Looping(pc) || pc.DFree? }

  lemma LinkLedger(s: State, mv: Move, p: Tid)
    requires Can(s, mv) && p in s.thr
    ensures LinkedIn(s, mv, p) + Enqueued(Step(s, mv).thr[p]) == Enqueued(s.thr[p]) + GivenIn(mv, p)
  {
  }

  lemma TakeLedger(s: State, mv: Move, p: Tid)
    requires Can(s, mv) && p in s.thr
    ensures ReturnedIn(s, mv, p) + Owed(Step(s, mv).thr[p]) == Owed(s.thr[p]) + TakenIn(s, mv, p)
  {
  }

  lemma AnswerLedger(s: State, mv: Move, p: Tid)
    requires Can(s, mv) && p in s.thr
    ensures AnsweredIn(s, mv, p) + Bit(InDequeue(Step(s, mv).thr[p])) == Bit(InDequeue(s.thr[p])) + AskedIn(mv, p)
  {
  }

  /** What thread `p` has linked, in order, followed by the item of its Enqueue in progress, is what its callers gave
      it. */
  lemma {:induction false} LinksWhatWasGiven(s: State, mvs: seq<Move>, p: Tid)
    requires Legal(s, mvs) && p in s.thr
    ensures p in Play(s, mvs).thr
    ensures LinkedBy(s, mvs, p) + Enqueued(Play(s, mvs).thr[p]) == Enqueued(s.thr[p]) + Given(mvs, p)
    decreases |mvs|
  {
    hide Exec, Enabled, Enqueued, LinkedIn, GivenIn;
    if mvs != [] {
      var mv, rest, s' := mvs[0], mvs[1..], Step(s, mvs[0]);
      LinkLedger(s, mv, p);
      LinksWhatWasGiven(s', rest, p);
      Carry(LinkedIn(s, mv, p), Enqueued(s'.thr[p]), Enqueued(s.thr[p]), GivenIn(mv, p),
            LinkedBy(s', rest, p), Given(rest, p), Enqueued(Play(s', rest).thr[p]));
    }
  }

  /** What the Dequeues of thread `p` have returned, followed by what its Dequeue past the head CAS will return, is what
      `p` has unlinked, in order; and each Dequeue it was asked for has answered, but for one in progress. */
  lemma {:induction false} ReturnsWhatWasTaken(s: State, mvs: seq<Move>, p: Tid)
    requires Legal(s, mvs) && p in s.thr
    ensures p in Play(s, mvs).thr
    ensures ReturnedBy(s, mvs, p) + Owed(Play(s, mvs).thr[p]) == Owed(s.thr[p]) + TakenBy(s, mvs, p)
    ensures AnsweredBy(s, mvs, p) + Bit(InDequeue(Play(s, mvs).thr[p])) == Bit(InDequeue(s.thr[p])) + Asked(mvs, p)
    decreases |mvs|
  {
    hide Exec, Enabled, Owed, InDequeue, ReturnedIn, TakenIn, AnsweredIn, AskedIn;
    if mvs != [] {
      var mv, rest, s' := mvs[0], mvs[1..], Step(s, mvs[0]);
      TakeLedger(s, mv, p);
      AnswerLedger(s, mv, p);
      ReturnsWhatWasTaken(s', rest, p);
      Carry(ReturnedIn(s, mv, p), Owed(s'.thr[p]), Owed(s.thr[p]), TakenIn(s, mv, p),
            ReturnedBy(s', rest, p), TakenBy(s', rest, p), Owed(Play(s', rest).thr[p]));
    }
  }

  lemma OnlyProducerLinks(s: State, mv: Move, p: Tid)
    requires Can(s, mv) && (mv.act.Enqueue? ==> mv.t == p)
    requires forall t :: t in s.thr && Enqueuing(s.thr[t]) ==> t == p
    ensures Step(s, mv).m.enq == s.m.enq + LinkedIn(s, mv, p)
  {
  }

  lemma {:induction false} OneProducerLogs(s: State, mvs: seq<Move>, p: Tid)
    requires Legal(s, mvs) && OneProducer(mvs, p)
    requires forall t :: t in s.thr && Enqueuing(s.thr[t]) ==> t == p
    ensures Play(s, mvs).m.enq == s.m.enq + LinkedBy(s, mvs, p)
    decreases |mvs|
  {
    hide Exec, Enabled, LinkedIn;
    if mvs != [] {
      var rest, s' := mvs[1..], Step(s, mvs[0]);
      assert mvs[0].act.Enqueue? ==> mvs[0].t == p;
      OnlyProducerLinks(s, mvs[0], p);
      OneProducerStep(s, mvs[0], p);
      assert forall i :: 0 <= i < |rest| ==> rest[i] == mvs[i + 1];
      OneProducerLogs(s', rest, p);
      Assoc(s.m.enq, LinkedIn(s, mvs[0], p), LinkedBy(s', rest, p));
    }
  }

  /** One producer and any number of consumers, end to end and with no assumption on the pool: what has been dequeued,
      what is linked and what is being enqueued make up, in order, what the producer's callers gave it. */
  lemma OneProducerEndToEnd(s: State, mvs: seq<Move>, p: Tid)
    requires Init(s) && Legal(s, mvs) && OneProducer(mvs, p) && p in s.thr
    ensures var r := Play(s, mvs);
            && p in r.thr && r.m.chain != [] && (forall i :: 0 <= i < |r.m.chain| ==> r.m.chain[i] in r.m.data)
            && Linked(r.m.next, r.m.head, r.m.chain)
            && r.m.deq + Items(r.m.data, r.m.chain[1..]) + Enqueued(r.thr[p]) == Given(mvs, p)
  {
    var m := Play(s, mvs).m;
    OneProducerFifo(s, mvs, p);
    OneProducerLogs(s, mvs, p);
    LinksWhatWasGiven(s, mvs, p);
    assert s.m.enq == [] && Enqueued(s.thr[p]) == [];
    hide Init, Legal, Play, Linked, OneProducer, Enqueued;
    assert m.enq == m.deq + m.enq[|m.deq|..];
    assert [] + LinkedBy(s, mvs, p) == LinkedBy(s, mvs, p) && [] + Given(mvs, p) == Given(mvs, p);
  }

  // ---- When a Dequeue is refused ----

  /** How many linked elements the counter does not count, or counts for a Dequeue in progress. */
  ghost function Lag(thr: map<Tid, PC>): nat {
    Count(thr, Uncounted) + Count(thr, Waiting) + Count(thr, Looping) + Count(thr, Failing)
  }

  /** A Dequeue that is called in a reachable state answers that the queue is empty if and only if no more elements are
      linked than that. */
  lemma RefusedIff(s: State, t: Tid)
    requires Inv(s) && t in s.thr && s.thr[t].Idle?
    ensures Step(s, Move(t, Dequeue)).thr[t] == (if |s.m.chain| - 1 <= Lag(s.thr) then DFail else DTag)
  {
    assert Booked(s.m.use, |s.m.chain|, Tally(s.thr));
    hide Inv, Booked;
  }

  /** Whether a Dequeue has been let past its count check and has yet to return an item. */
  predicate Serving(pc: PC) { pc.DTag? || Looping(pc) || pc.DFree? }

  /** Whether the move calls a Dequeue for `p` that is let in. */
  ghost function AdmittedIn(s: State, mv: Move, p: Tid): nat {
    if mv.t == p && mv.act.Dequeue? && |s.m.chain| - 1 > Lag(s.thr) then 1 else 0
  }

  ghost function Admitted(s: State, mvs: seq<Move>, p: Tid): nat
    requires Legal(s, mvs)
    decreases |mvs|
  {
    if mvs == [] then 0 else AdmittedIn(s, mvs[0], p) + Admitted(Step(s, mvs[0]), mvs[1..], p)
  }

  lemma ServeStep(s: State, mv: Move, p: Tid)
    requires Can(s, mv) && p in s.thr && !mv.act.Dequeue?
    ensures |ReturnedIn(s, mv, p)| + Bit(Serving(Step(s, mv).thr[p])) == Bit(Serving(s.thr[p]))
  {
  }

  lemma ServeCall(s: State, t: Tid)
    requires Inv(s) && t in s.thr && s.thr[t].Idle?
    ensures var mv := Move(t, Dequeue);
            && Can(s, mv) && ReturnedIn(s, mv, t) == []
            && Bit(Serving(Step(s, mv).thr[t])) == AdmittedIn(s, mv, t)
  {
    RefusedIff(s, t);
    hide Inv, Lag, Exec;
  }

  lemma NotAdmitted(s: State, mv: Move, p: Tid)
    requires mv.t != p || !mv.act.Dequeue?
    ensures AdmittedIn(s, mv, p) == 0
  {
  }

  lemma ServeOther(s: State, mv: Move, p: Tid)
    requires Can(s, mv) && p in s.thr && mv.t != p
    ensures ReturnedIn(s, mv, p) == [] && Step(s, mv).thr[p] == s.thr[p]
  {
    hide Exec, Enabled;
  }

  lemma ServeLedger(s: State, mv: Move, p: Tid)
    requires Inv(s) && Can(s, mv) && p in s.thr
    ensures |ReturnedIn(s, mv, p)| + Bit(Serving(Step(s, mv).thr[p]))
            == Bit(Serving(s.thr[p])) + AdmittedIn(s, mv, p)
  {
    if mv.t != p {
      hide *;
      NotAdmitted(s, mv, p);
      ServeOther(s, mv, p);
    } else if !mv.act.Dequeue? {
      hide *;
      NotAdmitted(s, mv, p);
      ServeStep(s, mv, p);
    } else {
      assert s.thr[p].Idle? && mv == Move(p, Dequeue) && Bit(Serving(s.thr[p])) == 0;
      hide *;
      ServeCall(s, p);
    }
  }

  /** In every interleaving, each Dequeue that is let in returns an item, but for one in progress, whatever CAS it
      loses. */
  lemma {:induction false} AdmittedReturn(s: State, mvs: seq<Move>, p: Tid)
    requires Inv(s) && Legal(s, mvs) && SparesAll(s, mvs) && p in s.thr
    ensures p in Play(s, mvs).thr
    ensures |ReturnedBy(s, mvs, p)| + Bit(Serving(Play(s, mvs).thr[p]))
            == Bit(Serving(s.thr[p])) + Admitted(s, mvs, p)
    decreases |mvs|
  {
    hide Global, Ok, Exec, Enabled, Serving, ReturnedIn, AdmittedIn;
    if mvs != [] {
      ServeLedger(s, mvs[0], p);
      KeepsInv(s, mvs[0]);
      AdmittedReturn(Step(s, mvs[0]), mvs[1..], p);
    }
  }

  // ---- A call that runs alone ----

  /** In a run of one thread, what is linked and unlinked is what that thread links and unlinks. */
  lemma {:induction false} AloneLogs(s: State, mvs: seq<Move>, t: Tid)
    requires Legal(s, mvs) && forall i :: 0 <= i < |mvs| ==> mvs[i].t == t
    ensures Play(s, mvs).m.enq == s.m.enq + LinkedBy(s, mvs, t)
    ensures Play(s, mvs).m.deq == s.m.deq + TakenBy(s, mvs, t)
    decreases |mvs|
  {
    hide Exec, Enabled, LinkedIn, TakenIn;
    if mvs != [] {
      var mv, rest, s' := mvs[0], mvs[1..], Step(s, mvs[0]);
      StepGrows(s, mv);
      assert forall i :: 0 <= i < |rest| ==> rest[i] == mvs[i + 1];
      AloneLogs(s', rest, t);
      Assoc(s.m.enq, LinkedIn(s, mv, t), LinkedBy(s', rest, t));
      Assoc(s.m.deq, TakenIn(s, mv, t), TakenBy(s', rest, t));
    }
  }

  lemma StepGrows(s: State, mv: Move)
    requires Can(s, mv)
    ensures Step(s, mv).m.enq == s.m.enq + LinkedIn(s, mv, mv.t) && Step(s, mv).m.deq == s.m.deq + TakenIn(s, mv, mv.t)
  {
  }

  lemma {:induction false} NothingAsked(s: State, mvs: seq<Move>, t: Tid)
    requires Legal(s, mvs) && Alone(mvs, t)
    ensures Given(mvs, t) == [] && Admitted(s, mvs, t) == 0
    decreases |mvs|
  {
    hide Exec, Enabled, Lag;
    if mvs != [] {
      assert mvs[0].t == t && mvs[0].act.Go?;
      var rest := mvs[1..];
      assert forall i :: 0 <= i < |rest| ==> rest[i] == mvs[i + 1];
      NothingAsked(Step(s, mvs[0]), rest, t);
    }
  }

  /** What a thread alone does until it is back at its caller: it links the item of its Enqueue and returns and unlinks
      one item if it was serving a Dequeue. */
  lemma AloneOutcome(s: State, mvs: seq<Move>, t: Tid)
    requires Inv(s) && t in s.thr && Returns(s, mvs, t)
    ensures var q := Play(s, mvs);
            && q.m.enq == s.m.enq + Enqueued(s.thr[t])
            && Owed(s.thr[t]) + Grown(s.m.deq, q.m.deq) == ReturnedBy(s, mvs, t)
            && |ReturnedBy(s, mvs, t)| == Bit(Serving(s.thr[t]))
            && s.m.deq <= q.m.deq
  {
    assert Legal(s, mvs) && SparesAll(s, mvs) && Alone(mvs, t) && t in Play(s, mvs).thr && Play(s, mvs).thr[t] == Idle;
    assert forall i :: 0 <= i < |mvs| ==> mvs[i].t == t;
    IdleBooks();
    hide *;
    AloneLogs(s, mvs, t);
    LinksWhatWasGiven(s, mvs, t);
    ReturnsWhatWasTaken(s, mvs, t);
    AdmittedReturn(s, mvs, t);
    NothingAsked(s, mvs, t);
    assert Enqueued(s.thr[t]) + [] == Enqueued(s.thr[t]);
    assert LinkedBy(s, mvs, t) + [] == LinkedBy(s, mvs, t);
    assert ReturnedBy(s, mvs, t) + [] == ReturnedBy(s, mvs, t);
    GrownBy(s.m.deq, TakenBy(s, mvs, t));
  }

  lemma IdleBooks()
    ensures Enqueued(Idle) == [] && Owed(Idle) == [] && !Serving(Idle) && Bit(false) == 0
  {
  }

  lemma GrownBy(before: seq<Item>, more: seq<Item>)
    ensures Grown(before, before + more) == more
  {
  }

  /** An Enqueue that is called in any reachable state and runs alone is over within ALONE + 1 steps and has added its
      argument at the end. */
  lemma EnqueueAlone(s: State, t: Tid, v: Item) returns (mvs: seq<Move>)
    requires Inv(s) && t in s.thr && s.thr[t].Idle?
    ensures var s1 := Step(s, Move(t, Enqueue(v)));
            && Returns(s1, mvs, t) && |mvs| <= ALONE
            && Play(s1, mvs).m.enq == s.m.enq + [v] && Play(s1, mvs).m.deq == s.m.deq
  {
    var call := Move(t, Enqueue(v));
    KeepsInv(s, call);
    var s1 := Step(s, call);
    assert s1.thr[t] == EAlloc(v) && s1.m.enq == s.m.enq && s1.m.deq == s.m.deq;
    hide Inv, Returns, Step;
    mvs := Completes(s1, t);
    LinkedLast(s1, mvs, t, v);
  }

  lemma LinkedLast(s: State, mvs: seq<Move>, t: Tid, v: Item)
    requires Inv(s) && t in s.thr && s.thr[t] == EAlloc(v) && Returns(s, mvs, t)
    ensures Play(s, mvs).m.enq == s.m.enq + [v] && Play(s, mvs).m.deq == s.m.deq
  {
    AloneOutcome(s, mvs, t);
    assert Enqueued(EAlloc(v)) == [v] && Bit(Serving(EAlloc(v))) == 0 && Owed(EAlloc(v)) == [];
    var q := Play(s, mvs);
    hide *;
    assert [] + Grown(s.m.deq, q.m.deq) == [];
    GrownIs(s.m.deq, q.m.deq);
  }

  /** A Dequeue that is called in any reachable state in which it is not refused, and runs alone, is over within
      ALONE + 1 steps; it has taken and returned the oldest item not yet dequeued. */
  lemma DequeueAlone(s: State, t: Tid) returns (mvs: seq<Move>)
    requires Inv(s) && t in s.thr && s.thr[t].Idle? && |s.m.chain| - 1 > Lag(s.thr)
    ensures var s1 := Step(s, Move(t, Dequeue));
            && Returns(s1, mvs, t) && |mvs| <= ALONE
            && |s.m.deq| < |s.m.enq| && Play(s1, mvs).m.enq == s.m.enq
            && var x := s.m.enq[|s.m.deq|];
               Play(s1, mvs).m.deq == s.m.deq + [x] && ReturnedBy(s1, mvs, t) == [x]
  {
    var call := Move(t, Dequeue);
    KeepsInv(s, call);
    RefusedIff(s, t);
    var s1 := Step(s, call);
    assert s1.thr[t] == DTag && s1.m.enq == s.m.enq && s1.m.deq == s.m.deq;
    hide Inv, Returns, Step;
    mvs := Completes(s1, t);
    ServedOldest(s1, mvs, t);
  }

  lemma ServedOldest(s: State, mvs: seq<Move>, t: Tid)
    requires Inv(s) && t in s.thr && s.thr[t] == DTag && Returns(s, mvs, t)
    ensures var q := Play(s, mvs);
            && |s.m.deq| < |s.m.enq| && q.m.enq == s.m.enq
            && q.m.deq == s.m.deq + [s.m.enq[|s.m.deq|]] && ReturnedBy(s, mvs, t) == [s.m.enq[|s.m.deq|]]
  {
    AloneOutcome(s, mvs, t);
    EndsSound(s, mvs, t);
    var q := Play(s, mvs);
    PrefixOf(q);
    hide *;
    assert Enqueued(DTag) == [] && Owed(DTag) == [] && Bit(Serving(DTag)) == 1 by { AtTag(); }
    assert s.m.enq + [] == s.m.enq;
    var g := ReturnedBy(s, mvs, t);
    assert [] + Grown(s.m.deq, q.m.deq) == g;
    GrownIs(s.m.deq, q.m.deq);
    assert q.m.deq[|s.m.deq|] == g[0] && g == [g[0]];
    assert q.m.deq[|s.m.deq|] == q.m.enq[|s.m.deq|];
  }

  lemma AtTag()
    ensures Enqueued(DTag) == [] && Owed(DTag) == [] && Bit(Serving(DTag)) == 1
  {
  }

  lemma GrownIs(before: seq<Item>, after: seq<Item>)
    requires before <= after
    ensures after == before + Grown(before, after)
  {
  }

  lemma EndsSound(s: State, mvs: seq<Move>, t: Tid)
    requires Inv(s) && Returns(s, mvs, t)
    ensures Inv(Play(s, mvs))
  {
    Reachable(s, mvs);
  }

  lemma PrefixOf(s: State)
    requires Inv(s)
    ensures s.m.deq <= s.m.enq
  {
    assert Fifo(s.m.data, s.m.chain, s.m.enq, s.m.deq);
    hide Linked;
  }
}
