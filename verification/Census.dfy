/** Counting the threads of a machine that are at a given kind of program point. */
module Census {

  type Tid = nat

  ghost function Members<P>(thr: map<Tid, P>, at: P -> bool): set<Tid> {
    set t | t in thr && at(thr[t])
  }

  ghost function Count<P>(thr: map<Tid, P>, at: P -> bool): nat {
    |Members(thr, at)|
  }

  function Bit(b: bool): int { if b then 1 else 0 }

  /** When one thread moves, the count changes by exactly that thread's contribution. */
  lemma Moved<P>(thr: map<Tid, P>, t: Tid, q: P, at: P -> bool)
    requires t in thr
    ensures Count(thr[t := q], at) == Count(thr, at) - Bit(at(thr[t])) + Bit(at(q))
    ensures at(thr[t]) ==> Count(thr, at) >= 1
  {
    var before, after := Members(thr, at), Members(thr[t := q], at);
    assert forall x :: x != t ==> (x in before <==> x in after);
    assert t in before <==> at(thr[t]);
    assert t in after <==> at(q);
    if t in before && t !in after {
      assert after == before - {t};
    } else if t !in before && t in after {
      assert after == before + {t};
    } else {
      assert after == before;
    }
  }

  /** A fresh machine, where every thread is at the same point, counts nobody elsewhere. */
  lemma Nobody<P>(thr: map<Tid, P>, at: P -> bool)
    requires forall t :: t in thr ==> !at(thr[t])
    ensures Count(thr, at) == 0
  {
    assert Members(thr, at) == {};
  }
}
