/** What was asked and what was done, matched over a run. */
module Ledger {

  /** One step's books and the books of the rest of a run make the books of the whole run: `done` and `asked` belong
      to the step, which goes from `start` to `mid` underway, and `more` and `rest` to what follows, which ends at
      `end`. */
  lemma Carry<T>(done: seq<T>, mid: seq<T>, start: seq<T>, asked: seq<T>, more: seq<T>, rest: seq<T>, end: seq<T>)
    requires done + mid == start + asked && more + end == mid + rest
    ensures (done + more) + end == start + (asked + rest)
  {
    assert (done + more) + end == done + (more + end);
    assert done + (mid + rest) == (done + mid) + rest;
    assert (start + asked) + rest == start + (asked + rest);
  }

  lemma Assoc<T>(a: seq<T>, b: seq<T>, c: seq<T>)
    ensures (a + b) + c == a + (b + c)
  {
  }
}
