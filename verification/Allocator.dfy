/** What a client may rely on from a pool: an issued item is not issued again until it is given back. */
module Allocator {

  datatype Event<T> = Stutter | Issue(n: T) | Retire(n: T)

  ghost predicate Follows<T>(live: set<T>, live': set<T>, e: Event<T>) {
    match e
    case Stutter => live' == live
    case Issue(n) => n !in live && live' == live + {n}
    case Retire(n) => n in live && live' == live - {n}
  }

  /** A history of events from `live` to `live'`. */
  ghost predicate History<T(!new)>(live: set<T>, es: seq<Event<T>>, live': set<T>)
    decreases |es|
  {
    if es == [] then live == live'
    else exists mid :: Follows(live, mid, es[0]) && History(mid, es[1..], live')
  }

  ghost function Issues<T>(es: seq<Event<T>>, n: T): nat {
    if es == [] then 0 else (if es[0] == Issue(n) then 1 else 0) + Issues(es[1..], n)
  }

  ghost function Retires<T>(es: seq<Event<T>>, n: T): nat {
    if es == [] then 0 else (if es[0] == Retire(n) then 1 else 0) + Retires(es[1..], n)
  }

  /** Over any history an item is issued once more than it is retired, or equally often. */
  lemma {:induction false} Balance<T(!new)>(live: set<T>, es: seq<Event<T>>, live': set<T>, n: T)
    requires History(live, es, live')
    ensures Issues(es, n) - Retires(es, n) == (if n in live' then 1 else 0) - (if n in live then 1 else 0)
    decreases |es|
  {
    if es != [] {
      var mid :| Follows(live, mid, es[0]) && History(mid, es[1..], live');
      Balance(mid, es[1..], live', n);
    }
  }
}
