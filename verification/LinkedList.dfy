/** Singly linked lists in a heap of nodes. A node is a positive number and 0 is the null pointer. */
module LinkedList {

  type Node = nat
  const NULL: Node := 0

  ghost predicate NoDup(l: seq<Node>) {
    forall i, j :: 0 <= i < j < |l| ==> l[i] != l[j]
  }

  /** The node at position `i`, or null past the end. */
  function At(l: seq<Node>, i: nat): Node {
    if i < |l| then l[i] else NULL
  }

  /** The list that starts at `top` and follows `next` is exactly `l`. */
  ghost predicate Linked(next: map<Node, Node>, top: Node, l: seq<Node>) {
    && NoDup(l)
    && top == At(l, 0)
    && forall i :: 0 <= i < |l| ==> l[i] != NULL && l[i] in next && next[l[i]] == At(l, i + 1)
  }

  lemma PushFront(next: map<Node, Node>, top: Node, l: seq<Node>, n: Node)
    requires Linked(next, top, l) && n !in l && n != NULL && n in next && next[n] == top
    ensures Linked(next, n, [n] + l)
  {
    var r := [n] + l;
    forall i | 0 <= i < |r| ensures r[i] != NULL && r[i] in next && next[r[i]] == At(r, i + 1) {
      if i > 0 {
        assert r[i] == l[i - 1] && At(r, i + 1) == At(l, i);
      } else {
        assert At(r, 1) == At(l, 0);
      }
    }
    forall i, j | 0 <= i < j < |r| ensures r[i] != r[j] {
      assert r[j] == l[j - 1] && (i > 0 ==> r[i] == l[i - 1]);
    }
  }

  lemma PopFront(next: map<Node, Node>, top: Node, l: seq<Node>)
    requires Linked(next, top, l) && |l| > 0
    ensures top in next && Linked(next, next[top], l[1..]) && top !in l[1..]
  {
    var r := l[1..];
    assert top == At(l, 0) == l[0];
    assert next[l[0]] == At(l, 1) == At(r, 0);
    forall i | 0 <= i < |r| ensures r[i] == l[i + 1] && At(r, i + 1) == At(l, i + 2) {}
  }

  lemma WriteElsewhere(next: map<Node, Node>, top: Node, l: seq<Node>, n: Node, p: Node)
    requires Linked(next, top, l) && n !in l
    ensures Linked(next[n := p], top, l)
  {
    assert forall i :: 0 <= i < |l| ==> l[i] in l;
  }

  /** A list in a heap is determined by its first node. */
  lemma {:induction false} Unique(next: map<Node, Node>, top: Node, k: seq<Node>, l: seq<Node>)
    requires Linked(next, top, k) && Linked(next, top, l)
    ensures k == l
    decreases |k|
  {
    if |k| > 0 && |l| > 0 {
      PopFront(next, top, k);
      PopFront(next, top, l);
      Unique(next, next[top], k[1..], l[1..]);
      assert k == [k[0]] + k[1..] && l == [l[0]] + l[1..];
    }
  }

  lemma {:induction false} OccursOnce(l: seq<Node>, n: Node)
    requires NoDup(l) && n in l
    ensures multiset(l)[n] == 1
  {
    assert l == [l[0]] + l[1..];
    if l[0] == n {
      assert n !in l[1..];
    } else {
      OccursOnce(l[1..], n);
    }
  }

  /** The data of the nodes of a list, in order. */
  ghost function Items<T>(data: map<Node, T>, list: seq<Node>): (r: seq<T>)
    requires forall i :: 0 <= i < |list| ==> list[i] in data
    ensures |r| == |list| && forall i :: 0 <= i < |r| ==> r[i] == data[list[i]]
  {
    if list == [] then [] else [data[list[0]]] + Items(data, list[1..])
  }

  lemma SameItems<T>(data: map<Node, T>, data': map<Node, T>, list: seq<Node>)
    requires forall i :: 0 <= i < |list| ==> list[i] in data && list[i] in data' && data[list[i]] == data'[list[i]]
    ensures Items(data, list) == Items(data', list)
  {
  }

  /** There is always a node number outside a finite set. */
  lemma Unissued(taken: set<Node>) returns (n: Node)
    ensures n !in taken
  {
    n := 0;
    var below: set<Node> := {};
    while n in taken
      invariant below <= taken && |below| == n && forall x :: x in below ==> x < n
      decreases |taken| - n
    {
      below := below + {n};
      SubsetSize(below, taken);
      n := n + 1;
    }
  }

  lemma SubsetSize(a: set<Node>, b: set<Node>)
    requires a <= b
    ensures |a| <= |b|
  {
    assert b == a + (b - a);
  }
}
