/** What a byte ring holds, and what it means to push and pop, independent of how CRingBuffer computes it. */
module Ring {
  import opened Bytes

  /** The storage and the two indices. One cell is always left empty. */
  datatype Ring = Ring(cells: seq<byte>, front: nat, rear: nat) {
    ghost predicate Valid() {
      front < |cells| && rear < |cells|
    }
  }

  function Min(a: int, b: int): int { if a < b then a else b }

  function Wrap(x: nat, size: nat): nat
    requires x < 2 * size
  {
    if x < size then x else x - size
  }

  function Used(front: nat, rear: nat, size: nat): nat
    requires front < size
  {
    if front <= rear then rear - front else rear + size - front
  }

  function Room(front: nat, rear: nat, size: nat): int
    requires front < size
  {
    size - 1 - Used(front, rear, size)
  }

  /** How many steps forward from index `from` to index `i`. */
  function Steps(from: nat, i: nat, size: nat): nat
    requires from < size
  {
    if i >= from then i - from else i + size - from
  }

  /** The bytes in the ring, oldest first. */
  ghost function Contents(r: Ring): (s: seq<byte>)
    requires r.Valid()
    ensures |s| == Used(r.front, r.rear, |r.cells|)
  {
    seq(Used(r.front, r.rear, |r.cells|),
        k requires 0 <= k < Used(r.front, r.rear, |r.cells|) => r.cells[Wrap(r.front + k, |r.cells|)])
  }

  /** Writing `d` in the cells that start at the rear. */
  ghost function Written(cells: seq<byte>, rear: nat, d: seq<byte>): (s: seq<byte>)
    requires rear < |cells|
    ensures |s| == |cells|
  {
    seq(|cells|, i requires 0 <= i < |cells| =>
      if Steps(rear, i, |cells|) < |d| then d[Steps(rear, i, |cells|)] else cells[i])
  }

  ghost function Pushed(r: Ring, d: seq<byte>): Ring
    requires r.Valid() && |d| <= Room(r.front, r.rear, |r.cells|)
  {
    Ring(Written(r.cells, r.rear, d), r.front, Wrap(r.rear + |d|, |r.cells|))
  }

  ghost function Popped(r: Ring, n: nat): Ring
    requires r.Valid() && n <= Used(r.front, r.rear, |r.cells|)
  {
    r.(front := Wrap(r.front + n, |r.cells|))
  }

  /** Pushing appends and touches no byte that is in the ring. */
  lemma PushAppends(r: Ring, d: seq<byte>)
    requires r.Valid() && |d| <= Room(r.front, r.rear, |r.cells|)
    ensures Pushed(r, d).Valid() && Contents(Pushed(r, d)) == Contents(r) + d
  {
    var q, size := Pushed(r, d), |r.cells|;
    var n := Used(r.front, r.rear, size);
    assert Used(q.front, q.rear, size) == n + |d|;
    forall k | 0 <= k < n + |d| ensures Contents(q)[k] == (Contents(r) + d)[k] {
      var i := Wrap(r.front + k, size);
      assert Steps(r.rear, i, size) == if k < n then k + size - n else k - n;
    }
  }

  /** Popping removes from the front. */
  lemma PopRemoves(r: Ring, n: nat)
    requires r.Valid() && n <= Used(r.front, r.rear, |r.cells|)
    ensures Popped(r, n).Valid() && Contents(Popped(r, n)) == Contents(r)[n..]
  {
    var q, size := Popped(r, n), |r.cells|;
    forall k | 0 <= k < Used(q.front, q.rear, size) ensures Contents(q)[k] == Contents(r)[n..][k] {
      assert Wrap(q.front + k, size) == Wrap(r.front + (n + k), size);
    }
  }

  // ---- The same in slices, as memcpy sees it ----

  /** `s` with the bytes `d` copied over it at `at`. */
  function Spliced(s: seq<byte>, at: nat, d: seq<byte>): (r: seq<byte>)
    requires at + |d| <= |s|
    ensures |r| == |s|
  {
    s[..at] + d + s[at + |d|..]
  }

  /** A write that fits before the end is one copy; one that does not is two. */
  lemma WrittenInOne(cells: seq<byte>, rear: nat, d: seq<byte>)
    requires rear < |cells| && rear + |d| <= |cells|
    ensures Written(cells, rear, d) == Spliced(cells, rear, d)
  {
  }

  lemma WrittenInTwo(cells: seq<byte>, rear: nat, d: seq<byte>)
    requires rear < |cells| && |cells| <= rear + |d| && |d| <= |cells|
    ensures var k := |cells| - rear;
            Written(cells, rear, d) == Spliced(Spliced(cells, rear, d[..k]), 0, d[k..])
  {
  }

  /** Reading from the front: one slice, or two when the stretch wraps. */
  lemma ContentsInOne(r: Ring, m: nat)
    requires r.Valid() && m <= Used(r.front, r.rear, |r.cells|) && r.front + m <= |r.cells|
    ensures Contents(r)[..m] == r.cells[r.front..r.front + m]
  {
    forall k | 0 <= k < m ensures Contents(r)[..m][k] == r.cells[r.front..r.front + m][k] {
      assert Contents(r)[k] == r.cells[Wrap(r.front + k, |r.cells|)];
    }
  }

  lemma ContentsInTwo(r: Ring, m: nat)
    requires r.Valid() && m <= Used(r.front, r.rear, |r.cells|) && |r.cells| <= r.front + m
    ensures Contents(r)[..m] == r.cells[r.front..] + r.cells[..r.front + m - |r.cells|]
  {
    forall k | 0 <= k < m ensures Contents(r)[..m][k] == (r.cells[r.front..] + r.cells[..r.front + m - |r.cells|])[k] {
      assert Contents(r)[k] == r.cells[Wrap(r.front + k, |r.cells|)];
    }
  }

  lemma SplicedTwice(s: seq<byte>, at: nat, a: seq<byte>, b: seq<byte>)
    requires at + |a| + |b| <= |s|
    ensures Spliced(Spliced(s, at, a), at + |a|, b) == Spliced(s, at, a + b)
  {
  }

  /** The two stretches handed to a scatter read, from the write pointer and from the start of the buffer, are
      exactly the free cells; likewise the two stretches that a read sees are exactly the used ones. */
  lemma SegmentsCover(r: Ring, i: nat)
    requires r.Valid() && i < |r.cells|
    ensures var room := Room(r.front, r.rear, |r.cells|);
            var first := Min(room, |r.cells| - r.rear);
            Steps(r.rear, i, |r.cells|) < room <==> r.rear <= i < r.rear + first || i < room - first
    ensures var used := Used(r.front, r.rear, |r.cells|);
            var first := Min(used, |r.cells| - r.front);
            Steps(r.front, i, |r.cells|) < used <==> r.front <= i < r.front + first || i < used - first
    ensures Steps(r.front, i, |r.cells|) < Used(r.front, r.rear, |r.cells|)
            ==> Steps(r.rear, i, |r.cells|) >= Room(r.front, r.rear, |r.cells|)
  {
  }
}
