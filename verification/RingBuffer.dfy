/** CRingBuffer over its array. */
module RingBuffer {
  import opened Bytes
  import opened Ring

  /** memcpy into an array. */
  method CopyIn(dst: array<byte>, at: nat, src: seq<byte>)
    requires at + |src| <= dst.Length
    modifies dst
    ensures dst[..] == Spliced(old(dst[..]), at, src)
  {
    forall i | at <= i < at + |src| { dst[i] := src[i - at]; }
  }

  /** The two copies of a wrapping write make the write. */
  lemma WriteBoth(r: Ring, data: seq<byte>, first: nat, second: nat)
    requires r.Valid() && first + second <= |data| && r.rear + first <= |r.cells| && second <= |r.cells|
    requires r.rear + first == |r.cells| || second == 0
    requires first + second <= |r.cells|
    ensures Spliced(Spliced(r.cells, r.rear, data[..first]), 0, data[first..first + second])
            == Written(r.cells, r.rear, data[..first + second])
  {
    hide Written;
    var d := data[..first + second];
    assert d[..first] == data[..first] && d[first..] == data[first..first + second];
    if r.rear + first == |r.cells| {
      WrittenInTwo(r.cells, r.rear, d);
    } else {
      assert d == data[..first];
      WrittenInOne(r.cells, r.rear, d);
    }
  }

  /** The two copies of a wrapping read deliver the contents in order. */
  lemma ReadBoth(r: Ring, dst: seq<byte>, at: nat, first: nat, second: nat)
    requires r.Valid() && r.front + first == |r.cells| && second <= |r.cells|
    requires first + second <= Used(r.front, r.rear, |r.cells|) && at + first + second <= |dst|
    ensures Spliced(Spliced(dst, at, r.cells[r.front..r.front + first]), at + first, r.cells[..second])
            == Spliced(dst, at, Contents(r)[..first + second])
  {
    ContentsInTwo(r, first + second);
    SplicedTwice(dst, at, r.cells[r.front..r.front + first], r.cells[..second]);
  }

  lemma SameIndices(r: Ring, cells: seq<byte>, data: seq<byte>)
    requires r.Valid() && |cells| == |r.cells|
    ensures |Contents(r.(cells := cells))| == |Contents(r)|
  {
  }

  class CRingBuffer {
    var buffer: array<byte>
    var size: int
    var front: int
    var rear: int

    ghost predicate Valid()
      reads this
    {
      && size == buffer.Length >= 1
      && 0 <= front < size && 0 <= rear < size
    }

    ghost function Model(): (r: Ring)
      reads this, buffer
      requires Valid()
      ensures r.Valid()
    {
      Ring(buffer[..], front, rear)
    }

    /** The bytes in the buffer, oldest first. */
    ghost function Bytes(): seq<byte>
      reads this, buffer
      requires Valid()
    {
      Contents(Model())
    }

    constructor (bufferSize: int)
      requires bufferSize >= 1
      ensures Valid() && fresh(buffer) && size == bufferSize && front == 0 && rear == 0
      ensures Bytes() == []
    {
      buffer := new byte[bufferSize](_ => 0);
      size := bufferSize;
      front := 0;
      rear := 0;
    }

    method Clear()
      requires Valid()
      modifies this`front, this`rear, buffer
      ensures Valid() && Bytes() == [] && front == rear == 0 && forall i :: 0 <= i < size ==> buffer[i] == 0
    {
      forall i | 0 <= i < size { buffer[i] := 0; }
      front := 0;
      rear := 0;
    }

    method GetFreeSize() returns (n: int)
      requires Valid()
      ensures 0 <= n == size - 1 - |Bytes()|
    {
      var f := front;
      if f <= rear {
        n := size - rear + f - 1;
      } else {
        n := f - rear - 1;
      }
    }

    method GetUseSize() returns (n: int)
      requires Valid()
      ensures n == |Bytes()|
    {
      var r := rear;
      if front <= r {
        n := r - front;
      } else {
        n := r + size - front;
      }
    }

    /** The longest stretch from the write pointer that is free and does not wrap. */
    method GetNotBrokenPushSize() returns (n: int)
      requires Valid()
      ensures n == Min(size - 1 - |Bytes()|, size - rear)
    {
      var f := front;
      if f <= rear {
        if 0 == f {
          n := size - rear - 1;
        } else {
          n := size - rear;
        }
      } else {
        n := f - rear - 1;
      }
    }

    /** The longest stretch from the read pointer that is used and does not wrap. */
    method GetNotBrokenPopSize() returns (n: int)
      requires Valid()
      ensures n == Min(|Bytes()|, size - front)
    {
      var r := rear;
      if front <= r {
        n := r - front;
      } else {
        n := size - front;
      }
    }

    /** The copying form appends the first min(n, free) bytes of the caller's data. */
    method Enqueue(data: seq<byte>, n: int) returns (m: int)
      requires Valid() && 0 <= n <= |data|
      modifies this`rear, buffer
      ensures Valid() && 0 <= m == Min(n, size - 1 - |old(Bytes())|)
      ensures Model() == Pushed(old(Model()), data[..m])
      ensures Bytes() == old(Bytes()) + data[..m]
    {
      hide Contents, Spliced, Written;
      m := n;
      var destPos := rear + m;
      var f := front;
      ghost var r0 := Model();
      if f <= rear {
        if destPos < size {
          CopyIn(buffer, rear, data[..m]);
          WrittenInOne(r0.cells, r0.rear, data[..m]);
          rear := rear + m;
        } else {
          var firstSize := size - rear;
          var secondSize := destPos - size;
          var newRear;
          if f <= secondSize {
            if 0 == f {
              m := m - (secondSize + 1);
              secondSize := 0;
              firstSize := firstSize - 1;
              newRear := rear + firstSize;
            } else {
              secondSize := f - 1;
              m := firstSize + secondSize;
              newRear := secondSize;
            }
          } else {
            newRear := secondSize;
          }
          CopyIn(buffer, rear, data[..firstSize]);
          CopyIn(buffer, 0, data[firstSize..firstSize + secondSize]);
          WriteBoth(r0, data, firstSize, secondSize);
          rear := newRear;
        }
      } else {
        if f <= destPos {
          m := m - ((destPos - f) + 1);
        }
        CopyIn(buffer, rear, data[..m]);
        WrittenInOne(r0.cells, r0.rear, data[..m]);
        rear := rear + m;
      }
      PushAppends(r0, data[..m]);
    }

    /** The index form, for data already written in place. */
    method EnqueueIndex(n: int) returns (m: int)
      requires Valid() && 0 <= n
      modifies this`rear
      ensures Valid() && 0 <= m == Min(n, size - 1 - |old(Bytes())|)
      ensures rear == Wrap(old(rear) + m, size)
    {
      m := n;
      var destPos := rear + m;
      var f := front;
      if f <= rear {
        if destPos < size {
          rear := rear + m;
        } else {
          var firstSize := size - rear;
          var secondSize := destPos - size;
          var newRear;
          if f <= secondSize {
            if 0 == f {
              m := m - (secondSize + 1);
              secondSize := 0;
              firstSize := firstSize - 1;
              newRear := rear + firstSize;
            } else {
              secondSize := f - 1;
              m := firstSize + secondSize;
              newRear := secondSize;
            }
          } else {
            newRear := secondSize;
          }
          rear := newRear;
        }
      } else {
        if f <= destPos {
          m := m - ((destPos - f) + 1);
        }
        rear := rear + m;
      }
    }

    /** The copies that Dequeue and Peek make: one, or two when the stretch wraps. */
    method CopyStraight(dst: array<byte>, at: nat, n: nat)
      requires Valid() && dst != buffer && n <= |Bytes()| && front + n <= size && at + n <= dst.Length
      modifies dst
      ensures dst[..] == Spliced(old(dst[..]), at, Bytes()[..n])
    {
      hide Contents, Spliced;
      ContentsInOne(Model(), n);
      CopyIn(dst, at, buffer[front..front + n]);
    }

    method CopyWrapped(dst: array<byte>, at: nat, first: nat, second: nat)
      requires Valid() && dst != buffer && front + first == size && second < size
      requires first + second <= |Bytes()| && at + first + second <= dst.Length
      modifies dst
      ensures dst[..] == Spliced(old(dst[..]), at, Bytes()[..first + second])
    {
      hide Contents, Spliced;
      ReadBoth(Model(), dst[..], at, first, second);
      CopyIn(dst, at, buffer[front..front + first]);
      CopyIn(dst, at + first, buffer[..second]);
    }

    /** The copying form removes the first min(n, used) bytes and puts them in the caller's buffer. */
    method Dequeue(dst: array<byte>, at: nat, n: int) returns (m: int)
      requires Valid() && 0 <= n && dst != buffer && at + Min(n, |Bytes()|) <= dst.Length
      modifies this`front, dst
      ensures Valid() && 0 <= m == Min(n, |old(Bytes())|)
      ensures Model() == Popped(old(Model()), m)
      ensures dst[..] == Spliced(old(dst[..]), at, old(Bytes())[..m]) && Bytes() == old(Bytes())[m..]
    {
      hide Contents, Spliced, Written;
      m := n;
      var destPos := front + m;
      var r := rear;
      ghost var r0 := Model();
      if front <= r {
        if r < destPos {
          m := m - (destPos - r);
        }
        CopyStraight(dst, at, m);
        front := front + m;
      } else {
        if destPos < size {
          CopyStraight(dst, at, m);
          front := front + m;
        } else {
          var firstSize := size - front;
          var secondSize := destPos - size;
          if r < secondSize {
            secondSize := r;
            m := firstSize + secondSize;
          }
          CopyWrapped(dst, at, firstSize, secondSize);
          front := secondSize;
        }
      }
      PopRemoves(r0, m);
    }

    /** The index form. */
    method DequeueIndex(n: int) returns (m: int)
      requires Valid() && 0 <= n
      modifies this`front
      ensures Valid() && 0 <= m == Min(n, |old(Bytes())|)
      ensures Model() == Popped(old(Model()), m) && Bytes() == old(Bytes())[m..]
    {
      m := n;
      var destPos := front + m;
      var r := rear;
      ghost var r0 := Model();
      if front <= r {
        if r < destPos {
          m := m - (destPos - r);
        }
        front := front + m;
      } else {
        if destPos < size {
          front := front + m;
        } else {
          var firstSize := size - front;
          var secondSize := destPos - size;
          if r < secondSize {
            secondSize := r;
            m := firstSize + secondSize;
          }
          front := secondSize;
        }
      }
      PopRemoves(r0, m);
    }

    /** The prefix that Dequeue would deliver, with the buffer unchanged. */
    method Peek(dst: array<byte>, at: nat, n: int) returns (m: int)
      requires Valid() && 0 <= n && dst != buffer && at + Min(n, |Bytes()|) <= dst.Length
      modifies dst
      ensures 0 <= m == Min(n, |Bytes()|) && dst[..] == Spliced(old(dst[..]), at, Bytes()[..m])
    {
      hide Contents, Spliced, Written;
      var used := GetUseSize();
      m := Min(n, used);
      var destPos := front + m;
      if front <= rear {
        CopyStraight(dst, at, m);
      } else {
        if destPos < size {
          CopyStraight(dst, at, m);
        } else {
          var firstSize := size - front;
          var secondSize := destPos - size;
          CopyWrapped(dst, at, firstSize, secondSize);
        }
      }
    }

    /** In-place access, as the server posts a receive: the data fills the stretch at the write pointer and then the
        one at the start of the buffer, and the index form records it. The result is the copying form's. */
    method Receive(data: seq<byte>)
      requires Valid() && |data| <= size - 1 - |Bytes()|
      modifies this`rear, buffer
      ensures Valid() && Model() == Pushed(old(Model()), data)
      ensures Bytes() == old(Bytes()) + data
    {
      hide Contents, Spliced, Written;
      ghost var r0 := Model();
      var freeSize := GetFreeSize();
      var notBroken := GetNotBrokenPushSize();
      if |data| <= notBroken {
        CopyIn(buffer, rear, data);
        WrittenInOne(r0.cells, r0.rear, data);
      } else {
        CopyIn(buffer, rear, data[..notBroken]);
        CopyIn(buffer, 0, data[notBroken..]);
        WrittenInTwo(r0.cells, r0.rear, data);
      }
      PushAppends(r0, data);
      SameIndices(r0, buffer[..], data);
      var m := EnqueueIndex(|data|);
    }

    /** In-place reading: the unbroken stretch at the read pointer is what Dequeue would copy. */
    method Consume(k: int) returns (data: seq<byte>)
      requires Valid() && 0 <= k <= Min(|Bytes()|, size - front)
      modifies this`front
      ensures Valid() && data == old(Bytes())[..k] && Model() == Popped(old(Model()), k)
    {
      ContentsInOne(Model(), k);
      data := buffer[front..front + k];
      var m := DequeueIndex(k);
    }
  }
}
