/** The index queues of data/types.c and include/data/types.h. */
module Rings {
  import opened Words

  /** A push is taken when the index is one of 1..size and the queue is not full. */
  predicate PushOk(size: nat, q: seq<nat>, x: int)
  {
    1 <= x <= size && |q| < size
  }

  /** The contents of a queue after a push: a rejected push changes nothing. */
  function Pushed(size: nat, q: seq<nat>, x: int): seq<nat>
  {
    if PushOk(size, q, x) then q + [x] else q
  }

  /** The indices 1..n in increasing order. */
  function UpTo(n: nat): (q: seq<nat>)
    ensures |q| == n && forall i :: 0 <= i < n ==> q[i] == i + 1
  {
    seq(n, (i: nat) => i + 1)
  }

  /** The macro `circle_forward`. */
  function CircleForward(v: nat, size: nat): nat
  {
    if v + 1 >= size then 0 else v + 1
  }

  /** The slot `count` places after `head`. */
  function Slot(size: nat, head: nat, count: nat): nat
  {
    if head + count < size then head + count else head + count - size
  }

  /** `q` is laid out in the ring buffer `data` from `head` on. */
  predicate LaidOut<T(==)>(data: seq<T>, head: nat, q: seq<T>)
  {
    && |q| <= |data|
    && (head < |data| || head == |q| == 0)
    && forall i :: 0 <= i < |q| ==> q[i] == data[Slot(|data|, head, i)]
  }

  predicate InRange(q: seq<nat>, n: nat)
  {
    forall i :: 0 <= i < |q| ==> 1 <= q[i] <= n
  }

  lemma RangeOfTail(x: nat, q: seq<nat>, n: nat)
    requires InRange([x] + q, n)
    ensures 1 <= x <= n && InRange(q, n)
  {
    assert ([x] + q)[0] == x;
    forall i | 0 <= i < |q|
      ensures 1 <= q[i] <= n
    {
      assert ([x] + q)[i + 1] == q[i];
    }
  }

  /** The tail is the head plus the count, modulo the size. */
  lemma TailIsSum(size: nat, head: nat, count: nat)
    requires head < size && count <= size
    ensures Slot(size, head, count) == (head + count) % size
  {
    if head + count < size {
      Remainder(head + count, size, 0, head + count);
    } else {
      Remainder(head + count, size, 1, head + count - size);
    }
  }

  /** A call of `push_index` or `pop_index`. */
  datatype Request = Push(x: nat) | Pop

  /** The contents of a queue, and what it has accepted and handed out. */
  datatype History = History(contents: seq<nat>, accepted: seq<nat>, taken: seq<nat>)

  function Served(h: History, r: Request, size: nat): History
  {
    match r
    case Push(x) => h.(contents := Pushed(size, h.contents, x),
                       accepted := if PushOk(size, h.contents, x) then h.accepted + [x] else h.accepted)
    case Pop => if h.contents == [] then h else h.(contents := h.contents[1..], taken := h.taken + [h.contents[0]])
  }

  function ServedAll(h: History, rs: seq<Request>, size: nat): History
    decreases |rs|
  {
    if rs == [] then h else ServedAll(Served(h, rs[0], size), rs[1..], size)
  }

  /** Indices leave in the order in which they were accepted, and none is lost or duplicated. */
  lemma {:induction false} FirstInFirstOut(h: History, rs: seq<Request>, size: nat)
    requires h.accepted == h.taken + h.contents && |h.contents| <= size
    ensures var e := ServedAll(h, rs, size); e.accepted == e.taken + e.contents && |e.contents| <= size
    decreases |rs|
  {
    if rs != [] {
      if rs[0].Pop? && h.contents != [] {
        assert h.contents == [h.contents[0]] + h.contents[1..];
      }
      FirstInFirstOut(Served(h, rs[0], size), rs[1..], size);
    }
  }

  /** `struct index_queue`; `contents` is what it holds, oldest first. */
  class IndexQueue {
    var size: nat
    var count: nat
    var tail: nat
    var head: nat
    const indices: array<nat>
    ghost var contents: seq<nat>

    ghost predicate Valid()
      reads this, indices
      ensures Valid() ==> |contents| == count <= size && InRange(contents, size)
    {
      && size == indices.Length
      && count <= size
      && (size > 0 ==> head < size && tail == Slot(size, head, count))
      && (size == 0 ==> head == tail == 0)
      && |contents| == count
      && LaidOut(indices[..], head, contents)
      && InRange(contents, size)
    }

    /** `init_queue` on a buffer of `n` slots. */
    constructor (n: nat)
      ensures Valid() && fresh(this.indices) && size == n && contents == []
    {
      indices := new nat[n](_ => 0);
      size := n;
      count, tail, head := 0, 0, 0;
      contents := [];
    }

    method PushIndex(index: nat) returns (r: int)
      requires Valid()
      modifies this, indices
      ensures Valid() && size == old(size)
      ensures contents == Pushed(size, old(contents), index)
      ensures r == if PushOk(size, old(contents), index) then index else -1
      ensures head == old(head)
    {
      if index <= 0 || index > size {
        return -1;
      } else if count >= size {
        return -1;
      }
      indices[tail] := index;
      tail := CircleForward(tail, size);
      count := count + 1;
      contents := contents + [index];
      return index;
    }

    method PopIndex() returns (r: int)
      requires Valid()
      modifies this
      ensures Valid() && size == old(size)
      ensures old(contents) == [] ==> r == -1 && contents == [] && head == old(head)
      ensures old(contents) != [] ==>
                && r == old(contents)[0] && contents == old(contents)[1..]
                && head == CircleForward(old(head), size)
    {
      if count == 0 {
        return -1;
      }
      r := indices[head];
      head := CircleForward(head, size);
      count := count - 1;
      contents := contents[1..];
    }

    /** A cursor `i` places after the head, before and after it moves on. */
    lemma Cursor(i: nat)
      requires Valid() && i < count
      ensures Slot(size, head, i) < indices.Length && indices[Slot(size, head, i)] == contents[i]
      ensures CircleForward(Slot(size, head, i), size) == Slot(size, head, i + 1)
      ensures Slot(size, head, i + 1) == Slot(size, CircleForward(head, size), i)
    {
    }

    /** `MARK_ALL_FREE`: on an empty queue it leaves the indices 1..size in order. */
    method MarkAllFree()
      requires Valid()
      modifies this, indices
      ensures Valid() && size == old(size)
      ensures old(contents) == [] ==> contents == UpTo(size)
    {
      var i := 0;
      while i < size
        invariant Valid() && size == old(size) && i <= size
        invariant old(contents) == [] ==> contents == UpTo(i)
      {
        assert UpTo(i + 1) == UpTo(i) + [i + 1];
        var _ := PushIndex(i + 1);
        i := i + 1;
      }
    }
  }

  /**
   * A list of calls on a queue that starts empty: what the calls return is recorded, it is the history
   * above, and the accepted indices are those taken followed by those still queued.
   */
  method Replay(q: IndexQueue, rs: seq<Request>) returns (accepted: seq<nat>, taken: seq<nat>)
    requires q.Valid() && q.contents == []
    modifies q, q.indices
    ensures q.Valid() && q.size == old(q.size)
    ensures ServedAll(History([], [], []), rs, q.size) == History(q.contents, accepted, taken)
    ensures accepted == taken + q.contents
  {
    accepted, taken := [], [];
    ghost var start := History([], [], []);
    var i := 0;
    assert rs[0..] == rs;
    while i < |rs|
      invariant i <= |rs| && q.Valid() && q.size == old(q.size)
      invariant ServedAll(History(q.contents, accepted, taken), rs[i..], q.size) == ServedAll(start, rs, q.size)
    {
      assert rs[i..][1..] == rs[i + 1..];
      match rs[i] {
        case Push(x) =>
          var r := q.PushIndex(x);
          if r >= 0 {
            accepted := accepted + [x];
          }
        case Pop =>
          var r := q.PopIndex();
          if r >= 0 {
            taken := taken + [r];
          }
      }
      i := i + 1;
    }
    FirstInFirstOut(start, rs, q.size);
  }
}
