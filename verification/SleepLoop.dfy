/** The loop of `decrement_waits` over the real rings, against its specification. */
module SleepLoop {
  import opened Rings
  import opened KernelState

  /** What the loop of `decrement_waits` still has to compute when `i` threads stay behind the cursor. */
  ghost function Pending(n: nat, i: nat, threads: seq<Tcb>, sleep: seq<nat>, ready: seq<nat>): Sleepers
    requires |threads| == n + 1 && InRange(sleep, n) && InRange(ready, n) && i <= |sleep|
  {
    KernelState.DecrementWaits(n, sleep[i..], threads, sleep, ready)
  }

  /** `!--threads[t].waiting_duration`. */
  method Tick(threads: array<Tcb>, t: nat) returns (expired: bool)
    requires t < threads.Length
    modifies threads
    ensures threads[..] == SetWaiting(old(threads[..]), t, Decremented(old(threads[t].waiting)))
    ensures expired == (threads[t].waiting == 0)
  {
    threads[t] := threads[t].(waiting := Decremented(threads[t].waiting));
    return threads[t].waiting == 0;
  }

  /** The expired thread leaves the head of the sleep ring for the ready ring, if it is at the head. */
  method Expire(t: nat, sleep: IndexQueue, ready: IndexQueue) returns (ok: bool)
    requires sleep.Valid() && ready.Valid() && sleep != ready && sleep.indices != ready.indices
    requires sleep.contents != []
    modifies sleep, ready, ready.indices
    ensures sleep.Valid() && ready.Valid() && sleep.size == old(sleep.size) && ready.size == old(ready.size)
    ensures ok == (old(sleep.contents)[0] == t)
    ensures sleep.contents == old(sleep.contents)[1..] && sleep.head == CircleForward(old(sleep.head), sleep.size)
    ensures ok ==> ready.contents == Pushed(ready.size, old(ready.contents), t)
  {
    var res := sleep.PopIndex();
    if res != t {
      return false;
    }
    var _ := ready.PushIndex(t);
    return true;
  }

  /** One turn of the loop, for the sleeper under the cursor; `j` is the new `i`. */
  method Visit(threads: array<Tcb>, sleep: IndexQueue, ready: IndexQueue, i: nat, t: nat) returns (ok: bool, j: nat)
    requires sleep.Valid() && ready.Valid() && sleep != ready && sleep.indices != ready.indices
    requires sleep.size == ready.size && threads.Length == sleep.size + 1
    requires i < sleep.count && t == sleep.contents[i]
    modifies threads, sleep, ready, ready.indices
    ensures sleep.Valid() && ready.Valid() && sleep.size == old(sleep.size) && ready.size == old(ready.size)
    ensures var before := Pending(old(sleep.size), i, old(threads[..]), old(sleep.contents), old(ready.contents));
            if ok then j <= sleep.count && Pending(sleep.size, j, threads[..], sleep.contents, ready.contents) == before
            else before == Panic
    ensures ok ==> sleep.count - j < old(sleep.count) - i
    ensures ok ==> Slot(sleep.size, sleep.head, j) == Slot(sleep.size, old(sleep.head), i + 1)
  {
    sleep.Cursor(i);
    var expired := Tick(threads, t);
    if expired {
      ok := Expire(t, sleep, ready);
      j := i;
    } else {
      ok := true;
      j := i + 1;
    }
  }

  /**
   * `decrement_waits`: the cursor `p` walks the ring while expired threads leave at its head.
   * `ok` is false when the assertion that the popped thread is the current one fails; the assertion
   * after the loop cannot fail.
   */
  method DecrementWaitsInPlace(threads: array<Tcb>, sleep: IndexQueue, ready: IndexQueue) returns (ok: bool)
    requires sleep.Valid() && ready.Valid() && sleep != ready && sleep.indices != ready.indices
    requires sleep.size == ready.size && threads.Length == sleep.size + 1
    modifies threads, sleep, ready, ready.indices
    ensures sleep.Valid() && ready.Valid() && sleep.size == old(sleep.size) && ready.size == old(ready.size)
    ensures var r := KernelState.DecrementWaits(old(sleep.size), old(sleep.contents), old(threads[..]),
                                                old(sleep.contents), old(ready.contents));
            && ok == r.Sleepers?
            && (ok ==> threads[..] == r.threads && sleep.contents == r.sleep && ready.contents == r.ready)
  {
    ghost var n := sleep.size;
    ghost var r := Pending(n, 0, threads[..], sleep.contents, ready.contents);
    var i: nat, p: nat := 0, sleep.head;
    while i < sleep.count
      invariant sleep.Valid() && ready.Valid() && sleep.size == ready.size == n
      invariant i <= sleep.count && p == Slot(n, sleep.head, i)
      invariant r == Pending(n, i, threads[..], sleep.contents, ready.contents)
      decreases sleep.count - i
    {
      sleep.Cursor(i);
      var t := sleep.indices[p];
      p := CircleForward(p, sleep.size);
      ok, i := Visit(threads, sleep, ready, i, t);
      if !ok {
        return;
      }
    }
    assert p == sleep.tail;
    return true;
  }
}
