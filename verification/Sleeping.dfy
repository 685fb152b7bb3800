/** The sleep queue: what one `decrement_waits` does, and which queues drain without a panic. */
module Sleeping {
  import opened Words
  import opened Rings
  import opened Counting
  import opened KernelState

  /** The thread table after one decrement of every thread in `q`. */
  function Ticked(ts: seq<Tcb>, q: seq<nat>): (r: seq<Tcb>)
    requires forall i :: 0 <= i < |q| ==> q[i] < |ts|
    ensures |r| == |ts|
    decreases |q|
  {
    if q == [] then ts else Ticked(SetWaiting(ts, q[0], Decremented(ts[q[0]].waiting)), q[1..])
  }

  lemma {:induction false} TickedAt(ts: seq<Tcb>, q: seq<nat>, t: nat)
    requires NoDup(q) && t < |ts| && forall i :: 0 <= i < |q| ==> q[i] < |ts|
    ensures Ticked(ts, q)[t] == if t in q then ts[t].(waiting := Decremented(ts[t].waiting)) else ts[t]
    decreases |q|
  {
    if q != [] {
      TickedAt(SetWaiting(ts, q[0], Decremented(ts[q[0]].waiting)), q[1..], t);
      InPop(q, t);
    }
  }

  /** The waiting times of the queued threads, from head to tail. */
  function Durations(ts: seq<Tcb>, q: seq<nat>): (ds: seq<nat>)
    requires forall i :: 0 <= i < |q| ==> q[i] < |ts|
    ensures |ds| == |q| && forall i :: 0 <= i < |q| ==> ds[i] == ts[q[i]].waiting
  {
    seq(|q|, (i: nat) requires i < |q| && q[i] < |ts| => ts[q[i]].waiting)
  }

  /** The threads that are due form a prefix of the queue. */
  predicate DueFirst(ds: seq<nat>)
  {
    forall i, j :: 0 <= i < j < |ds| && ds[j] == 1 ==> ds[i] == 1
  }

  /** How many threads at the head are due. */
  function Due(ds: seq<nat>): (k: nat)
    ensures k <= |ds|
    ensures forall i :: 0 <= i < k ==> ds[i] == 1
    ensures k < |ds| ==> ds[k] != 1
  {
    if ds == [] || ds[0] != 1 then 0 else 1 + Due(ds[1..])
  }

  function PushAll(n: nat, ready: seq<nat>, q: seq<nat>): seq<nat>
    decreases |q|
  {
    if q == [] then ready else PushAll(n, Pushed(n, ready, q[0]), q[1..])
  }

  /** With a sleeper that stays at the head, nobody behind it can be released. */
  lemma {:induction false} WalkBehind(n: nat, kept: seq<nat>, todo: seq<nat>, ts: seq<Tcb>,
                                      sleep: seq<nat>, ready: seq<nat>)
    requires |ts| == n + 1 && InRange(todo, n) && InRange(sleep, n) && InRange(ready, n)
    requires sleep == kept + todo && kept != [] && NoDup(sleep)
    ensures DecrementWaits(n, todo, ts, sleep, ready)
         == if forall i :: 0 <= i < |todo| ==> ts[todo[i]].waiting != 1
            then Sleepers(Ticked(ts, todo), sleep, ready) else Panic
    decreases |todo|
  {
    if todo != [] {
      var t := todo[0];
      var ts' := SetWaiting(ts, t, Decremented(ts[t].waiting));
      assert sleep[|kept|] == t && sleep[0] == kept[0];
      if ts[t].waiting != 1 {
        RangePop(todo, n);
        assert sleep == (kept + [t]) + todo[1..];
        forall i | 1 <= i < |todo|
          ensures ts'[todo[i]] == ts[todo[i]]
        {
          assert sleep[|kept| + i] == todo[i];
        }
        assert forall i :: 0 <= i < |todo| - 1 ==> todo[1..][i] == todo[i + 1];
        WalkBehind(n, kept + [t], todo[1..], ts', sleep, ready);
        if forall i :: 0 <= i < |todo| - 1 ==> ts'[todo[1..][i]].waiting != 1 {
          forall i | 0 <= i < |todo|
            ensures ts[todo[i]].waiting != 1
          {
            if i > 0 {
              assert todo[1..][i - 1] == todo[i];
            }
          }
        }
      }
    }
  }

  lemma DurationsTail(ts: seq<Tcb>, q: seq<nat>, w: word)
    requires q != [] && NoDup(q) && forall i :: 0 <= i < |q| ==> q[i] < |ts|
    ensures Durations(SetWaiting(ts, q[0], w), q[1..]) == Durations(ts, q)[1..]
  {
    forall i | 0 <= i < |q| - 1
      ensures SetWaiting(ts, q[0], w)[q[1..][i]] == ts[q[i + 1]]
    {
    }
  }

  /** The outcome of `decrement_waits` in closed form. */
  function Released(n: nat, q: seq<nat>, ts: seq<Tcb>, ready: seq<nat>): Sleepers
    requires forall i :: 0 <= i < |q| ==> q[i] < |ts|
  {
    var ds := Durations(ts, q);
    if DueFirst(ds) then Sleepers(Ticked(ts, q), q[Due(ds)..], PushAll(n, ready, q[..Due(ds)])) else Panic
  }

  lemma NotDueBehind(ds: seq<nat>, i: nat, j: nat)
    requires DueFirst(ds) && i < j < |ds| && ds[i] != 1
    ensures ds[j] != 1
  {
  }

  lemma NoneDueBehind(ds: seq<nat>)
    requires DueFirst(ds) && ds != [] && ds[0] != 1
    ensures forall j :: 0 <= j < |ds| ==> ds[j] != 1
  {
    forall j | 1 <= j < |ds|
      ensures ds[j] != 1
    {
      NotDueBehind(ds, 0, j);
    }
  }

  /** With a head that is not due, the due threads come first exactly when nobody behind is due. */
  lemma NobodyBehind(ds: seq<nat>, behind: seq<nat>)
    requires ds != [] && ds[0] != 1 && behind == ds[1..]
    ensures Due(ds) == 0
    ensures DueFirst(ds) <==> forall i :: 0 <= i < |behind| ==> behind[i] != 1
  {
    if DueFirst(ds) {
      NoneDueBehind(ds);
    } else {
      var i, j :| 0 <= i < j < |ds| && ds[j] == 1 && ds[i] != 1;
      assert behind[j - 1] == 1;
    }
  }

  /** Nobody at the head is due: the walk succeeds exactly when nobody is. */
  lemma WalkFromWaiting(n: nat, q: seq<nat>, ts: seq<Tcb>, ready: seq<nat>)
    requires |ts| == n + 1 && InRange(q, n) && InRange(ready, n) && NoDup(q)
    requires q != [] && ts[q[0]].waiting != 1
    ensures DecrementWaits(n, q, ts, q, ready) == Released(n, q, ts, ready)
  {
    var t, ds := q[0], Durations(ts, q);
    var ts' := SetWaiting(ts, t, Decremented(ts[t].waiting));
    RangePop(q, n);
    assert q == [t] + q[1..];
    WalkBehind(n, [t], q[1..], ts', q, ready);
    DurationsTail(ts, q, Decremented(ts[t].waiting));
    NobodyBehind(ds, Durations(ts', q[1..]));
    assert q[0..] == q && q[..0] == [];
  }

  lemma DueHead(ds: seq<nat>)
    requires ds != [] && ds[0] == 1
    ensures Due(ds) == 1 + Due(ds[1..])
  {
  }

  lemma ReleasedHead(n: nat, q: seq<nat>, ts: seq<Tcb>, ready: seq<nat>, r: Sleepers)
    requires q != [] && NoDup(q) && forall i :: 0 <= i < |q| ==> q[i] < |ts|
    requires ts[q[0]].waiting == 1
    requires r == Released(n, q[1..], SetWaiting(ts, q[0], 0), Pushed(n, ready, q[0]))
    ensures r == Released(n, q, ts, ready)
  {
    var ds, tail := Durations(ts, q), Durations(SetWaiting(ts, q[0], 0), q[1..]);
    DurationsTail(ts, q, 0);
    assert tail == ds[1..];
    DueHead(ds);
    if DueFirst(ds) {
      var k := Due(tail);
      assert PushAll(n, ready, q[..1 + k]) == r.ready by {
        assert q[..1 + k][1..] == q[1..][..k];
      }
      assert q[1..][k..] == q[1 + k..];
    }
  }

  /**
   * One `decrement_waits` on distinct sleepers: it avoids the panic exactly when the threads that are
   * due form a prefix of the ring; then it moves that prefix, in order, to the ready tail and
   * decrements everybody.
   */
  lemma {:induction false} DecrementWaitsExactly(n: nat, q: seq<nat>, ts: seq<Tcb>, ready: seq<nat>)
    requires |ts| == n + 1 && InRange(q, n) && InRange(ready, n) && NoDup(q)
    ensures DecrementWaits(n, q, ts, q, ready) == Released(n, q, ts, ready)
    decreases |q|
  {
    if q != [] && ts[q[0]].waiting != 1 {
      WalkFromWaiting(n, q, ts, ready);
    } else if q != [] {
      RangePop(q, n);
      InPop(q, q[0]);
      if PushOk(n, ready, q[0]) {
        RangePush(ready, q[0], n);
      }
      DecrementWaitsExactly(n, q[1..], SetWaiting(ts, q[0], 0), Pushed(n, ready, q[0]));
      ReleasedHead(n, q, ts, ready, DecrementWaits(n, q, ts, q, ready));
    }
  }

  // ---- Repeated ticks with no new sleepers ----

  /** The durations after a tick that released the due prefix. */
  function AfterTick(ds: seq<nat>): (r: seq<nat>)
    requires forall i :: 0 <= i < |ds| ==> ds[i] >= 1
    ensures |r| == |ds| - Due(ds)
    ensures forall i :: 0 <= i < |r| ==> r[i] == ds[Due(ds) + i] - 1
  {
    seq(|ds| - Due(ds), (i: nat) requires Due(ds) + i < |ds| && ds[Due(ds) + i] >= 1 => ds[Due(ds) + i] - 1)
  }

  predicate AllWaiting(ds: seq<nat>)
  {
    forall i :: 0 <= i < |ds| ==> ds[i] >= 1
  }

  lemma AfterTickWaits(ds: seq<nat>)
    requires AllWaiting(ds) && DueFirst(ds)
    ensures AllWaiting(AfterTick(ds))
  {
  }

  /** The first `k` ticks on these durations avoid the panic. */
  predicate TicksOk(ds: seq<nat>, k: nat)
    requires AllWaiting(ds)
    decreases k
  {
    k == 0 || (DueFirst(ds) && (AfterTickWaits(ds); TicksOk(AfterTick(ds), k - 1)))
  }

  /** The durations after `k` ticks without a panic. */
  function AfterTicks(ds: seq<nat>, k: nat): seq<nat>
    requires AllWaiting(ds) && TicksOk(ds, k)
    decreases k
  {
    if k == 0 then ds
    else
      AfterTickWaits(ds);
      AfterTicks(AfterTick(ds), k - 1)
  }

  predicate NonDecreasing(ds: seq<nat>)
  {
    forall i, j :: 0 <= i < j < |ds| ==> ds[i] <= ds[j]
  }

  /** A sleeper in front of one with less to wait causes a panic by the time the latter is due. */
  lemma {:induction false} Overtaken(ds: seq<nat>, i: nat, j: nat)
    requires AllWaiting(ds) && i < j < |ds| && ds[i] > ds[j]
    ensures !TicksOk(ds, ds[j])
    decreases ds[j]
  {
    if ds[j] > 1 && DueFirst(ds) {
      var k := Due(ds);
      AfterTickWaits(ds);
      assert i >= k;
      assert AfterTick(ds)[i - k] == ds[i] - 1 && AfterTick(ds)[j - k] == ds[j] - 1;
      Overtaken(AfterTick(ds), i - k, j - k);
    }
  }

  lemma {:induction false} OrderedTicksOk(ds: seq<nat>, k: nat)
    requires AllWaiting(ds) && NonDecreasing(ds)
    ensures TicksOk(ds, k)
    ensures ds != [] && k >= ds[|ds| - 1] ==> AfterTicks(ds, k) == []
    ensures ds == [] ==> AfterTicks(ds, k) == []
    decreases k
  {
    if k > 0 {
      AfterTickWaits(ds);
      var r := AfterTick(ds);
      assert r != [] ==> r[|r| - 1] == ds[|ds| - 1] - 1;
      OrderedTicksOk(r, k - 1);
    }
  }

  /**
   * A queue of sleepers survives every number of ticks exactly when the durations do not decrease from
   * head to tail; then it is empty once the last duration has passed.
   */
  lemma DrainsExactly(ds: seq<nat>)
    requires AllWaiting(ds)
    ensures (forall k: nat :: TicksOk(ds, k)) <==> NonDecreasing(ds)
    ensures NonDecreasing(ds) && ds != [] ==> TicksOk(ds, ds[|ds| - 1]) && AfterTicks(ds, ds[|ds| - 1]) == []
  {
    if NonDecreasing(ds) {
      forall k: nat
        ensures TicksOk(ds, k)
      {
        OrderedTicksOk(ds, k);
      }
      if ds != [] {
        OrderedTicksOk(ds, ds[|ds| - 1]);
      }
    } else {
      var i, j :| 0 <= i < j < |ds| && ds[i] > ds[j];
      Overtaken(ds, i, j);
    }
  }
}
