/** The timer tick: the sleepers that are due leave the sleep ring, then the scheduler cycles. */
module Waking {
  import opened Rings
  import opened Counting
  import opened KernelState
  import opened Ownership
  import opened Sleeping

  lemma RingIndices(q: seq<nat>, n: nat, m: nat)
    requires InRange(q, n) && n < m
    ensures forall i :: 0 <= i < |q| ==> q[i] < m
  {
  }

  /** The waiting times in the sleep ring, from head to tail. */
  function SleepDurations(s: KState): (ds: seq<nat>)
    requires Shape(s)
    ensures |ds| == |s.sleep|
  {
    RingIndices(s.sleep, NThreads(s.cfg), |s.threads|);
    Durations(s.threads, s.sleep)
  }

  /** The state after a tick whose due sleepers come first, before the cycle. */
  function Awake(s: KState): KState
    requires Shape(s)
  {
    RingIndices(s.sleep, NThreads(s.cfg), |s.threads|);
    var k := Due(SleepDurations(s));
    s.(threads := Ticked(s.threads, s.sleep), sleep := s.sleep[k..], ready := s.ready + s.sleep[..k])
  }

  lemma {:induction false} PushAllFits(n: nat, ready: seq<nat>, q: seq<nat>)
    requires InRange(ready, n) && InRange(q, n) && NoDup(ready) && NoDup(q)
    requires forall x :: x in q ==> x !in ready
    ensures PushAll(n, ready, q) == ready + q
    decreases |q|
  {
    if q != [] {
      var x := q[0];
      assert x in q;
      RangePop(q, n);
      Fits(ready, x, n);
      InPop(q, x);
      forall y | y in q[1..]
        ensures y !in ready + [x]
      {
        assert y in q;
        InPush(ready, x, y);
      }
      PushAllFits(n, ready + [x], q[1..]);
      assert (ready + [x]) + q[1..] == ready + q;
    } else {
      assert ready + q == ready;
    }
  }

  lemma AwakeReady(s: KState, k: nat)
    requires Shape(s) && Partition(s) && k <= |s.sleep|
    ensures InRange(s.ready + s.sleep[..k], NThreads(s.cfg)) && InRange(s.sleep[k..], NThreads(s.cfg))
    ensures PushAll(NThreads(s.cfg), s.ready, s.sleep[..k]) == s.ready + s.sleep[..k]
  {
    RingNoDup(s);
    forall x | x in s.sleep[..k]
      ensures x !in s.ready
    {
      assert Owned(s, x);
      OccursIn(s.sleep, x);
      OccursIn(s.ready, x);
    }
    PushAllFits(NThreads(s.cfg), s.ready, s.sleep[..k]);
  }

  lemma TickedKeeps(ts: seq<Tcb>, q: seq<nat>, t: nat)
    requires NoDup(q) && t < |ts| && forall i :: 0 <= i < |q| ==> q[i] < |ts|
    ensures Ticked(ts, q)[t] == ts[t].(waiting := Ticked(ts, q)[t].waiting)
  {
    TickedAt(ts, q, t);
  }

  lemma AwakeShape(s: KState)
    requires Shape(s) && Partition(s)
    ensures Shape(Awake(s))
  {
    var a := Awake(s);
    RingIndices(s.sleep, NThreads(s.cfg), |s.threads|);
    AwakeReady(s, Due(SleepDurations(s)));
    RingNoDup(s);
    forall t | 0 <= t < |a.threads|
      ensures a.threads[t].process < |a.procs|
    {
      TickedKeeps(s.threads, s.sleep, t);
    }
  }

  /**
   * The timer interrupt in closed form: it panics exactly when a sleeper that is due stands behind one
   * that is not, and otherwise cycles from the state in which the due ones have joined the ready ring.
   */
  lemma TimerCycleExactly(s: KState)
    requires Shape(s) && Partition(s)
    ensures Shape(Awake(s))
    ensures TimerCycle(s) == if DueFirst(SleepDurations(s)) then Running(Cycle(Awake(s))) else Halted
  {
    RingIndices(s.sleep, NThreads(s.cfg), |s.threads|);
    AwakeShape(s);
    RingNoDup(s);
    DecrementWaitsExactly(NThreads(s.cfg), s.sleep, s.threads, s.ready);
    AwakeReady(s, Due(SleepDurations(s)));
  }

  lemma AwakeConsistent(s: KState)
    requires Consistent(s)
    ensures Consistent(Awake(s))
  {
    AwakeShape(s);
    RingIndices(s.sleep, NThreads(s.cfg), |s.threads|);
    RingNoDup(s);
    var a, k := Awake(s), Due(SleepDurations(s));
    forall g: nat
      ensures Owned(a, g) && RecordOk(a, g)
    {
      assert Owned(s, g) && RecordOk(s, g);
      OccursSplit(s.sleep, k, g);
      if g < |s.threads| {
        TickedKeeps(s.threads, s.sleep, g);
      }
    }
    TickedKeeps(s.threads, s.sleep, 0);
    forall p | 1 <= p < |a.procs| && p !in a.freeProcs
      ensures LiveProcess(a, p)
    {
      assert LiveProcess(s, p);
    }
  }
}
