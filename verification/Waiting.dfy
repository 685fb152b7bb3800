/** The exact length of a wait: a sleeper is released by its d-th tick, not earlier and not later. */
module Waiting {
  import opened Words
  import opened Counting
  import opened KernelState
  import opened Ownership
  import opened Sleeping
  import opened Waking
  import opened Health
  import opened Safety
  import opened AsWritten
  import opened Fairness

  /** The thread at `g` sleeps and has `w` ticks to go. */
  predicate AsleepFor(s: KState, g: nat, w: nat)
  {
    g < |s.threads| && g in s.sleep && s.threads[g].waiting == w
  }

  /** The thread at `g` can run. */
  predicate CanRun(s: KState, g: nat)
  {
    g in s.ready || s.running == g
  }

  /** `wait(d)` puts the caller to sleep for `d` ticks; `wait(0)` returns at once. */
  lemma WaitStarts(s: KState, r: KState)
    requires Healthy(s) && Step(s, SupervisorCall(4)) == Running(r)
    ensures s.frame.gr.r0 != 0 ==> s.running != 0 && AsleepFor(r, s.running, s.frame.gr.r0) && !CanRun(r, s.running)
    ensures s.frame.gr.r0 == 0 ==> r == s
  {
    var d := s.frame.gr.r0;
    if d != 0 {
      var b := Cycle(Parked(s, SleepRing));
      SleepHealthy(s, d);
      BlockHealthy(s, SleepRing, b);
      assert s.running in s.sleep + [s.running];
      HeldOnce(r, s.running);
    }
  }

  lemma AwakeSleeper(s: KState, g: nat)
    requires Healthy(s) && DueFirst(SleepDurations(s)) && g in s.sleep
    ensures Shape(Awake(s)) && g < |s.threads| && s.threads[g].waiting >= 1
    ensures s.threads[g].waiting == 1 ==> g in Awake(s).ready && g !in Awake(s).sleep
    ensures s.threads[g].waiting > 1 ==> AsleepFor(Awake(s), g, s.threads[g].waiting - 1)
  {
    AwakeShape(s);
    RingNoDup(s);
    RingIndices(s.sleep, NThreads(s.cfg), |s.threads|);
    HeldIsAllocated(s, g);
    assert WaitOk(s, g);
    TickedAt(s.threads, s.sleep, g);
    var ds := SleepDurations(s);
    var k := Due(ds);
    var i :| 0 <= i < |s.sleep| && s.sleep[i] == g;
    if s.threads[g].waiting == 1 {
      assert s.sleep[..k][i] == g;
      if g in s.sleep[k..] {
        StaysAsleep(s, g);
      }
    } else {
      assert s.sleep[k..][i - k] == g;
    }
  }

  lemma CycleSleepers(s: KState, g: nat)
    requires Consistent(s) && RequeueOk(s) && g < |s.threads|
    ensures Cycle(s).sleep == s.sleep && g < |Cycle(s).threads| && Cycle(s).threads[g].waiting == s.threads[g].waiting
    ensures CanRun(s, g) ==> CanRun(Cycle(s), g) || g == 0
  {
    CycleRings(s);
    CycleAdvances(s);
    if s.ready != [] {
      CycleRotates(s);
      if g in s.ready && g != s.ready[0] {
        var i :| 0 <= i < |s.ready| && s.ready[i] == g;
        assert s.ready[1..][i - 1] == g;
      }
    }
  }

  /** A tick takes one from what a sleeper has to go; the last one releases it. */
  lemma TickOfSleeper(s: KState, g: nat, r: KState)
    requires Healthy(s) && IndexSafe(s, [TimerInterrupt]) && Step(s, TimerInterrupt) == Running(r) && g in s.sleep
    ensures g < |s.threads| && s.threads[g].waiting >= 1
    ensures s.threads[g].waiting == 1 ==> CanRun(r, g) && g !in r.sleep
    ensures s.threads[g].waiting > 1 ==> AsleepFor(r, g, s.threads[g].waiting - 1)
  {
    TimerCycleExactly(s);
    SafeStep(s, [TimerInterrupt]);
    AwakeHealthy(s);
    AwakeSleeper(s, g);
    CycleSleepers(Awake(s), g);
    HeldIsAllocated(s, g);
  }

  lemma CreateThreadSleepers(s: KState, p: nat, func: word, args: word, argsSize: word, g: nat, r: KState)
    requires Consistent(s) || (Settling(s, p) && s.procs[p].free != [])
    requires p < |s.procs| && (p == 0 || p !in s.freeProcs)
    requires g in s.sleep && g < |s.threads| && IsAllocated(s, g)
    requires r == CreateThread(s, p, func, args, argsSize)
    ensures AsleepFor(r, g, s.threads[g].waiting)
  {
    if s.procs[p].free != [] {
      if p == 0 {
        NullProcessHasNoSlots(s);
      }
      if Consistent(s) {
        assert LiveProcess(s, p);
      }
      CreateThreadAdds(s, p, func, args, argsSize);
      NextIndexFits(s, p);
    }
  }

  lemma CreateProcessSleepers(s: KState, func: word, args: word, argsSize: word, g: nat, r: KState)
    requires Healthy(s) && g in s.sleep && r == CreateProcess(s, func, args, argsSize)
    ensures g < |s.threads| && AsleepFor(r, g, s.threads[g].waiting)
  {
    HeldIsAllocated(s, g);
    if s.freeProcs != [] {
      var pid: word := Incremented(s.pidCounter);
      var w := CreateProcessUnfold(s, func, args, argsSize);
      FreshProcess(s, pid);
      FreshAllocated(s, pid, g);
      UpToHas(s.cfg.nt, 1);
      CreateThreadSleepers(w, s.freeProcs[0], func, args, argsSize, g, r);
    }
  }

  lemma SleepSleepers(s: KState, d: word, g: nat, r: KState)
    requires Healthy(s) && OnSleep(s, d) == Running(r) && g in s.sleep
    ensures g < |s.threads| && AsleepFor(r, g, s.threads[g].waiting)
  {
    HeldIsAllocated(s, g);
    if d != 0 {
      HeldOnce(s, s.running);
      HeldIsAllocated(s, g);
      BlockConsistent(s, SleepRing);
      ParkedMoves(s, SleepRing);
      CycleSleepers(Parked(s, SleepRing), g);
      InPush(s.sleep, s.running, g);
    }
  }

  lemma SyscallSleepers(s: KState, id: nat, g: nat, r: KState)
    requires Healthy(s) && Syscall(s, id) == Running(r) && g in s.sleep
    ensures g < |s.threads| && AsleepFor(r, g, s.threads[g].waiting)
  {
    var gr := s.frame.gr;
    HeldIsAllocated(s, g);
    if id == 4 {
      SleepSleepers(s, gr.r0, g, r);
    } else if id == 5 && ArgumentsOk(s) {
      CreateProcessSleepers(s, gr.r0, gr.r1, gr.r2, g, r);
    } else if id == 6 && ArgumentsOk(s) {
      OwnProcessLives(s);
      CreateThreadSleepers(s, s.threads[s.running].process, gr.r0, gr.r1, gr.r2, g, r);
    }
  }

  /** Nothing but a tick touches a sleeper. */
  lemma OnlyTicksCount(s: KState, e: Event, g: nat, r: KState)
    requires Healthy(s) && Step(s, e) == Running(r) && g in s.sleep && !e.TimerInterrupt?
    ensures g < |s.threads| && AsleepFor(r, g, s.threads[g].waiting)
  {
    HeldIsAllocated(s, g);
    HaltsExactly(s, e);
    match e
    case SupervisorCall(id) => SyscallSleepers(s, id, g, r);
    case UartInterrupt(_) =>
    case Fault =>
    case UnknownInterrupt =>
    case CodeRuns(_) =>
  }

  function Ticks(es: seq<Event>): nat
  {
    if es == [] then 0 else (if es[0].TimerInterrupt? then 1 else 0) + Ticks(es[1..])
  }

  /** After `k` ticks of a run that does not halt, a sleeper that had `w > k` to go has `w - k` to go. */
  lemma {:induction false} StillAsleep(s: KState, es: seq<Event>, g: nat, w: nat, r: KState)
    requires Healthy(s) && IndexSafe(s, es) && AsleepFor(s, g, w) && Ticks(es) < w
    requires Run(s, es) == Running(r)
    ensures AsleepFor(r, g, w - Ticks(es)) && !CanRun(r, g)
    decreases |es|
  {
    if es == [] {
      HeldIsAllocated(s, g);
      HeldOnce(s, g);
    } else {
      var e := es[0];
      StepShape(s, e);
      var t := Step(s, e).s;
      SafeStep(s, es);
      if e.TimerInterrupt? {
        TickOfSleeper(s, g, t);
        StillAsleep(t, es[1..], g, w - 1, r);
      } else {
        OnlyTicksCount(s, e, g, t);
        StillAsleep(t, es[1..], g, w, r);
      }
    }
  }

  /**
   * A thread that called `wait(d)` with d > 0 cannot run before the d-th later tick, and that tick
   * releases it, on every run that does not halt.
   */
  lemma WaitsExactly(s: KState, c: KState, es: seq<Event>, m: KState, r: KState)
    requires Healthy(s) && IndexSafe(s, es) && s.frame.gr.r0 != 0
    requires Step(s, SupervisorCall(4)) == Running(c) && Shape(c)
    requires Run(c, es) == Running(m) && Shape(m)
    ensures Ticks(es) < s.frame.gr.r0 ==> !CanRun(m, s.running)
    ensures Ticks(es) == s.frame.gr.r0 - 1 && Step(m, TimerInterrupt) == Running(r) ==> CanRun(r, s.running)
  {
    WaitStarts(s, c);
    SafeStep(s, [SupervisorCall(4)] + es);
    assert ([SupervisorCall(4)] + es)[1..] == es;
    if Ticks(es) < s.frame.gr.r0 {
      StillAsleep(c, es, s.running, s.frame.gr.r0, m);
      RunHealthy(c, es, [TimerInterrupt], m);
      if Ticks(es) == s.frame.gr.r0 - 1 && Step(m, TimerInterrupt) == Running(r) {
        TickOfSleeper(m, s.running, r);
      }
    }
  }

  // ---- Bounds in ticks ----

  /** The thread at `g` runs after some event of the run. */
  predicate Selected(s: KState, es: seq<Event>, g: nat)
    requires Shape(s)
    decreases |es|
  {
    es != [] &&
    (StepShape(s, es[0]);
     Step(s, es[0]).Running? && (Step(s, es[0]).s.running == g || Selected(Step(s, es[0]).s, es[1..], g)))
  }

  /** The entry at `j` moves up by one place at most in a step, and in a tick it does. */
  lemma MovesUp(s: KState, e: Event, j: nat, t: KState)
    requires Healthy(s) && Step(s, e) == Running(t) && Shape(Awake(s)) && Requeues(s, e) && j < |s.ready|
    ensures !Dispatches(s, e) ==> j < |t.ready| && t.ready[j] == s.ready[j]
    ensures Dispatches(s, e) && j == 0 ==> t.running == s.ready[j]
    ensures Dispatches(s, e) && j > 0 ==> j - 1 < |t.ready| && t.ready[j - 1] == s.ready[j]
    ensures e.TimerInterrupt? ==> Dispatches(s, e)
  {
    StepAdvances(s, e, t);
    if Dispatches(s, e) && j > 0 {
      assert s.ready[1..][j - 1] == s.ready[j];
    }
  }

  /** One event of a run: the thread at position `j` runs, or waits at position `i` with fewer ticks to go. */
  lemma NextPlace(s: KState, j: nat, g: nat, es: seq<Event>) returns (t: KState, i: nat)
    requires Healthy(s) && IndexSafe(s, es) && Run(s, es).Running? && Ticks(es) > j
    requires j < |s.ready| && s.ready[j] == g
    ensures es != [] && Healthy(t) && IndexSafe(t, es[1..]) && Run(t, es[1..]).Running?
    ensures t.running != g ==> i < |t.ready| && t.ready[i] == g && Ticks(es[1..]) > i
    ensures t.running == g || Selected(t, es[1..], g) ==> Selected(s, es, g)
  {
    var e := es[0];
    StepShape(s, e);
    t := Step(s, e).s;
    SafeStep(s, es);
    MovesUp(s, e, j, t);
    i := if Dispatches(s, e) && j > 0 then j - 1 else j;
  }

  /** A thread at position `j` of the ready ring runs within `j + 1` ticks. */
  lemma {:induction false} RunsWithinTicks(s: KState, j: nat, g: nat, es: seq<Event>)
    requires Healthy(s) && IndexSafe(s, es) && Run(s, es).Running? && Ticks(es) > j
    requires j < |s.ready| && s.ready[j] == g
    ensures Selected(s, es, g)
    decreases |es|
  {
    var t, i := NextPlace(s, j, g, es);
    if t.running != g {
      RunsWithinTicks(t, i, g, es[1..]);
    }
  }

  lemma ReadyPosition(s: KState, g: nat) returns (j: nat)
    requires Healthy(s) && g in s.ready
    ensures j < |s.ready| && s.ready[j] == g && j < NThreads(s.cfg)
  {
    RingNoDup(s);
    Pigeonhole(s.ready, NThreads(s.cfg));
    j :| 0 <= j < |s.ready| && s.ready[j] == g;
  }

  /** A sleeper with `w` ticks to go runs within `w` ticks and one for each thread. */
  lemma {:induction false} SleeperRuns(s: KState, g: nat, w: nat, es: seq<Event>)
    requires Healthy(s) && IndexSafe(s, es) && AsleepFor(s, g, w) && Run(s, es).Running?
    requires Ticks(es) >= w + NThreads(s.cfg)
    ensures Selected(s, es, g)
    decreases |es|
  {
    SleepersWait(s);
    var e := es[0];
    StepShape(s, e);
    var t := Step(s, e).s;
    SafeStep(s, es);
    if !e.TimerInterrupt? {
      OnlyTicksCount(s, e, g, t);
      SleeperRuns(t, g, w, es[1..]);
    } else {
      TickOfSleeper(s, g, t);
      if w > 1 {
        SleeperRuns(t, g, w - 1, es[1..]);
      } else if t.running != g {
        var j := ReadyPosition(t, g);
        RunsWithinTicks(t, j, g, es[1..]);
      }
    }
  }

  /** A thread that called `wait(d)` runs again within `d` ticks and one for each thread. */
  lemma WaitEnds(s: KState, c: KState, es: seq<Event>)
    requires Healthy(s) && IndexSafe(s, es) && s.frame.gr.r0 != 0
    requires Step(s, SupervisorCall(4)) == Running(c) && Shape(c) && Run(c, es).Running?
    requires Ticks(es) >= s.frame.gr.r0 + s.cfg.np * s.cfg.nt
    ensures Selected(c, es, s.running)
  {
    WaitStarts(s, c);
    SafeStep(s, [SupervisorCall(4)] + es);
    assert ([SupervisorCall(4)] + es)[1..] == es;
    SleeperRuns(c, s.running, s.frame.gr.r0, es);
  }

  // ---- Ticks with no new sleepers ----

  function TimerTicks(k: nat): seq<Event>
  {
    seq(k, (i: nat) => TimerInterrupt)
  }

  /** The state before the cycle has the durations that `AfterTick` says. */
  lemma AwakeDurations(s: KState)
    requires Healthy(s)
    ensures Shape(Awake(s)) && AllWaiting(SleepDurations(s))
    ensures SleepDurations(Awake(s)) == AfterTick(SleepDurations(s))
  {
    AwakeShape(s);
    SleepersWait(s);
    RingNoDup(s);
    RingIndices(s.sleep, NThreads(s.cfg), |s.threads|);
    var ds, k, a := SleepDurations(s), Due(SleepDurations(s)), Awake(s);
    forall i | 0 <= i < |a.sleep|
      ensures SleepDurations(a)[i] == AfterTick(ds)[i]
    {
      assert a.sleep[i] == s.sleep[k + i];
      TickedAt(s.threads, s.sleep, s.sleep[k + i]);
    }
  }

  lemma CycleDurations(s: KState)
    requires Consistent(s) && RequeueOk(s)
    ensures Shape(Cycle(s)) && SleepDurations(Cycle(s)) == SleepDurations(s)
  {
    CycleConsistent(s);
    CycleRings(s);
    RingIndices(s.sleep, NThreads(s.cfg), |s.threads|);
    forall i | 0 <= i < |s.sleep|
      ensures SleepDurations(Cycle(s))[i] == SleepDurations(s)[i]
    {
      CycleSleepers(s, s.sleep[i]);
    }
  }

  lemma SleepersWait(s: KState)
    requires Healthy(s)
    ensures AllWaiting(SleepDurations(s))
  {
    RingIndices(s.sleep, NThreads(s.cfg), |s.threads|);
    forall i | 0 <= i < |s.sleep|
      ensures SleepDurations(s)[i] >= 1
    {
      assert s.sleep[i] in s.sleep;
      HeldIsAllocated(s, s.sleep[i]);
      assert WaitOk(s, s.sleep[i]);
    }
  }

  /** The first `k` ticks do not halt the kernel. */
  predicate SurvivesTicks(s: KState, k: nat)
    requires Shape(s)
  {
    Run(s, TimerTicks(k)).Running?
  }

  lemma TickHealthy(s: KState, r: KState)
    requires Healthy(s) && IndexSafe(s, []) && TimerCycle(s) == Running(r)
    ensures Healthy(r) && IndexSafe(r, [])
    ensures AllWaiting(SleepDurations(s)) && DueFirst(SleepDurations(s))
    ensures SleepDurations(r) == AfterTick(SleepDurations(s))
  {
    SafeStep(s, [TimerInterrupt]);
    TimerCycleExactly(s);
    SafeStep(s, [TimerInterrupt]);
    TimerHealthy(s);
    TimerCycleExactly(s);
    AwakeConsistent(s);
    AwakeDurations(s);
    CycleDurations(Awake(s));
  }

  /** A healthy state with these waiting times in the sleep ring. */
  ghost predicate Ticking(s: KState, ds: seq<nat>)
  {
    Healthy(s) && IndexSafe(s, []) && ds == SleepDurations(s) && AllWaiting(ds)
  }

  /** `alive` behaves over one tick as the durations do. */
  ghost predicate FollowsTick(alive: (KState, nat) -> bool, s: KState, ds: seq<nat>, k: nat)
    requires AllWaiting(ds)
  {
    if k == 0 then alive(s, 0)
    else if DueFirst(ds) then exists r :: Ticking(r, AfterTick(ds)) && (alive(s, k) <==> alive(r, k - 1))
    else !alive(s, k)
  }

  lemma {:induction false} FollowsTicks(alive: (KState, nat) -> bool, s: KState, ds: seq<nat>, k: nat)
    requires forall t, d, j: nat | Ticking(t, d) :: FollowsTick(alive, t, d, j)
    requires Ticking(s, ds)
    ensures alive(s, k) <==> TicksOk(ds, k)
    decreases k
  {
    assert FollowsTick(alive, s, ds, k);
    if k > 0 && DueFirst(ds) {
      var r :| Ticking(r, AfterTick(ds)) && (alive(s, k) <==> alive(r, k - 1));
      FollowsTicks(alive, r, AfterTick(ds), k - 1);
    }
  }

  ghost function Survival(): (KState, nat) -> bool
  {
    (s: KState, k: nat) => Shape(s) && SurvivesTicks(s, k)
  }

  lemma SurvivalFollows(s: KState, ds: seq<nat>, k: nat)
    requires Ticking(s, ds)
    ensures FollowsTick(Survival(), s, ds, k)
  {
    if k > 0 {
      var es := TimerTicks(k);
      assert es[1..] == TimerTicks(k - 1);
      StepShape(s, TimerInterrupt);
      TimerCycleExactly(s);
      if DueFirst(ds) {
        var r := TimerCycle(s).s;
        TickHealthy(s, r);
        AfterTickWaits(ds);
        assert Ticking(r, AfterTick(ds));
      }
    }
  }

  /** `k` ticks in a row halt the kernel exactly when they do so in the model of durations. */
  lemma TicksInARow(s: KState, ds: seq<nat>, k: nat)
    requires Ticking(s, ds)
    ensures SurvivesTicks(s, k) <==> TicksOk(ds, k)
  {
    forall t, d, j: nat | Ticking(t, d)
      ensures FollowsTick(Survival(), t, d, j)
    {
      SurvivalFollows(t, d, j);
    }
    FollowsTicks(Survival(), s, ds, k);
  }

  /** Durations out of order halt the kernel when the one that is overtaken is due. */
  lemma DisorderHalts(s: KState, ds: seq<nat>) returns (k: nat)
    requires Healthy(s) && IndexSafe(s, []) && ds == SleepDurations(s) && !NonDecreasing(ds)
    ensures !SurvivesTicks(s, k)
  {
    SleepersWait(s);
    var i, j :| 0 <= i < j < |ds| && ds[i] > ds[j];
    Overtaken(ds, i, j);
    k := ds[j];
    TicksInARow(s, ds, k);
  }

  /**
   * Left to the timer alone, the kernel never halts exactly when the sleepers' durations do not decrease
   * from head to tail.
   */
  lemma NeverHaltsOnTicks(s: KState)
    requires Healthy(s) && IndexSafe(s, [])
    ensures (forall k: nat :: SurvivesTicks(s, k)) <==> NonDecreasing(SleepDurations(s))
  {
    SleepersWait(s);
    if NonDecreasing(SleepDurations(s)) {
      forall k: nat
        ensures SurvivesTicks(s, k)
      {
        TicksInARow(s, SleepDurations(s), k);
        OrderedTicksOk(SleepDurations(s), k);
      }
    } else {
      var k := DisorderHalts(s, SleepDurations(s));
    }
  }
}
