/**
 * Line 219 of system/scheduler.c puts the slot of the old thread within its process back into the ready
 * queue, where the other writers put its index in the thread table.
 */
module AsWritten {
  import opened Rings
  import opened Counting
  import opened KernelState
  import opened Ownership
  import opened Waking
  import opened Sleeping
  import opened Health
  import opened Safety
  import opened Context

  predicate IsFork(e: Event)
  {
    e.SupervisorCall? && e.id == 5
  }

  /** Every call but `fork` allocates threads in the process of the caller only. */
  lemma NewInProcessOne(s: KState, e: Event, g: nat)
    requires Healthy(s) && OnlyProcessOne(s) && !IsFork(e) && g >= 1 && s.cfg.nt >= 1 && g in NextViews(s, e)
    ensures ProcOf(s.cfg, g) == 1
  {
    if g !in Views(s) {
      var p := s.threads[s.running].process;
      if s.running != 0 {
        HeldIsAllocated(s, s.running);
        assert RecordOk(s, s.running);
      }
      assert LiveProcess(s, p);
      NextIndexFits(s, p);
    }
  }

  lemma OnlyProcessOneKept(s: KState, e: Event, r: KState)
    requires Healthy(s) && OnlyProcessOne(s) && !IsFork(e) && Step(s, e) == Running(r)
    ensures Healthy(r) && OnlyProcessOne(r)
  {
    ProcessOneRequeues(s, e);
    StepHealthy(s, e);
    StepRefines(s, e, r);
    StepKeepsConfig(s, e);
    forall g: nat | IsAllocated(r, g)
      ensures ProcOf(r.cfg, g) == 1
    {
      NewInProcessOne(s, e, g);
    }
  }

  predicate NoForks(es: seq<Event>)
  {
    forall i :: 0 <= i < |es| ==> !IsFork(es[i])
  }

  /**
   * The cycle puts back the right index throughout a run: it puts back the table index, or, as written,
   * only process 1 has threads and nobody forks.
   */
  ghost predicate IndexSafe(s: KState, es: seq<Event>)
    requires s.cfg.nt >= 1
  {
    s.cfg.requeueGlobal || (OnlyProcessOne(s) && NoForks(es))
  }

  lemma SafeStep(s: KState, es: seq<Event>)
    requires Healthy(s) && IndexSafe(s, es) && es != []
    ensures Shape(Awake(s)) && Requeues(s, es[0])
    ensures Step(s, es[0]).Running? ==>
              var t := Step(s, es[0]).s; Healthy(t) && t.cfg == s.cfg && IndexSafe(t, es[1..])
  {
    if s.cfg.requeueGlobal {
      GlobalRequeues(s, es[0]);
    } else {
      ProcessOneRequeues(s, es[0]);
    }
    if Step(s, es[0]).Running? {
      StepHealthy(s, es[0]);
      StepKeepsConfig(s, es[0]);
      if !s.cfg.requeueGlobal {
        OnlyProcessOneKept(s, es[0], Step(s, es[0]).s);
      }
    }
  }

  lemma FirstOf(es: seq<Event>, later: seq<Event>)
    requires es != []
    ensures (es + later)[0] == es[0] && (es + later)[1..] == es[1..] + later
  {
  }

  /** Then every run keeps every invariant at every interrupt. */
  lemma {:induction false} RunHealthy(s: KState, es: seq<Event>, later: seq<Event>, r: KState)
    requires Healthy(s) && IndexSafe(s, es + later) && Run(s, es) == Running(r)
    ensures Healthy(r) && r.cfg == s.cfg && IndexSafe(r, later)
    decreases |es|
  {
    if es == [] {
      assert es + later == later;
    } else {
      FirstOf(es, later);
      SafeStep(s, es + later);
      StepShape(s, es[0]);
      RunHealthy(Step(s, es[0]).s, es[1..], later, r);
    }
  }

  // ---- The line as written, exactly ----

  /** The tick finds a thread ready, after the due sleepers have joined. */
  predicate FindsReady(s: KState)
    requires Shape(s)
  {
    Awake(s).ready != []
  }

  lemma RequeuesExactly(s: KState)
    requires Healthy(s) && !s.cfg.requeueGlobal && DueFirst(SleepDurations(s))
    ensures Shape(Awake(s))
    ensures RequeueOk(Awake(s)) <==> FindsReady(s) ==> s.running == 0 || ProcOf(s.cfg, s.running) == 1
  {
    AwakeHealthy(s);
    if s.running != 0 {
      HeldIsAllocated(Awake(s), s.running);
      IndicesAgree(Awake(s), s.running);
    }
  }

  /**
   * What a cycle that interrupts a thread does, with either index: the head runs with its own registers, the
   * slot within the process (as written) or the index in the table joins the tail, and the control block of
   * the interrupted thread has its registers.
   */
  lemma CycleRequeues(s: KState)
    requires Consistent(s) && s.ready != [] && s.running != 0
    ensures var r := Cycle(s);
            && r.running == s.ready[0] != s.running && |r.threads| == |s.threads|
            && r.ready == s.ready[1..] + [if s.cfg.requeueGlobal then s.running else SlotOf(s.cfg, s.running)]
            && SavedView(r.threads[s.running]) == LiveView(s.frame)
            && LiveView(r.frame) == SavedView(s.threads[s.ready[0]])
  {
    var g := s.running;
    HeldIsAllocated(s, g);
    HeldOnce(s, g);
    GlobalIndexOfThread(s, g);
    assert RecordOk(s, g);
    NumberingBack(s.cfg, g);
    SlotInTable(s.cfg, g);
    RingNoDup(s);
    Pigeonhole(s.ready, NThreads(s.cfg));
    assert s.ready[0] in s.ready;
  }

  lemma SlotInTable(c: Config, g: nat)
    requires c.nt >= 1 && 1 <= g <= NThreads(c)
    ensures 1 <= SlotOf(c, g) <= NThreads(c)
  {
    NumberingBack(c, g);
    ProductMono(1, c.np, c.nt);
  }

  /** The same for the timer tick, in which the due sleepers join the ready ring first. */
  lemma TickRequeues(s: KState, r: KState)
    requires Healthy(s) && TimerCycle(s) == Running(r) && s.running != 0
    requires s.ready + s.sleep[..Due(SleepDurations(s))] != []
    ensures var q := s.ready + s.sleep[..Due(SleepDurations(s))];
            && r.running == q[0] && s.running < |r.threads|
            && r.ready == q[1..] + [if s.cfg.requeueGlobal then s.running else SlotOf(s.cfg, s.running)]
            && SavedView(r.threads[s.running]) == LiveView(s.frame)
            && r.sleep == s.sleep[Due(SleepDurations(s))..]
  {
    TimerCycleExactly(s);
    AwakeConsistent(s);
    CycleRequeues(Awake(s));
  }

  /** The ownership invariants hold after every interrupt of a run. */
  ghost predicate ConsistentThroughout(s: KState, es: seq<Event>)
    requires Shape(s)
    decreases |es|
  {
    Consistent(s) &&
    (es != [] ==>
       (StepShape(s, es[0]);
        Step(s, es[0]).Running? ==> ConsistentThroughout(Step(s, es[0]).s, es[1..])))
  }

  /** Every tick that finds a thread ready interrupts the null thread or a thread of process 1. */
  predicate TicksInProcessOne(s: KState, es: seq<Event>)
    requires Shape(s)
    decreases |es|
  {
    es != [] ==>
      (StepShape(s, es[0]);
       Step(s, es[0]).Running? ==>
         && (es[0].TimerInterrupt? && FindsReady(s) ==> s.running == 0 || ProcOf(s.cfg, s.running) == 1)
         && TicksInProcessOne(Step(s, es[0]).s, es[1..]))
  }

  /**
   * The line as written keeps the ownership invariants throughout a run exactly when every tick that finds
   * a thread ready interrupts the null thread or a thread of process 1, forks or not.
   */
  lemma {:induction false} ConsistentExactly(s: KState, es: seq<Event>)
    requires Healthy(s) && !s.cfg.requeueGlobal
    ensures ConsistentThroughout(s, es) <==> TicksInProcessOne(s, es)
    decreases |es|
  {
    if es != [] {
      StepShape(s, es[0]);
      if Step(s, es[0]).Running? {
        var t := Step(s, es[0]).s;
        StepHealthy(s, es[0]);
        StepKeepsConfig(s, es[0]);
        HaltsExactly(s, es[0]);
        if es[0].TimerInterrupt? {
          RequeuesExactly(s);
        }
        if Consistent(t) {
          ConsistentExactly(t, es[1..]);
        }
      }
    }
  }

  lemma BootViews(c: Config, f: Frame)
    requires ValidConfig(c)
    ensures Healthy(Boot(c, f)) && Boot(c, f).cfg == c
    ensures forall g: nat :: IsAllocated(Boot(c, f), g) <==> g == 1
    ensures Views(Boot(c, f)) == map[1 := InitialView(c, 1, c.mainThread, 0, 0)]
    ensures Boot(c, f).threads[0] == Init(c, f).threads[0]
  {
    BootHealthy(c, f);
    InitConsistent(c, f);
    var s := Init(c, f);
    assert UpTo(c.np)[0] == 1;
    var w := CreateProcessUnfold(s, c.mainThread, 0, 0);
    ForkViewsIn(s, w, 1, c.mainThread, 0, 0, Boot(c, f));
    forall g: nat
      ensures !IsAllocated(s, g)
    {
      if 1 <= g <= NThreads(c) {
        NumberingBack(c, g);
        UpToHas(c.np, ProcOf(c, g));
      }
    }
    assert Views(s) == map[];
    forall g: nat
      ensures IsAllocated(Boot(c, f), g) <==> g == 1
    {
      assert IsAllocated(Boot(c, f), g) <==> g in Views(Boot(c, f));
    }
  }

  lemma BootSafe(c: Config, f: Frame, es: seq<Event>)
    requires ValidConfig(c) && (c.requeueGlobal || NoForks(es))
    ensures Healthy(Boot(c, f)) && Boot(c, f).cfg == c && IndexSafe(Boot(c, f), es)
  {
    BootViews(c, f);
  }

  /** A run from power-on that ends in `r`: any one with the table index, one without forks as written. */
  predicate BootRun(c: Config, f: Frame, es: seq<Event>, r: KState)
  {
    && ValidConfig(c) && (c.requeueGlobal || NoForks(es))
    && Shape(Boot(c, f)) && Run(Boot(c, f), es) == Running(r)
  }

  /**
   * From power-on, every run that does not halt ends in a healthy state, with the table index; with the
   * line as written, every such run without forks does.
   */
  lemma BootRunHealthy(c: Config, f: Frame, es: seq<Event>, r: KState)
    requires BootRun(c, f, es, r)
    ensures Healthy(r)
  {
    BootSafe(c, f, es);
    assert es + [] == es;
    RunHealthy(Boot(c, f), es, [], r);
  }

  /** After every run from power-on the saved status of each thread, and the live one, is in user mode. */
  lemma ModesAfterBoot(c: Config, f: Frame, es: seq<Event>, r: KState, g: nat)
    requires BootRun(c, f, es, r) && Shape(r) && (g == 0 || IsAllocated(r, g))
    ensures g < |r.threads| && InUserMode(r.threads[g].cpsr)
    ensures r.running != 0 ==> InUserMode(r.frame.spsr)
  {
    BootRunHealthy(c, f, es, r);
    UserModeBits(r.frame.spsr);
    UserModeBits(r.threads[g].cpsr);
    assert ModeOk(r, g);
  }

  /** The event runs code of the thread at `g`, delivers a character to it, or kills it. */
  predicate Touches(s: KState, e: Event, g: nat)
    requires Shape(s)
  {
    match e
    case CodeRuns(_) => s.running == g
    case Fault => s.running == g
    case UartInterrupt(received) => received.Some? && s.chars != [] && s.chars[0] == g
    case SupervisorCall(id) =>
      s.running == g &&
      (if id == 2 then s.uart != []
       else if id == 3 || id == 4 then false
       else !((id == 5 || id == 6) && ArgumentsOk(s)))
    case _ => false
  }

  predicate RunTouches(s: KState, es: seq<Event>, g: nat)
    requires Shape(s)
    decreases |es|
  {
    es != [] &&
    (StepShape(s, es[0]);
     Touches(s, es[0], g) || (Step(s, es[0]).Running? && RunTouches(Step(s, es[0]).s, es[1..], g)))
  }

  lemma UntouchedView(s: KState, e: Event, g: nat)
    requires Healthy(s) && IsAllocated(s, g) && !Touches(s, e, g)
    ensures g in NextViews(s, e) && NextViews(s, e)[g] == Views(s)[g]
  {
    if e.SupervisorCall? && ArgumentsOk(s) {
      if e.id == 5 && s.freeProcs != [] {
        RangePop(s.freeProcs, s.cfg.np);
        Numbering(s.cfg, s.freeProcs[0], 1);
      } else if e.id == 6 {
        OwnProcessLives(s);
        var p := s.threads[s.running].process;
        if p != 0 && s.procs[p].free != [] {
          assert LiveProcess(s, p);
          NextIndexFits(s, p);
        }
      }
    }
  }

  /**
   * Through every such run a thread keeps its registers until its own code runs, a character is delivered
   * to it or it is killed, whatever happens to others; the null thread keeps those it was given at boot.
   */
  lemma {:induction false} RegistersKept(s: KState, es: seq<Event>, g: nat, r: KState)
    requires Healthy(s) && IndexSafe(s, es) && Run(s, es) == Running(r)
    ensures |r.threads| > 0 && r.threads[0] == s.threads[0]
    ensures IsAllocated(s, g) && !RunTouches(s, es, g) ==>
              IsAllocated(r, g) && g < |r.threads| && g < |s.threads| && ViewOf(r, g) == ViewOf(s, g)
    decreases |es|
  {
    if es != [] {
      var e := es[0];
      StepShape(s, e);
      var t := Step(s, e).s;
      SafeStep(s, es);
      StepRefines(s, e, t);
      RegistersKept(t, es[1..], g, r);
      if IsAllocated(s, g) && !Touches(s, e, g) {
        UntouchedView(s, e, g);
        assert g in Views(t) && Views(t)[g] == Views(s)[g];
      }
    }
  }
}
