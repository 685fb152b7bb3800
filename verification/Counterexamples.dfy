/** Runs from power-on that go wrong: the halting copy, a lost thread, and the panic of `decrement_waits`. */
module Counterexamples {
  import opened Words
  import opened Rings
  import opened KernelState
  import opened Ownership
  import opened Waking
  import opened Health
  import opened Safety
  import opened Context
  import opened Calls
  import opened AsWritten
  import opened Fairness
  import opened Waiting

  lemma QuietRotation(s: KState, r: KState)
    requires Healthy(s) && s.sleep == [] && s.ready != [] && RequeueOk(s)
    requires r == Cycle(s)
    ensures Step(s, TimerInterrupt) == Running(r) && Healthy(r)
    ensures r.cfg == s.cfg && r.sleep == [] && r.freeProcs == s.freeProcs && r.procs == s.procs
    ensures r.running == s.ready[0] && r.ready == s.ready[1..] + PutBack(s.running)
  {
    CycleRotates(s);
    CycleHealthy(s);
  }

  lemma BootFacts(c: Config, f: Frame, s: KState)
    requires ValidConfig(c) && s == Boot(c, f)
    ensures s.running == 0 && s.ready == [1] && s.sleep == [] && s.freeProcs == UpTo(c.np)[1..]
    ensures |s.procs| == c.np + 1 && s.procs[1].free == UpTo(c.nt)[1..]
  {
    InitConsistent(c, f);
    var i := Init(c, f);
    var w := CreateProcessUnfold(i, c.mainThread, 0, 0);
    FreshProcess(i, 1);
    assert UpTo(c.np)[0] == 1 && UpTo(c.nt)[0] == 1;
    CreateThreadAdds(w, 1, c.mainThread, 0, 0);
  }

  /** The registers with which the first thread of a process passes a block at the bottom of its stack. */
  function CallFrame(c: Config, f: Frame, size: word): Frame
    requires ValidConfig(c)
  {
    f.(gr := ZERO_REGISTERS.(r1 := c.baseMb * 0x10_0000 + 0x4000, r2 := size))
  }

  function ForkFrame(c: Config, f: Frame): Frame
    requires ValidConfig(c)
  {
    CallFrame(c, f, 4)
  }

  lemma CallArguments(s: KState, f: Frame, size: word, t: KState)
    requires Healthy(s) && s.running == 1 && SizePasses(0, size)
    requires t == s.(frame := Ran(s.frame, CallFrame(s.cfg, f, size)))
    ensures Healthy(t) && Step(s, CodeRuns(CallFrame(s.cfg, f, size))) == Running(t)
    ensures UserMode(t.frame.spsr) && ArgumentsOk(t) && t.threads[1].process == 1
  {
    CodeHealthy(s, CallFrame(s.cfg, f, size));
    FirstThread(s);
    BlockAtBottom(t, size);
  }

  lemma FirstThread(s: KState)
    requires Healthy(s) && s.running == 1
    ensures s.threads[1].process == 1 && s.threads[1].index == 1
  {
    HeldIsAllocated(s, 1);
    assert RecordOk(s, 1);
    FirstSlot(s.cfg);
  }

  lemma BlockAtBottom(t: KState, size: word)
    requires Shape(t) && t.running == 1 && t.threads[1].index == 1 && SizePasses(0, size)
    requires t.frame.gr == ZERO_REGISTERS.(r1 := t.cfg.baseMb * 0x10_0000 + 0x4000, r2 := size)
    ensures ArgumentsOk(t)
  {
    ArgumentsExactly(t);
    StackBounds(t.cfg, 1);
  }

  lemma FirstSlot(c: Config)
    requires ValidConfig(c)
    ensures ProcOf(c, 1) == 1 && SlotOf(c, 1) == 1
  {
    Numbering(c, 1, 1);
  }

  lemma ForkReady(s: KState, r: KState)
    requires Healthy(s) && s.freeProcs != [] && s.ready == []
    requires r == CreateProcess(s, s.frame.gr.r0, s.frame.gr.r1, s.frame.gr.r2)
    ensures Healthy(r) && r.cfg == s.cfg && r.sleep == s.sleep && r.running == s.running
    ensures r.ready == [FirstIndex(s.cfg, s.freeProcs[0])] && r.freeProcs == s.freeProcs[1..]
    ensures s.freeProcs[0] < |r.procs| && r.procs[s.freeProcs[0]].pid == Incremented(s.pidCounter)
    ensures r.procs[s.freeProcs[0]].free == UpTo(s.cfg.nt)[1..] && r.pidCounter == Incremented(s.pidCounter)
  {
    var gr := s.frame.gr;
    CreateProcessHealthy(s, gr.r0, gr.r1, gr.r2, r);
    var pid: word := Incremented(s.pidCounter);
    var w := CreateProcessUnfold(s, gr.r0, gr.r1, gr.r2);
    FreshProcess(s, pid);
    assert UpTo(s.cfg.nt)[0] == 1;
    CreateThreadAdds(w, s.freeProcs[0], gr.r0, gr.r1, gr.r2);
  }

  lemma {:induction false} RunConcat(s: KState, es: seq<Event>, fs: seq<Event>, m: KState)
    requires Shape(s) && Run(s, es) == Running(m)
    ensures Shape(m) && Run(s, es + fs) == Run(m, fs)
    decreases |es|
  {
    if es == [] {
      assert es + fs == fs;
    } else {
      StepShape(s, es[0]);
      FirstOf(es, fs);
      RunConcat(Step(s, es[0]).s, es[1..], fs, m);
    }
  }

  lemma RunFirst(s: KState, e: Event, es: seq<Event>, r: KState)
    requires Shape(s) && Step(s, e) == Running(r)
    ensures Shape(r) && Run(s, [e] + es) == Run(r, es)
  {
    StepShape(s, e);
    assert ([e] + es)[1..] == es;
  }

  /** Boot, a tick, and the first thread forks. */
  function ForkRun(c: Config, f: Frame): seq<Event>
    requires ValidConfig(c)
  {
    [TimerInterrupt, CodeRuns(ForkFrame(c, f)), SupervisorCall(5)]
  }

  /** Then both threads exist. */
  lemma TwoProcesses(c: Config, f: Frame) returns (d: KState)
    requires ValidConfig(c) && c.np >= 2
    ensures Shape(Boot(c, f)) && Run(Boot(c, f), ForkRun(c, f)) == Running(d) && Healthy(d)
    ensures d.cfg == c && d.running == 1 && d.ready == [FirstIndex(c, 2)] && d.sleep == []
  {
    var s := Boot(c, f);
    BootViews(c, f);
    BootFacts(c, f, s);
    var a := Cycle(s);
    QuietRotation(s, a);
    var b := a.(frame := Ran(a.frame, ForkFrame(c, f)));
    CallArguments(a, f, 4, b);
    assert UpTo(c.np)[1..][0] == 2;
    d := CreateProcess(b, b.frame.gr.r0, b.frame.gr.r1, b.frame.gr.r2);
    ForkReady(b, d);
    RunFirst(s, TimerInterrupt, [CodeRuns(ForkFrame(c, f)), SupervisorCall(5)], a);
    RunFirst(a, CodeRuns(ForkFrame(c, f)), [SupervisorCall(5)], b);
    RunFirst(b, SupervisorCall(5), [], d);
  }

  // ---- The copy of the arguments halts the kernel ----

  /** The first thread is about to pass a size that wraps below 2^32. */
  function LongRun(c: Config, f: Frame): seq<Event>
    requires ValidConfig(c)
  {
    [TimerInterrupt, CodeRuns(CallFrame(c, f, 0xffff_fffc))]
  }

  /**
   * Boot, a tick, and the first thread calls `fork` or `create_thread` with a size that wraps: the state is
   * healthy, the thread in user mode and its arguments pass the checks, and the call halts the kernel.
   */
  lemma LongCopyHalts(c: Config, f: Frame, id: nat) returns (r: KState)
    requires ValidConfig(c) && ((id == 5 && c.np >= 2) || (id == 6 && c.nt >= 2))
    ensures Shape(Boot(c, f)) && Run(Boot(c, f), LongRun(c, f)) == Running(r)
    ensures Healthy(r) && r.running == 1 && UserMode(r.frame.spsr) && ArgumentsOk(r)
    ensures Run(Boot(c, f), LongRun(c, f) + [SupervisorCall(id)]).Halted?
  {
    var s := Boot(c, f);
    BootViews(c, f);
    BootFacts(c, f, s);
    var a := Cycle(s);
    QuietRotation(s, a);
    r := a.(frame := Ran(a.frame, CallFrame(c, f, 0xffff_fffc)));
    CallArguments(a, f, 0xffff_fffc, r);
    RunFirst(s, TimerInterrupt, [CodeRuns(CallFrame(c, f, 0xffff_fffc))], a);
    RunFirst(a, CodeRuns(CallFrame(c, f, 0xffff_fffc)), [], r);
    RunConcat(s, LongRun(c, f), [SupervisorCall(id)], r);
    HaltsExactly(r, SupervisorCall(id));
  }

  // ---- A thread is lost ----

  /** The thread of process 2 has run, and a tick later it is held nowhere, although it is allocated. */
  lemma SecondTick(c: Config, e: KState, r: KState)
    requires ValidConfig(c) && c.np >= 2 && !c.requeueGlobal && Healthy(e) && e.cfg == c
    requires e.running == FirstIndex(c, 2) && e.ready == [1] && e.sleep == [] && r == Cycle(e)
    ensures Step(e, TimerInterrupt) == Running(r)
    ensures IsAllocated(r, FirstIndex(c, 2)) && Copies(r, FirstIndex(c, 2)) == 0
  {
    var g := FirstIndex(c, 2);
    HeldIsAllocated(e, g);
    Numbering(c, 2, 1);
    IndicesAgree(e, g);
    CycleShape(e);
    CycleLosesThread(e);
  }

  /**
   * With two processes the kernel as written loses a thread: boot, tick, the first thread forks, two
   * ticks. The new thread is allocated, and neither running nor in any ring.
   */
  lemma ThreadIsLost(c: Config, f: Frame)
    requires ValidConfig(c) && c.np >= 2 && !c.requeueGlobal
    ensures Shape(Boot(c, f)) && Run(Boot(c, f), ForkRun(c, f) + [TimerInterrupt, TimerInterrupt]).Running?
    ensures var r := Run(Boot(c, f), ForkRun(c, f) + [TimerInterrupt, TimerInterrupt]).s;
            IsAllocated(r, FirstIndex(c, 2)) && Copies(r, FirstIndex(c, 2)) == 0
  {
    var d := TwoProcesses(c, f);
    var e := Cycle(d);
    HeldIsAllocated(d, 1);
    IndicesAgree(d, 1);
    QuietRotation(d, e);
    var r := Cycle(e);
    SecondTick(c, e, r);
    RunConcat(Boot(c, f), ForkRun(c, f), [TimerInterrupt, TimerInterrupt], d);
    RunFirst(d, TimerInterrupt, [TimerInterrupt], e);
    RunFirst(e, TimerInterrupt, [], r);
  }

  // ---- The panic of decrement_waits ----

  /** The registers of a thread that is about to call `wait(n)`. */
  function WaitFrame(f: Frame, n: word): Frame
  {
    f.(gr := ZERO_REGISTERS.(r0 := n))
  }

  /** The running thread calls `wait(n)`. */
  lemma WaitCall(s: KState, f: Frame, n: word) returns (r: KState)
    requires Healthy(s) && s.running != 0 && n != 0
    ensures Run(s, [CodeRuns(WaitFrame(f, n)), SupervisorCall(4)]) == Running(r) && Healthy(r) && r.cfg == s.cfg
    ensures r.sleep == s.sleep + [s.running] && AsleepFor(r, s.running, n)
    ensures forall g :: g in s.sleep ==> g < |s.threads| && AsleepFor(r, g, s.threads[g].waiting)
    ensures s.ready == [] ==> r.running == 0 && r.ready == []
    ensures s.ready != [] ==> r.running == s.ready[0] && r.ready == s.ready[1..]
  {
    CodeHealthy(s, WaitFrame(f, n));
    var t := s.(frame := Ran(s.frame, WaitFrame(f, n)));
    r := OnSleep(t, n).s;
    SleepHealthy(t, n);
    WaitStarts(t, r);
    BlockHealthy(t, SleepRing, Cycle(Parked(t, SleepRing)));
    BlockConsistent(t, SleepRing);
    ParkedMoves(t, SleepRing);
    CycleAdvances(Parked(t, SleepRing));
    forall g | g in s.sleep
      ensures g < |s.threads| && AsleepFor(r, g, s.threads[g].waiting)
    {
      OnlyTicksCount(t, SupervisorCall(4), g, r);
    }
    RunFirst(s, CodeRuns(WaitFrame(f, n)), [SupervisorCall(4)], t);
    RunFirst(t, SupervisorCall(4), [], r);
  }

  /** The first thread of process 1 sleeps for two ticks, then that of process 2 for one. */
  function WaitRun(c: Config, f: Frame): seq<Event>
    requires ValidConfig(c)
  {
    ForkRun(c, f) + [CodeRuns(WaitFrame(f, 2)), SupervisorCall(4)] + [CodeRuns(WaitFrame(f, 1)), SupervisorCall(4)]
  }

  /** It leads to a healthy state. */
  lemma BothWait(c: Config, f: Frame) returns (r: KState)
    requires ValidConfig(c) && c.np >= 2
    ensures Shape(Boot(c, f)) && Run(Boot(c, f), WaitRun(c, f)) == Running(r) && Healthy(r)
    ensures r.sleep == [1, FirstIndex(c, 2)] && AsleepFor(r, 1, 2) && AsleepFor(r, FirstIndex(c, 2), 1)
  {
    var d := TwoProcesses(c, f);
    var e := WaitCall(d, f, 2);
    r := WaitCall(e, f, 1);
    var first, second := [CodeRuns(WaitFrame(f, 2)), SupervisorCall(4)], [CodeRuns(WaitFrame(f, 1)), SupervisorCall(4)];
    RunConcat(Boot(c, f), ForkRun(c, f), first, d);
    RunConcat(Boot(c, f), ForkRun(c, f) + first, second, e);
  }

  /**
   * With two processes the kernel panics after boot, a tick, a fork, `wait(2)` by the first thread and
   * `wait(1)` by the second: the state is healthy, and the next tick halts it.
   */
  lemma WaitPanics(c: Config, f: Frame) returns (r: KState)
    requires ValidConfig(c) && c.np >= 2
    ensures Shape(Boot(c, f)) && Run(Boot(c, f), WaitRun(c, f)) == Running(r)
    ensures Healthy(r) && SleepDurations(r) == [2, 1]
    ensures Run(Boot(c, f), WaitRun(c, f) + [TimerInterrupt]).Halted?
  {
    r := BothWait(c, f);
    TimerCycleExactly(r);
    RunConcat(Boot(c, f), WaitRun(c, f), [TimerInterrupt], r);
  }
}
