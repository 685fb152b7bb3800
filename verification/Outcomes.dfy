/** What the handlers leave, in numbers: the first thread, new threads, the idle loop and the counters. */
module Outcomes {
  import opened Words
  import opened KernelState
  import opened Ownership
  import opened Waking
  import opened Health
  import opened Safety
  import opened Context
  import opened Calls
  import opened AsWritten
  import opened Fairness
  import opened Counterexamples

  // ---- Registers of new threads ----

  /** The top of the stack of a slot: two pages and a kilobyte above the base, and two pages for each slot. */
  function StackTop(c: Config, slot: nat): nat
  {
    c.baseMb * 1048576 + slot * 8192 + 9216
  }

  /**
   * A new thread starts its function in user mode with `exit` as return address. Without arguments it has
   * the top of its stack and a null pointer; with arguments, its stack pointer and r0 point to their copy.
   */
  lemma NewThreadView(c: Config, slot: nat, func: word, args: word, argsSize: word)
    requires ValidConfig(c) && slot <= c.nt && argsSize <= 1024
    ensures var v := InitialView(c, slot, func, args, argsSize);
            && v.gr.pc == func && v.gr.lr == c.exitAddress && v.spsr == 0x10
            && v.gr.sp == (if args == 0 then StackTop(c, slot) else StackTop(c, slot) - argsSize)
            && v.gr.r0 == (if args == 0 || argsSize == 0 then 0 else v.gr.sp)
            && v.gr.r1 == v.gr.r2 == v.gr.r3 == v.gr.r4 == v.gr.r5 == v.gr.r6 == v.gr.r7 == v.gr.r8 == 0
            && v.gr.r9 == v.gr.r10 == v.gr.r11 == v.gr.r12 == 0
  {
    StackBounds(c, slot);
  }

  /** The control block of a new thread. */
  lemma NewControlBlock(s: KState, p: nat, func: word, args: word, argsSize: word, r: KState)
    requires Consistent(s) && 1 <= p < |s.procs| && p !in s.freeProcs && s.procs[p].free != []
    requires r == CreateThread(s, p, func, args, argsSize)
    ensures var g := (p - 1) * s.cfg.nt + s.procs[p].free[0];
            && g < |r.threads| && r.ready == s.ready + [g]
            && SavedView(r.threads[g]) == InitialView(s.cfg, s.procs[p].free[0], func, args, argsSize)
            && r.threads[g].process == p && r.threads[g].index == s.procs[p].free[0]
            && r.threads[g].tid == (s.tidCounter + 1) % 0x1_0000_0000
            && r.threads[g].waiting == 0 && r.threads[g].state == READY
  {
    assert LiveProcess(s, p);
    CreateThreadAdds(s, p, func, args, argsSize);
    CreatedView(s, p, func, args, argsSize);
    CreatedFields(s, p, func, args, argsSize);
  }

  lemma CreatedFields(s: KState, p: nat, func: word, args: word, argsSize: word)
    requires Shape(s) && p < |s.procs| && s.procs[p].free != []
    ensures var t := CreatedTcb(s, p, func, args, argsSize);
            && t.process == p && t.index == s.procs[p].free[0] && t.waiting == 0 && t.state == READY
            && t.tid == (s.tidCounter + 1) % 0x1_0000_0000
  {
    Counting32(s.tidCounter);
  }

  // ---- Boot ----

  /** The null thread idles in user mode on the stack of slot 0. */
  lemma NullThreadIdles(c: Config, f: Frame)
    requires ValidConfig(c)
    ensures |Boot(c, f).threads| > 0
    ensures var v := SavedView(Boot(c, f).threads[0]);
            v.gr.pc == c.endlessLoop && v.gr.sp == StackTop(c, 0) && v.spsr == 0x10
  {
    BootViews(c, f);
    StackBounds(c, 0);
  }

  /** After boot there is one thread, which starts the main function; the first tick runs it. */
  lemma MainThreadRuns(c: Config, f: Frame) returns (r: KState)
    requires ValidConfig(c)
    ensures Views(Boot(c, f)) == map[1 := InitialView(c, 1, c.mainThread, 0, 0)]
    ensures Shape(Boot(c, f)) && Run(Boot(c, f), [TimerInterrupt]) == Running(r)
    ensures r.running == 1 && r.frame.gr.lr == c.mainThread && r.frame.usrSp == StackTop(c, 1)
    ensures r.frame.usrLr == c.exitAddress && r.frame.spsr == 0x10 && r.frame.gr.r0 == 0
  {
    var s := Boot(c, f);
    BootViews(c, f);
    BootFacts(c, f, s);
    r := Cycle(s);
    QuietRotation(s, r);
    AwakeShape(s);
    StepHealthy(s, TimerInterrupt);
    StepRefines(s, TimerInterrupt, r);
    NewThreadView(c, 1, c.mainThread, 0, 0);
    assert ViewOf(r, 1) == Views(r)[1];
    RunFirst(s, TimerInterrupt, [], r);
  }

  // ---- The idle loop ----

  lemma BlockIdles(s: KState, ring: WaitingRing, b: KState)
    requires Consistent(s) && s.running != 0 && b == Cycle(Parked(s, ring)) && b.running == 0
    ensures s.ready == [] && LiveView(b.frame) == SavedView(s.threads[0])
  {
    BlockConsistent(s, ring);
    ParkedMoves(s, ring);
    CycleAdvances(Parked(s, ring));
    SaveLoad(s.threads[0], s.frame);
  }

  lemma KillIdles(s: KState, r: KState)
    requires Healthy(s) && s.running != 0 && r == Kill(s) && r.running == 0
    ensures s.ready == [] && LiveView(r.frame) == SavedView(s.threads[0])
  {
    KillRemoves(s);
    SaveLoad(s.threads[0], s.frame);
  }

  lemma CallIdles(s: KState, id: nat, r: KState)
    requires Healthy(s) && Syscall(s, id) == Running(r) && s.running != 0 && r.running == 0
    ensures s.ready == [] && LiveView(r.frame) == SavedView(s.threads[0])
  {
    var gr := s.frame.gr;
    if id == 2 {
      BlockIdles(s, CharRing, Cycle(Parked(s, CharRing)));
    } else if id == 4 {
      BlockIdles(s, SleepRing, Cycle(Parked(s, SleepRing)));
    } else if id == 5 && ArgumentsOk(s) {
      CreateProcessAdvances(s, gr.r0, gr.r1, gr.r2, r);
    } else if !(id == 3 || (id == 6 && ArgumentsOk(s))) {
      KillIdles(s, r);
    }
  }

  /** When an interrupt leaves the processor to the null thread, nobody is ready and its own registers are loaded. */
  lemma GoesIdle(s: KState, e: Event, r: KState)
    requires Healthy(s) && Step(s, e) == Running(r) && s.running != 0 && r.running == 0
    ensures s.ready == [] && LiveView(r.frame) == SavedView(s.threads[0])
  {
    HaltsExactly(s, e);
    match e
    case TimerInterrupt => TickStaysBusy(s, r);
    case SupervisorCall(id) => CallIdles(s, id, r);
    case Fault => KillIdles(s, r);
    case UartInterrupt(_) =>
    case UnknownInterrupt =>
    case CodeRuns(_) =>
  }

  lemma TickStaysBusy(s: KState, r: KState)
    requires Healthy(s) && TimerCycle(s) == Running(r) && s.running != 0
    ensures r.running != 0
  {
    TimerCycleExactly(s);
    AwakeShape(s);
    var a := Awake(s);
    if a.ready != [] {
      assert 1 <= a.ready[0];
    }
  }

  // ---- Counters ----

  /** The 32-bit increment and decrement. */
  lemma Counting32(w: word)
    ensures Incremented(w) == (w + 1) % 0x1_0000_0000
    ensures Decremented(w) == (w + 0xffff_ffff) % 0x1_0000_0000
  {
  }

  /** The event creates a process, or a thread. */
  predicate AsksForProcess(s: KState, e: Event)
    requires Shape(s)
  {
    e.SupervisorCall? && e.id == 5 && ArgumentsOk(s)
  }

  predicate AsksForThread(s: KState, e: Event)
    requires Shape(s)
  {
    e.SupervisorCall? && ArgumentsOk(s) && ((e.id == 5 && s.freeProcs != []) || e.id == 6)
  }

  lemma ForkCounters(s: KState, func: word, args: word, argsSize: word, r: KState)
    requires Shape(s) && r == CreateProcess(s, func, args, argsSize)
    ensures r.pidCounter == Incremented(s.pidCounter)
    ensures r.tidCounter == if s.freeProcs != [] then Incremented(s.tidCounter) else s.tidCounter
  {
    if s.freeProcs != [] {
      var w := CreateProcessUnfold(s, func, args, argsSize);
    }
  }

  lemma CallCounters(s: KState, id: nat, r: KState)
    requires Shape(s) && Syscall(s, id) == Running(r)
    ensures r.pidCounter == if AsksForProcess(s, SupervisorCall(id)) then Incremented(s.pidCounter) else s.pidCounter
    ensures r.tidCounter == if AsksForThread(s, SupervisorCall(id)) then Incremented(s.tidCounter) else s.tidCounter
  {
    if AsksForProcess(s, SupervisorCall(id)) {
      ForkCounters(s, s.frame.gr.r0, s.frame.gr.r1, s.frame.gr.r2, r);
    }
  }

  /** Each accepted fork takes an identifier, and each attempt to create a thread takes a thread identifier. */
  lemma StepCounters(s: KState, e: Event, r: KState)
    requires Shape(s) && Step(s, e) == Running(r)
    ensures r.pidCounter == if AsksForProcess(s, e) then (s.pidCounter + 1) % 0x1_0000_0000 else s.pidCounter
    ensures r.tidCounter == if AsksForThread(s, e) then (s.tidCounter + 1) % 0x1_0000_0000 else s.tidCounter
  {
    Counting32(s.pidCounter);
    Counting32(s.tidCounter);
    if e.SupervisorCall? {
      CallCounters(s, e.id, r);
    }
  }

  /** Running code leaves its registers in the frame, but not its mode. */
  lemma RunningCode(before: Frame, f: Frame)
    ensures var r := Ran(before, f);
            && r.gr == f.gr && r.usrLr == f.usrLr && r.usrSp == f.usrSp
            && r.spsr % 32 == before.spsr % 32 && r.spsr / 32 == f.spsr / 32
  {
  }
}
