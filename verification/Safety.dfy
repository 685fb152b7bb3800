/** Whole runs of the kernel: every interrupt keeps the invariants, and when exactly the kernel halts. */
module Safety {
  import opened Words
  import opened Bits
  import opened Rings
  import opened Uart
  import opened Counting
  import opened AddressSpace
  import opened KernelState
  import opened Ownership
  import opened Sleeping
  import opened Waking
  import opened Health

  // ---- Sizes and ranges are kept whatever the requeue index ----

  lemma CycleShape(s: KState)
    requires Shape(s)
    ensures Shape(Cycle(s))
  {
    if s.ready != [] {
      var n := NThreads(s.cfg);
      RangePop(s.ready, n);
      var q := s.ready[1..];
      var s1 := s.(ready := q, running := s.ready[0]);
      if s.running == 0 {
        SwitchContextShape(s1, None, s.ready[0]);
      } else {
        var back := RequeueIndex(s, s.running);
        if PushOk(n, q, back) {
          RangePush(q, back, n);
          SwitchContextShape(s1.(ready := q + [back]), Some(s.running), s.ready[0]);
        }
      }
    }
  }

  lemma KillShape(s: KState)
    requires Shape(s)
    ensures Shape(Kill(s))
  {
    DepartedShape(s);
    var d := Departed(s);
    SwitchContextShape(d, None, d.running);
    var p := s.threads[s.running].process;
    assert InRange(s.procs[p].free, SlotCapacity(s.cfg, p));
  }

  lemma ParkedShape(s: KState, ring: WaitingRing)
    requires Shape(s)
    ensures Shape(Parked(s, ring)) && Shape(Cycle(Parked(s, ring)))
  {
    CycleShape(Parked(s, ring));
  }

  lemma SleepShape(s: KState, d: word)
    requires Shape(s)
    ensures OnSleep(s, d).Running? ==> Shape(OnSleep(s, d).s)
  {
    ParkedShape(s, SleepRing);
  }

  lemma GetCharShape(s: KState)
    requires Shape(s)
    ensures GetChar(s).Running? ==> Shape(GetChar(s).s)
  {
    ParkedShape(s, CharRing);
  }

  lemma CreateThreadShape(s: KState, p: nat, func: word, args: word, argsSize: word, r: KState)
    requires Shape(s) && p < |s.procs| && r == CreateThread(s, p, func, args, argsSize)
    ensures Shape(r)
  {
    var free := s.procs[p].free;
    if free != [] {
      assert InRange(free, SlotCapacity(s.cfg, p));
      RangePop(free, SlotCapacity(s.cfg, p));
      assert forall x :: PushOk(NThreads(s.cfg), s.ready, x) ==> InRange(s.ready + [x], NThreads(s.cfg));
    }
  }

  lemma CreateProcessShape(s: KState, func: word, args: word, argsSize: word, r: KState)
    requires Shape(s) && r == CreateProcess(s, func, args, argsSize)
    ensures Shape(r)
  {
    if s.freeProcs != [] {
      var w := CreateProcessUnfold(s, func, args, argsSize);
      CreateThreadShape(w, s.freeProcs[0], func, args, argsSize, r);
    }
  }

  lemma SyscallShape(s: KState, id: nat)
    requires Shape(s)
    ensures Syscall(s, id).Running? ==> Shape(Syscall(s, id).s)
  {
    var gr := s.frame.gr;
    if id == 2 {
      GetCharShape(s);
    } else if id == 4 {
      SleepShape(s, gr.r0);
    } else if id == 5 && ArgumentsOk(s) {
      CreateProcessShape(s, gr.r0, gr.r1, gr.r2, CreateProcess(s, gr.r0, gr.r1, gr.r2));
    } else if id == 6 && ArgumentsOk(s) {
      var p := s.threads[s.running].process;
      CreateThreadShape(s, p, gr.r0, gr.r1, gr.r2, CreateThread(s, p, gr.r0, gr.r1, gr.r2));
    } else if id != 3 {
      KillShape(s);
    }
  }

  lemma StepShape(s: KState, e: Event)
    requires Shape(s)
    ensures Step(s, e).Running? ==> Shape(Step(s, e).s)
  {
    match e
    case TimerInterrupt =>
      var r := DecrementWaits(NThreads(s.cfg), s.sleep, s.threads, s.sleep, s.ready);
      if r.Sleepers? {
        CycleShape(s.(threads := r.threads, sleep := r.sleep, ready := r.ready));
      }
    case UartInterrupt(received) =>
    case SupervisorCall(id) => SyscallShape(s, id);
    case Fault => KillShape(s);
    case UnknownInterrupt =>
    case CodeRuns(_) =>
  }

  /** A run: the interrupts in order, until one halts the kernel. */
  function Run(s: KState, es: seq<Event>): Outcome
    requires Shape(s)
    decreases |es|
  {
    if es == [] then Running(s)
    else
      StepShape(s, es[0]);
      match Step(s, es[0])
      case Halted => Halted
      case Running(s') => Run(s', es[1..])
  }

  // ---- The invariants ----

  /** The tick puts the old thread back under its own index. */
  predicate Requeues(s: KState, e: Event)
    requires Shape(s)
    requires Shape(Awake(s))
  {
    e.TimerInterrupt? && DueFirst(SleepDurations(s)) ==> RequeueOk(Awake(s))
  }

  /** The current thread has not the standing to make the call: the null thread would have to wait. */
  predicate NullWaits(s: KState, id: nat)
  {
    s.running == 0 && ((id == 2 && s.uart == []) || (id == 4 && s.frame.gr.r0 != 0))
  }

  /** The call passes its checks with more bytes than a stack holds, and gets as far as the copy. */
  predicate CopyHalts(s: KState, id: nat)
    requires Shape(s)
  {
    && ArgumentsOk(s) && s.frame.gr.r2 > THREAD_STACK_SIZE
    && ((id == 5 && s.freeProcs != []) || (id == 6 && s.procs[s.threads[s.running].process].free != []))
  }

  lemma ArgumentsPresent(s: KState)
    requires Shape(s) && ArgumentsOk(s)
    ensures s.frame.gr.r1 != 0
  {
  }

  /** The mode bits 4..0 of the status register are 1, 0, 0, 0, 0: user mode. */
  predicate InUserMode(spsr: word)
  {
    Bit(spsr, 4) && !Bit(spsr, 3) && !Bit(spsr, 2) && !Bit(spsr, 1) && !Bit(spsr, 0)
  }

  lemma UserModeBits(spsr: word)
    ensures InUserMode(spsr) <==> spsr % 32 == 16
    ensures InUserMode(spsr) <==> UserMode(spsr)
  {
    LowIsRemainder(spsr, 5);
    assert Pow2(5) == 32;
    ModeBits(spsr);
  }

  lemma ModeBits(x: nat)
    ensures Low(x, 5) == 16
      <==> Bit(x, 4) && !Bit(x, 3) && !Bit(x, 2) && !Bit(x, 1) && !Bit(x, 0)
  {
    TopBits(x / 2 / 2);
    assert Low(x, 5) == 2 * Low(x / 2, 4) + x % 2;
    assert Low(x / 2, 4) == 2 * Low(x / 2 / 2, 3) + x / 2 % 2;
    assert Bit(x, 1) == Bit(x / 2, 0);
    assert Bit(x, 2) == Bit(x / 2, 1) == Bit(x / 2 / 2, 0);
    assert Bit(x, 3) == Bit(x / 2, 2) == Bit(x / 2 / 2, 1);
    assert Bit(x, 4) == Bit(x / 2, 3) == Bit(x / 2 / 2, 2);
  }

  lemma TopBits(x: nat)
    ensures Low(x, 3) == 4 <==> Bit(x, 2) && !Bit(x, 1) && !Bit(x, 0)
  {
    assert Low(x, 3) == 2 * Low(x / 2, 2) + x % 2;
    assert Low(x / 2, 2) == 2 * Low(x / 2 / 2, 1) + x / 2 % 2;
    assert Low(x / 2 / 2, 1) == x / 2 / 2 % 2;
    assert Bit(x, 1) == Bit(x / 2, 0);
    assert Bit(x, 2) == Bit(x / 2, 1) == Bit(x / 2 / 2, 0);
  }

  /** When an interrupt halts the kernel. */
  predicate Halts(s: KState, e: Event)
    requires Shape(s)
  {
    match e
    case TimerInterrupt => !DueFirst(SleepDurations(s))
    case SupervisorCall(id) => !InUserMode(s.frame.spsr) || NullWaits(s, id) || CopyHalts(s, id)
    case Fault => !InUserMode(s.frame.spsr)
    case _ => false
  }

  lemma TimerHealthy(s: KState)
    requires Healthy(s) && DueFirst(SleepDurations(s))
    ensures Shape(Awake(s)) && TimerCycle(s).Running?
    ensures RequeueOk(Awake(s)) ==> Healthy(TimerCycle(s).s)
    ensures !RequeueOk(Awake(s)) ==> !Consistent(TimerCycle(s).s)
  {
    TimerCycleExactly(s);
    AwakeHealthy(s);
    if RequeueOk(Awake(s)) {
      CycleHealthy(Awake(s));
    } else {
      CycleConsistentIff(Awake(s));
    }
  }

  lemma CreationHealthy(s: KState, id: nat)
    requires Healthy(s) && (id == 5 || id == 6) && ArgumentsOk(s)
    ensures var o := if id == 5 then Fork(s) else CreateCall(s);
            (o.Halted? <==> CopyHalts(s, id)) && (o.Running? ==> Healthy(o.s))
  {
    var gr := s.frame.gr;
    ArgumentsPresent(s);
    if id == 5 {
      CreateProcessHealthy(s, gr.r0, gr.r1, gr.r2, CreateProcess(s, gr.r0, gr.r1, gr.r2));
    } else {
      OwnProcessLives(s);
      var p := s.threads[s.running].process;
      CreateThreadHealthy(s, p, gr.r0, gr.r1, gr.r2, CreateThread(s, p, gr.r0, gr.r1, gr.r2));
    }
  }

  lemma SyscallHealthy(s: KState, id: nat)
    requires Healthy(s)
    ensures Syscall(s, id).Halted? <==> NullWaits(s, id) || CopyHalts(s, id)
    ensures Syscall(s, id).Running? ==> Healthy(Syscall(s, id).s)
  {
    var gr := s.frame.gr;
    if id == 2 {
      GetCharHealthy(s);
    } else if id == 4 {
      if gr.r0 != 0 && s.running != 0 {
        SleepHealthy(s, gr.r0);
      }
    } else if (id == 5 || id == 6) && ArgumentsOk(s) {
      CreationHealthy(s, id);
    } else if id != 3 {
      KillHealthy(s);
    }
  }

  /** The process of the running thread is not on the free queue. */
  lemma OwnProcessLives(s: KState)
    requires Consistent(s)
    ensures var p := s.threads[s.running].process; p == 0 || p !in s.freeProcs
  {
    if s.running != 0 {
      HeldIsAllocated(s, s.running);
      assert RecordOk(s, s.running);
    }
  }

  lemma CodeHealthy(s: KState, f: Frame)
    requires Healthy(s)
    ensures Healthy(s.(frame := Ran(s.frame, f)))
  {
    var r := s.(frame := Ran(s.frame, f));
    SameOwnership(s, r);
    SameWaits(s, r, 0);
    SameModes(s, r);
  }

  /** One interrupt halts the kernel exactly in the cases of `Halts`. */
  lemma HaltsExactly(s: KState, e: Event)
    requires Healthy(s)
    ensures Step(s, e).Halted? <==> Halts(s, e)
  {
    UserModeBits(s.frame.spsr);
    match e
    case TimerInterrupt => TimerCycleExactly(s);
    case SupervisorCall(id) => SyscallHealthy(s, id);
    case _ =>
  }

  /**
   * One interrupt that does not halt the kernel keeps every invariant exactly when it puts the old
   * thread back under its own index; only the timer tick can fail to.
   */
  lemma StepHealthy(s: KState, e: Event)
    requires Healthy(s) && Step(s, e).Running?
    ensures Shape(Awake(s))
    ensures Healthy(Step(s, e).s) <==> Requeues(s, e)
    ensures Consistent(Step(s, e).s) <==> Requeues(s, e)
  {
    AwakeShape(s);
    HaltsExactly(s, e);
    match e
    case TimerInterrupt => TimerHealthy(s);
    case UartInterrupt(received) => UartHealthy(s, received);
    case SupervisorCall(id) => SyscallHealthy(s, id);
    case Fault => KillHealthy(s);
    case UnknownInterrupt =>
    case CodeRuns(f) => CodeHealthy(s, f);
  }

  lemma GlobalRequeues(s: KState, e: Event)
    requires Healthy(s) && s.cfg.requeueGlobal
    ensures Shape(Awake(s)) && Requeues(s, e)
  {
    AwakeShape(s);
    if e.TimerInterrupt? && DueFirst(SleepDurations(s)) {
      AwakeHealthy(s);
      if s.running != 0 {
        HeldIsAllocated(Awake(s), s.running);
        IndicesAgree(Awake(s), s.running);
      }
    }
  }

  lemma StepKeepsConfig(s: KState, e: Event)
    requires Shape(s)
    ensures Step(s, e).Running? ==> Step(s, e).s.cfg == s.cfg
  {
  }

  // ---- What consistency means for a reader ----

  /** An allocated thread is running, ready, asleep or waiting for a character, and only one of these. */
  lemma ExactlyOnePlace(s: KState, g: nat)
    requires Consistent(s) && IsAllocated(s, g)
    ensures s.running == g || g in s.ready || g in s.sleep || g in s.chars
    ensures s.running == g ==> g !in s.ready && g !in s.sleep && g !in s.chars
    ensures g in s.ready ==> g !in s.sleep && g !in s.chars
    ensures g in s.sleep ==> g !in s.chars
  {
    assert Owned(s, g);
    OccursIn(s.ready, g);
    OccursIn(s.sleep, g);
    OccursIn(s.chars, g);
  }

  /** Whatever a ring or the running pointer holds is an allocated thread of a process in use. */
  lemma HeldBelongsToLiveProcess(s: KState, g: nat)
    requires Consistent(s)
    requires g in s.ready || g in s.sleep || g in s.chars || (g == s.running && g != 0)
    ensures 1 <= g <= NThreads(s.cfg) && NoDup(s.ready) && NoDup(s.sleep) && NoDup(s.chars)
    ensures 1 <= s.threads[g].process <= s.cfg.np && s.threads[g].process !in s.freeProcs
    ensures s.threads[g].index !in s.procs[s.threads[g].process].free
  {
    HeldIsAllocated(s, g);
    RingNoDup(s);
    assert RecordOk(s, g);
    NumberingBack(s.cfg, g);
  }

  /** A process index is off the free queue exactly when the process has a thread. */
  lemma ProcessInUse(s: KState, p: nat)
    requires Consistent(s) && 1 <= p <= s.cfg.np
    ensures p !in s.freeProcs <==> exists g: nat :: IsAllocated(s, g) && ProcOf(s.cfg, g) == p
  {
    if p !in s.freeProcs {
      assert LiveProcess(s, p);
      var k := MissingIndex(s.procs[p].free, s.cfg.nt);
      Numbering(s.cfg, p, k);
      assert IsAllocated(s, (p - 1) * s.cfg.nt + k);
    }
  }

  /** Killing the last thread of a process returns its index, once; killing another thread does not. */
  lemma LastThreadReturnsProcess(s: KState)
    requires Consistent(s) && s.running != 0
    ensures IsAllocated(s, s.running)
    ensures var p := ProcOf(s.cfg, s.running);
            var last := forall g: nat :: g != s.running && IsAllocated(s, g) ==> ProcOf(s.cfg, g) != p;
            Kill(s).freeProcs == (if last then s.freeProcs + [p] else s.freeProcs) && p !in s.freeProcs
  {
    KillRemoves(s);
    KillConsistent(s);
    var p, k := ProcOf(s.cfg, s.running), Kill(s);
    forall g: nat
      ensures IsAllocated(k, g) <==> IsAllocated(s, g) && g != s.running
    {
      RemovedAllocated(s, g);
    }
    ProcessInUse(k, p);
    InPush(s.freeProcs, p, p);
  }

  /** Once a slot is free, creation cannot fail or leak it: the thread joins the ready ring. */
  lemma CreationSucceeds(s: KState, p: nat, func: word, args: word, argsSize: word)
    requires Consistent(s) && 1 <= p < |s.procs| && p !in s.freeProcs && s.procs[p].free != []
    ensures var g, r := NextIndex(s, p), CreateThread(s, p, func, args, argsSize);
            && 1 <= g <= NThreads(s.cfg) && !IsAllocated(s, g)
            && r.ready == s.ready + [g] && IsAllocated(r, g) && r.procs[p].free == s.procs[p].free[1..]
  {
    assert LiveProcess(s, p);
    NextIndexFits(s, p);
    CreateThreadAdds(s, p, func, args, argsSize);
    AddedAllocated(s, p, CreatedTcb(s, p, func, args, argsSize), CreatedPcb(s, p), NextIndex(s, p));
  }

  // ---- The requeue index as written ----

  ghost predicate OnlyProcessOne(s: KState)
    requires s.cfg.nt >= 1
  {
    forall g: nat :: IsAllocated(s, g) ==> ProcOf(s.cfg, g) == 1
  }

  /** While only process 1 has threads, the line as written puts back the right index. */
  lemma ProcessOneRequeues(s: KState, e: Event)
    requires Healthy(s) && OnlyProcessOne(s)
    ensures Shape(Awake(s)) && Requeues(s, e)
  {
    AwakeShape(s);
    if e.TimerInterrupt? && DueFirst(SleepDurations(s)) {
      AwakeHealthy(s);
      if s.running != 0 {
        HeldIsAllocated(Awake(s), s.running);
        IndicesAgree(Awake(s), s.running);
        assert IsAllocated(s, s.running);
      }
    }
  }
}
