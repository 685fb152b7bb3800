/**
 * The kernel refines a machine with one private register file per thread: what a thread sees of its
 * registers changes only when it runs, when a character is delivered to it, or when it is created.
 */
module Context {
  import opened Words
  import opened Rings
  import opened Uart
  import opened AddressSpace
  import opened KernelState
  import opened Ownership
  import opened Sleeping
  import opened Waking
  import opened Health
  import opened Safety

  /**
   * What the exception return restores (lines 291-316 of system/ivt.S): r0-r12, the user lr and sp, the
   * address to return to and the status register; in `gr` as in a control block.
   */
  datatype UserView = UserView(gr: GeneralRegisters, spsr: word)

  function LiveView(f: Frame): UserView
  {
    UserView(f.gr.(lr := f.usrLr, sp := f.usrSp, pc := f.gr.lr), f.spsr)
  }

  function SavedView(t: Tcb): UserView
  {
    UserView(t.regs, t.cpsr)
  }

  /** The registers of a thread: in the live frame while it runs, else in its control block. */
  function ViewOf(s: KState, g: nat): UserView
    requires g < |s.threads|
  {
    if g == s.running then LiveView(s.frame) else SavedView(s.threads[g])
  }

  ghost function AllocatedSet(s: KState): (a: set<nat>)
    ensures forall g :: g in a <==> IsAllocated(s, g)
  {
    set g | 1 <= g <= NThreads(s.cfg) && IsAllocated(s, g)
  }

  /** The register files of all threads. */
  ghost function Views(s: KState): (v: map<nat, UserView>)
    requires Shape(s)
    ensures forall g :: g in v <==> IsAllocated(s, g)
    ensures forall g :: g in v ==> g < |s.threads| && v[g] == ViewOf(s, g)
  {
    map g | g in AllocatedSet(s) :: ViewOf(s, g)
  }

  lemma SameViews(s: KState, r: KState)
    requires Shape(s) && Shape(r)
    requires forall g: nat :: IsAllocated(r, g) <==> IsAllocated(s, g)
    requires forall g: nat :: IsAllocated(s, g) ==> g < |r.threads| && g < |s.threads| && ViewOf(r, g) == ViewOf(s, g)
    ensures Views(r) == Views(s)
  {
  }

  /** Loading a control block into the frame and saving a frame into one are inverse on views. */
  lemma SaveLoad(t: Tcb, f: Frame)
    ensures LiveView(Loaded(t)) == SavedView(t)
    ensures SavedView(Saved(t, f)) == LiveView(f)
  {
  }

  /** What a switch does to the view of a thread, once the running pointer is at `to`. */
  lemma SwitchView(s: KState, from: Option<nat>, to: nat, g: nat)
    requires Shape(s) && to < |s.threads| && g < |s.threads| && (from.Some? ==> from.value < |s.threads|)
    requires s.running == to && from != Some(to)
    ensures ViewOf(SwitchContext(s, from, to), g)
         == if g != to && from == Some(g) && g != 0 then LiveView(s.frame) else SavedView(s.threads[g])
  {
    SaveLoad(s.threads[to], s.frame);
    SaveLoad(s.threads[g], s.frame);
  }

  // ---- Handlers ----

  /** A cycle changes no thread's registers, whoever runs next. */
  lemma CycleView(s: KState, g: nat)
    requires Consistent(s) && RequeueOk(s) && IsAllocated(s, g)
    ensures g < |Cycle(s).threads| && ViewOf(Cycle(s), g) == ViewOf(s, g)
  {
    if s.ready != [] {
      CycleRotates(s);
      assert s.ready[0] in s.ready;
      HeldOnce(s, s.running);
      SwitchView(Rotated(s), Outgoing(s.running), s.ready[0], g);
    }
  }

  lemma TimerView(s: KState, g: nat)
    requires Consistent(s) && Shape(Awake(s)) && RequeueOk(Awake(s)) && IsAllocated(s, g)
    ensures var r := Cycle(Awake(s)); g < |r.threads| && g < |s.threads| && ViewOf(r, g) == ViewOf(s, g)
  {
    AwakeConsistent(s);
    CycleView(Awake(s), g);
    RingNoDup(s);
    RingIndices(s.sleep, NThreads(s.cfg), |s.threads|);
    TickedKeeps(s.threads, s.sleep, g);
  }

  lemma TimerNull(s: KState)
    requires Consistent(s) && Shape(Awake(s)) && RequeueOk(Awake(s))
    ensures |Cycle(Awake(s)).threads| > 0 && Cycle(Awake(s)).threads[0] == s.threads[0]
  {
    AwakeConsistent(s);
    RingNoDup(s);
    RingIndices(s.sleep, NThreads(s.cfg), |s.threads|);
    TickedAt(s.threads, s.sleep, 0);
  }

  lemma TimerViews(s: KState, r: KState)
    requires Healthy(s) && TimerCycle(s) == Running(r) && Shape(Awake(s)) && RequeueOk(Awake(s))
    ensures Shape(r) && Views(r) == Views(s) && r.threads[0] == s.threads[0]
  {
    TimerCycleExactly(s);
    AwakeConsistent(s);
    CycleConsistent(Awake(s));
    CycleRings(Awake(s));
    forall g: nat | IsAllocated(s, g)
      ensures g < |r.threads| && g < |s.threads| && ViewOf(r, g) == ViewOf(s, g)
    {
      TimerView(s, g);
    }
    SameViews(s, r);
    TimerNull(s);
  }

  /** A thread that blocks keeps its registers, and so does everybody else. */
  lemma BlockView(s: KState, ring: WaitingRing, g: nat)
    requires Consistent(s) && s.running != 0 && IsAllocated(s, g)
    ensures var r := Cycle(Parked(s, ring)); g < |r.threads| && ViewOf(r, g) == ViewOf(s, g)
  {
    BlockConsistent(s, ring);
    ParkedMoves(s, ring);
    CycleView(Parked(s, ring), g);
    SwitchView(Moved(s, ring), Some(s.running), 0, g);
  }

  lemma BlockViews(s: KState, ring: WaitingRing, b: KState, r: KState)
    requires Consistent(s) && s.running != 0 && b == Cycle(Parked(s, ring)) && Shape(b) && s.running < |b.threads|
    requires r == b.(threads := r.threads) && Shape(r)
    requires exists w, st :: r.threads == b.threads[s.running := b.threads[s.running].(waiting := w, state := st)]
    ensures Views(r) == Views(s) && r.threads[0] == s.threads[0]
  {
    BlockConsistent(s, ring);
    ParkedMoves(s, ring);
    CycleRings(Parked(s, ring));
    forall g: nat | IsAllocated(s, g)
      ensures g < |r.threads| && g < |s.threads| && ViewOf(r, g) == ViewOf(s, g)
    {
      BlockView(s, ring, g);
    }
    SameViews(s, r);
  }

  /** `wait` changes nobody's registers. */
  lemma SleepViews(s: KState, duration: word, r: KState)
    requires Healthy(s) && OnSleep(s, duration) == Running(r)
    ensures Shape(r) && Views(r) == Views(s) && r.threads[0] == s.threads[0]
  {
    if duration != 0 {
      var b := Cycle(Parked(s, SleepRing));
      SleepHealthy(s, duration);
      BlockConsistent(s, SleepRing);
      var t := b.threads[s.running];
      assert r.threads == b.threads[s.running := t.(waiting := duration, state := t.state)];
      BlockViews(s, SleepRing, b, r);
    }
  }

  /** A getchar that blocks changes nobody's registers. */
  lemma GetcharViews(s: KState, r: KState)
    requires Healthy(s) && s.uart == [] && OnGetchar(s) == Running(r)
    ensures Shape(r) && Views(r) == Views(s) && r.threads[0] == s.threads[0]
  {
    var b := Cycle(Parked(s, CharRing));
    GetcharHealthy(s);
    BlockConsistent(s, CharRing);
    var t := b.threads[s.running];
    assert r.threads == b.threads[s.running := t.(waiting := t.waiting, state := WAITING)];
    BlockViews(s, CharRing, b, r);
  }

  function WithR0(v: UserView, c: word): UserView
  {
    v.(gr := v.gr.(r0 := c))
  }

  /** A view map after a character is put into r0 of one thread (0 stands for the null thread, which has no view). */
  ghost function Delivered(v: map<nat, UserView>, g: nat, c: word): map<nat, UserView>
  {
    if g in v then v[g := WithR0(v[g], c)] else v
  }

  /** A getchar that finds a character puts it into r0 of the caller. */
  lemma GetCharViews(s: KState, r: KState)
    requires Healthy(s) && GetChar(s) == Running(r)
    ensures Shape(r) && r.threads[0] == s.threads[0]
    ensures Views(r) == if s.uart == [] then Views(s) else Delivered(Views(s), s.running, s.uart[0])
  {
    GetCharHealthy(s);
    if s.uart == [] {
      GetcharViews(s, r);
    } else {
      assert Views(r) == Delivered(Views(s), s.running, s.uart[0]);
    }
  }

  /** A received character goes into r0 of the thread that has waited longest, and nowhere else. */
  lemma UartViews(s: KState, received: Option<byte>, r: KState)
    requires Healthy(s) && r == UartIrq(s, received)
    ensures Shape(r) && r.threads[0] == s.threads[0]
    ensures Views(r) == if received.Some? && s.chars != [] then Delivered(Views(s), s.chars[0], received.value)
                        else Views(s)
  {
    UartHealthy(s, received);
    if received.Some? && s.chars != [] {
      var t := s.chars[0];
      assert t in s.chars;
      HeldIsAllocated(s, t);
      HeldOnce(s, t);
      assert ([] + [received.value])[1..] == [];
      assert Views(r) == Delivered(Views(s), t, received.value);
    } else {
      assert Views(r) == Views(s);
    }
  }

  lemma FewerViews(s: KState, r: KState, x: nat)
    requires Shape(s) && Shape(r)
    requires forall g: nat :: IsAllocated(r, g) <==> IsAllocated(s, g) && g != x
    requires forall g: nat :: IsAllocated(r, g) ==> g < |r.threads| && g < |s.threads| && ViewOf(r, g) == ViewOf(s, g)
    ensures Views(r) == Views(s) - {x}
  {
  }

  /** A kill removes the register file of the running thread and changes no other. */
  lemma RemovedViews(s: KState, w: KState, r: KState)
    requires Consistent(s) && s.running != 0 && IsAllocated(s, s.running)
    requires Shape(Departed(s)) && w == Without(Departed(s), s.running) && Shape(w)
    requires r == SwitchContext(w, None, w.running) && Shape(r)
    ensures Views(r) == Views(s) - {s.running}
  {
    forall g: nat
      ensures IsAllocated(r, g) <==> IsAllocated(s, g) && g != s.running
      ensures IsAllocated(r, g) ==> g < |r.threads| && g < |s.threads| && ViewOf(r, g) == ViewOf(s, g)
    {
      RemovedAllocated(s, g);
      if IsAllocated(w, g) {
        SwitchView(w, None, w.running, g);
      }
    }
    FewerViews(s, r, s.running);
  }

  lemma NullKillViews(s: KState, r: KState)
    requires Healthy(s) && s.running == 0 && r == Kill(s)
    ensures Shape(r) && Views(r) == Views(s) && r.threads[0] == s.threads[0]
  {
    KillOfNullThread(s);
    DepartedShape(s);
    var d := Departed(s);
    SwitchContextShape(d, None, d.running);
    forall g: nat | IsAllocated(s, g)
      ensures g < |r.threads| && ViewOf(r, g) == ViewOf(s, g)
    {
      SwitchView(d, None, d.running, g);
    }
  }

  lemma KillViews(s: KState, r: KState)
    requires Healthy(s) && r == Kill(s)
    ensures Shape(r) && Views(r) == Views(s) - {s.running} && r.threads[0] == s.threads[0]
  {
    if s.running == 0 {
      NullKillViews(s, r);
    } else {
      KillRemoves(s);
      var w := Without(Departed(s), s.running);
      SwitchContextShape(w, None, w.running);
      RemovedViews(s, w, r);
    }
  }

  /** Creation adds one register file. */
  lemma CreateThreadViews(s: KState, p: nat, func: word, args: word, argsSize: word, r: KState)
    requires Settling(s, p) && s.procs[p].free != []
    requires r == CreateThread(s, p, func, args, argsSize) && Shape(r)
    ensures NextIndex(s, p) < |s.threads| && r.threads[0] == s.threads[0]
    ensures Views(r) == Views(s)[NextIndex(s, p) := SavedView(CreatedTcb(s, p, func, args, argsSize))]
  {
    var t, pcb, x := CreatedTcb(s, p, func, args, argsSize), CreatedPcb(s, p), NextIndex(s, p);
    CreateThreadAdds(s, p, func, args, argsSize);
    NextIndexFits(s, p);
    assert Owned(s, x);
    forall g: nat
      ensures IsAllocated(r, g) <==> IsAllocated(s, g) || g == x
    {
      AddedAllocated(s, p, t, pcb, g);
    }
    assert s.running != x;
  }

  lemma FreshViews(s: KState, pid: word, w: KState)
    requires Consistent(s) && s.freeProcs != [] && w == WithProcess(s, pid)
    ensures Shape(w) && Views(w) == Views(s) && w.threads == s.threads
  {
    forall g: nat
      ensures IsAllocated(w, g) <==> IsAllocated(s, g)
    {
      FreshAllocated(s, pid, g);
    }
  }

  /** The registers of a new thread: its function, its argument pointer, its stack, and `exit` to return to. */
  function InitialView(c: Config, slot: nat, func: word, args: word, argsSize: word): UserView
  {
    var top := StackPointer(c.baseMb, c.nt, slot);
    var withArgs := args != 0 && argsSize != 0;
    var sp := if withArgs then (top - argsSize) % WORD_LIMIT else top % WORD_LIMIT;
    UserView(ZERO_REGISTERS.(pc := func, lr := c.exitAddress, sp := sp, r0 := if withArgs then sp else 0),
             0x10)
  }

  /** The register files after `create_thread`. */
  ghost function WithThread(s: KState, p: nat): map<nat, UserView>
    requires Shape(s) && p < |s.procs|
  {
    var gr := s.frame.gr;
    if p == 0 || s.procs[p].free == [] then Views(s)
    else Views(s)[NextIndex(s, p) := InitialView(s.cfg, s.procs[p].free[0], gr.r0, gr.r1, gr.r2)]
  }

  /** The thread-table index of slot 1 of a process. */
  function FirstIndex(c: Config, p: nat): nat
  {
    if p == 0 then 0 else (p - 1) * c.nt + 1
  }

  /** The register files after `fork`: the new thread is in slot 1 of the process index freed longest ago. */
  ghost function WithFork(s: KState): map<nat, UserView>
    requires Shape(s)
  {
    var gr := s.frame.gr;
    if s.freeProcs == [] then Views(s)
    else Views(s)[FirstIndex(s.cfg, s.freeProcs[0]) := InitialView(s.cfg, 1, gr.r0, gr.r1, gr.r2)]
  }

  lemma CreatedView(s: KState, p: nat, func: word, args: word, argsSize: word)
    requires Shape(s) && p < |s.procs| && s.procs[p].free != []
    ensures SavedView(CreatedTcb(s, p, func, args, argsSize))
         == InitialView(s.cfg, s.procs[p].free[0], func, args, argsSize)
  {
  }

  lemma ForkViewsIn(s: KState, w: KState, pid: word, func: word, args: word, argsSize: word, r: KState)
    requires Consistent(s) && s.freeProcs != [] && w == WithProcess(s, pid) && Shape(w) && s.freeProcs[0] < |w.procs|
    requires r == CreateThread(w, s.freeProcs[0], func, args, argsSize)
    ensures Shape(r) && r.threads[0] == s.threads[0]
    ensures Views(r) == Views(s)[FirstIndex(s.cfg, s.freeProcs[0]) := InitialView(s.cfg, 1, func, args, argsSize)]
  {
    var p := s.freeProcs[0];
    CreateThreadShape(w, p, func, args, argsSize, r);
    FreshProcess(s, pid);
    FreshViews(s, pid, w);
    assert UpTo(s.cfg.nt)[0] == 1;
    CreateThreadViews(w, p, func, args, argsSize, r);
    CreatedView(w, p, func, args, argsSize);
  }

  lemma ForkViews(s: KState, r: KState)
    requires Healthy(s)
    requires r == CreateProcess(s, s.frame.gr.r0, s.frame.gr.r1, s.frame.gr.r2)
    ensures Shape(r) && r.threads[0] == s.threads[0] && Views(r) == WithFork(s)
  {
    var gr := s.frame.gr;
    CreateProcessShape(s, gr.r0, gr.r1, gr.r2, r);
    if s.freeProcs != [] {
      var w := CreateProcessUnfold(s, gr.r0, gr.r1, gr.r2);
      ForkViewsIn(s, w, Incremented(s.pidCounter), gr.r0, gr.r1, gr.r2, r);
    }
  }

  lemma ThreadViews(s: KState, r: KState)
    requires Healthy(s)
    requires r == CreateThread(s, s.threads[s.running].process, s.frame.gr.r0, s.frame.gr.r1, s.frame.gr.r2)
    ensures Shape(r) && r.threads[0] == s.threads[0] && Views(r) == WithThread(s, s.threads[s.running].process)
  {
    var p, gr := s.threads[s.running].process, s.frame.gr;
    OwnProcessLives(s);
    NullProcessHasNoSlots(s);
    if s.procs[p].free != [] {
      CreateThreadShape(s, p, gr.r0, gr.r1, gr.r2, r);
      assert LiveProcess(s, p);
      CreateThreadViews(s, p, gr.r0, gr.r1, gr.r2, r);
      CreatedView(s, p, gr.r0, gr.r1, gr.r2);
    }
  }

  // ---- The refinement ----

  /** The machine with private register files: what one interrupt does to them. */
  ghost function NextViews(s: KState, e: Event): map<nat, UserView>
    requires Shape(s)
  {
    var v := Views(s);
    match e
    case TimerInterrupt => v
    case UnknownInterrupt => v
    case UartInterrupt(received) =>
      if received.Some? && s.chars != [] then Delivered(v, s.chars[0], received.value) else v
    case CodeRuns(f) => if s.running in v then v[s.running := LiveView(Ran(s.frame, f))] else v
    case Fault => v - {s.running}
    case SupervisorCall(id) =>
      if id == 2 then (if s.uart == [] then v else Delivered(v, s.running, s.uart[0]))
      else if id == 3 || id == 4 then v
      else if id == 5 && ArgumentsOk(s) then WithFork(s)
      else if id == 6 && ArgumentsOk(s) then WithThread(s, s.threads[s.running].process)
      else v - {s.running}
  }

  lemma CreationViews(s: KState, id: nat, r: KState)
    requires Healthy(s) && (id == 5 || id == 6) && (if id == 5 then Fork(s) else CreateCall(s)) == Running(r)
    ensures Shape(r) && r.threads[0] == s.threads[0]
    ensures Views(r) == if id == 5 then WithFork(s) else WithThread(s, s.threads[s.running].process)
  {
    if id == 5 {
      ForkViews(s, r);
    } else {
      ThreadViews(s, r);
    }
  }

  lemma SyscallViews(s: KState, id: nat, r: KState)
    requires Healthy(s) && Syscall(s, id) == Running(r)
    ensures Shape(r) && Views(r) == NextViews(s, SupervisorCall(id)) && r.threads[0] == s.threads[0]
  {
    if id == 2 {
      GetCharViews(s, r);
    } else if id == 3 {
    } else if id == 4 {
      SleepViews(s, s.frame.gr.r0, r);
    } else if (id == 5 || id == 6) && ArgumentsOk(s) {
      CreationViews(s, id, r);
    } else {
      KillViews(s, r);
    }
  }

  /**
   * Every interrupt does to the register files what the machine with private files does, and the saved
   * registers of the null thread never change.
   */
  lemma StepRefines(s: KState, e: Event, r: KState)
    requires Healthy(s) && Step(s, e) == Running(r) && Shape(Awake(s)) && Requeues(s, e)
    ensures Shape(r) && Views(r) == NextViews(s, e) && r.threads[0] == s.threads[0]
  {
    HaltsExactly(s, e);
    match e
    case TimerInterrupt => TimerViews(s, r);
    case UartInterrupt(received) => UartViews(s, received, r);
    case SupervisorCall(id) => SyscallViews(s, id, r);
    case Fault => KillViews(s, r);
    case UnknownInterrupt =>
    case CodeRuns(f) =>
      assert Views(r) == NextViews(s, CodeRuns(f));
  }
}
