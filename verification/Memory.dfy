/** The translation tables across whole runs: coherence of the L1 table and the contents of the L2 tables. */
module Memory {
  import opened Words
  import opened Uart
  import opened Descriptors
  import opened AddressSpace
  import opened KernelState
  import opened Ownership
  import opened Waking
  import opened Health
  import opened Safety

  /** The boot-time L1 table with the user-data entry pointing to `table`. */
  function CoherentL1(c: Config, table: word): L1Table
    requires ValidConfig(c) && table % 1024 == 0
  {
    BootL1(c.baseMb, c.initTable)[c.baseMb := table + 5]
  }

  /** The L1 table is the boot-time one, except that it maps the user data of the running process. */
  predicate Coherent(s: KState)
    requires Shape(s)
  {
    s.l1 == CoherentL1(s.cfg, TableOf(s, s.running))
  }

  lemma PointerEntry(table: word)
    requires table % 1024 == 0
    ensures BuildL1Pointer(table, false) == table + 5
  {
    L1PointerValue(table, false);
  }

  /** In the terms of the builder. */
  lemma CoherentEntry(s: KState)
    requires Shape(s) && Coherent(s)
    ensures s.l1[s.cfg.baseMb] == BuildL1Pointer(s.cfg.tables[s.threads[s.running].process], false)
  {
    PointerEntry(TableOf(s, s.running));
  }

  /** `switch_memory` makes a coherent table coherent for the new one. */
  lemma SwitchedCoherent(c: Config, from: word, to: word)
    requires ValidConfig(c) && from % 1024 == 0 && to % 1024 == 0
    ensures SwitchedMemory(CoherentL1(c, from), c.baseMb, to) == CoherentL1(c, to)
  {
    SwitchValue(from + 5, from / 1024 * 4, to, 5);
  }

  /** A switch of context from a coherent state leaves the table of the thread that it switched to. */
  lemma SwitchCoherent(s: KState, p: nat, from: Option<nat>, to: nat)
    requires Shape(s) && to < |s.threads| && (from.Some? ==> from.value < |s.threads|)
    requires p < |s.cfg.tables| && s.l1 == CoherentL1(s.cfg, s.cfg.tables[p])
    ensures SwitchContext(s, from, to).l1 == CoherentL1(s.cfg, TableOf(s, to))
    ensures Shape(SwitchContext(s, from, to))
    ensures s.running == to ==> Coherent(SwitchContext(s, from, to))
  {
    SwitchContextShape(s, from, to);
    SwitchedCoherent(s.cfg, s.cfg.tables[p], TableOf(s, to));
  }

  lemma CycleCoherent(s: KState)
    requires Consistent(s) && RequeueOk(s) && Coherent(s)
    ensures Shape(Cycle(s)) && Coherent(Cycle(s))
  {
    if s.ready != [] {
      CycleRotates(s);
      SwitchCoherent(Rotated(s), s.threads[s.running].process, Outgoing(s.running), s.ready[0]);
    }
  }

  lemma BlockCoherent(s: KState, ring: WaitingRing, b: KState)
    requires Healthy(s) && Coherent(s) && s.running != 0 && b == Cycle(Parked(s, ring))
    ensures Shape(b) && Coherent(b)
  {
    BlockConsistent(s, ring);
    ParkedMoves(s, ring);
    SwitchCoherent(Moved(s, ring), s.threads[s.running].process, Some(s.running), 0);
    CycleCoherent(Parked(s, ring));
  }

  lemma GetCharCoherent(s: KState, r: KState)
    requires Healthy(s) && Coherent(s) && GetChar(s) == Running(r)
    ensures Shape(r) && Coherent(r)
  {
    GetCharHealthy(s);
    if s.uart == [] {
      var b := Cycle(Parked(s, CharRing));
      BlockCoherent(s, CharRing, b);
    }
  }

  lemma KillCoherent(s: KState, r: KState)
    requires Healthy(s) && Coherent(s) && r == Kill(s)
    ensures Shape(r) && Coherent(r)
  {
    KillShape(s);
    DepartedShape(s);
    var d := Departed(s);
    SwitchCoherent(d, s.threads[s.running].process, None, d.running);
  }

  lemma ThereAndBackCoherent(s: KState, p: nat)
    requires Shape(s) && p < |s.procs|
    requires exists t :: 0 <= t < WORD_LIMIT && t % 1024 == 0 && s.l1 == CoherentL1(s.cfg, t)
    ensures ThereAndBack(s, p) == CoherentL1(s.cfg, TableOf(s, s.running))
  {
    var t :| 0 <= t < WORD_LIMIT && t % 1024 == 0 && s.l1 == CoherentL1(s.cfg, t);
    SwitchedCoherent(s.cfg, t, s.cfg.tables[p]);
    SwitchedCoherent(s.cfg, s.cfg.tables[p], TableOf(s, s.running));
  }

  /** The temporary switches of `thread_create` are undone. */
  lemma CreateThreadCoherent(s: KState, p: nat, func: word, args: word, argsSize: word, r: KState)
    requires Coherent0(s) && p < |s.procs| && r == CreateThread(s, p, func, args, argsSize)
    requires (Consistent(s) && (p == 0 || p !in s.freeProcs)) || (Settling(s, p) && s.procs[p].free != [])
    ensures Shape(r) && Coherent(r)
  {
    CreateThreadShape(s, p, func, args, argsSize, r);
    if s.procs[p].free != [] {
      if p == 0 {
        NullProcessHasNoSlots(s);
      }
      if Consistent(s) {
        assert LiveProcess(s, p);
      }
      CreateThreadAdds(s, p, func, args, argsSize);
      ThereAndBackCoherent(s, p);
      NextIndexFits(s, p);
      assert Owned(s, NextIndex(s, p));
    }
  }

  predicate Coherent0(s: KState)
  {
    Shape(s) && Coherent(s)
  }

  lemma CreateProcessCoherent(s: KState, func: word, args: word, argsSize: word, r: KState)
    requires Consistent(s) && r == CreateProcess(s, func, args, argsSize)
    requires Coherent(s) || (s.freeProcs != [] && s.l1 == CoherentL1(s.cfg, s.cfg.initTable))
    ensures Shape(r) && Coherent(r)
  {
    CreateProcessShape(s, func, args, argsSize, r);
    if s.freeProcs != [] {
      var pid: word := Incremented(s.pidCounter);
      var w := CreateProcessUnfold(s, func, args, argsSize);
      ThereAndBackCoherent(s, s.freeProcs[0]);
      FreshProcess(s, pid);
      UpToHas(s.cfg.nt, 1);
      CreateThreadCoherent(w, s.freeProcs[0], func, args, argsSize, r);
    }
  }

  lemma SleepCoherent(s: KState, d: word, r: KState)
    requires Healthy(s) && Coherent(s) && OnSleep(s, d) == Running(r)
    ensures Shape(r) && Coherent(r)
  {
    if d != 0 {
      var b := Cycle(Parked(s, SleepRing));
      BlockCoherent(s, SleepRing, b);
      SleepHealthy(s, d);
    }
  }

  lemma SyscallCoherent(s: KState, id: nat, r: KState)
    requires Healthy(s) && Coherent(s) && Syscall(s, id) == Running(r)
    ensures Shape(r) && Coherent(r)
  {
    var gr := s.frame.gr;
    if id == 2 {
      GetCharCoherent(s, r);
    } else if id == 3 {
    } else if id == 4 {
      SleepCoherent(s, gr.r0, r);
    } else if id == 5 && ArgumentsOk(s) {
      CreateProcessCoherent(s, gr.r0, gr.r1, gr.r2, r);
    } else if id == 6 && ArgumentsOk(s) {
      OwnProcessLives(s);
      CreateThreadCoherent(s, s.threads[s.running].process, gr.r0, gr.r1, gr.r2, r);
    } else {
      KillCoherent(s, r);
    }
  }

  /** Every interrupt returns with the L1 table mapping the running process. */
  lemma StepCoherent(s: KState, e: Event, r: KState)
    requires Healthy(s) && Coherent(s) && Step(s, e) == Running(r) && Shape(Awake(s)) && Requeues(s, e)
    ensures Shape(r) && Coherent(r)
  {
    match e
    case TimerInterrupt =>
      TimerCycleExactly(s);
      AwakeConsistent(s);
      RingNoDup(s);
      RingIndices(s.sleep, NThreads(s.cfg), |s.threads|);
      TickedKeeps(s.threads, s.sleep, s.running);
      CycleCoherent(Awake(s));
    case UartInterrupt(received) =>
    case SupervisorCall(id) => SyscallCoherent(s, id, r);
    case Fault => KillCoherent(s, r);
    case UnknownInterrupt =>
    case CodeRuns(_) =>
  }

  lemma InitL1Entry(c: Config)
    requires ValidConfig(c)
    ensures BootL1(c.baseMb, c.initTable) == CoherentL1(c, c.initTable)
  {
    PointerEntry(c.initTable);
    assert BootL1(c.baseMb, c.initTable)[c.baseMb] == BootEntry(c.baseMb, c.baseMb, c.initTable);
  }

  lemma BootCoherent(c: Config, f: Frame)
    requires ValidConfig(c)
    ensures Shape(Boot(c, f)) && Coherent(Boot(c, f))
  {
    InitConsistent(c, f);
    InitL1Entry(c);
    CreateProcessCoherent(Init(c, f), c.mainThread, 0, 0, Boot(c, f));
  }
}
