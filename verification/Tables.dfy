/** The contents of the L2 tables across whole runs, and the process identifiers they are built from. */
module Tables {
  import opened Words
  import opened Rings
  import opened Uart
  import opened Counting
  import opened AddressSpace
  import opened KernelState
  import opened Ownership
  import opened Waking
  import opened Health
  import opened Safety
  import opened AsWritten

  /** What a page entry of a process table may be: the data page, a stack page of this process, or a fault. */
  predicate EntryOk(baseMb: nat, p: nat, pid: nat, page: nat, entry: word)
    requires page < N_L2_ENTRIES
  {
    if page == 0 then entry == (if p == 0 then 0 else UserPage(baseMb + p, 0))
    else if page % 2 == 1 then entry == 0
    else entry == 0 || entry == UserPage(baseMb + pid, page / 2)
  }

  predicate TableOk(baseMb: nat, p: nat, pid: nat, table: L2Table)
  {
    forall page :: 0 <= page < N_L2_ENTRIES ==> EntryOk(baseMb, p, pid, page, table[page])
  }

  /** The stack of every slot that is not free is mapped. */
  predicate StacksMapped(c: Config, pcb: Pcb)
    requires c.nt <= 126
  {
    forall k :: 1 <= k <= c.nt && k !in pcb.free ==> pcb.l2[StackEntry(k)] == UserPage(c.baseMb + pcb.pid, k + 1)
  }

  predicate TablesOk(s: KState)
    requires Shape(s)
  {
    && (forall p :: 1 <= p < |s.procs| && p !in s.freeProcs ==> PcbOk(s, p))
    && s.procs[0].pid == 0
    && TableOk(s.cfg.baseMb, 0, 0, s.procs[0].l2)
    && s.procs[0].l2[StackEntry(0)] == UserPage(s.cfg.baseMb, 1)
  }

  predicate PcbOk(s: KState, p: nat)
    requires Shape(s) && p < |s.procs|
  {
    TableOk(s.cfg.baseMb, p, s.procs[p].pid, s.procs[p].l2) && StacksMapped(s.cfg, s.procs[p])
  }

  /** Process identifiers in use are distinct and were handed out by the counter. */
  predicate PidsOk(s: KState)
  {
    && (forall p :: 1 <= p < |s.procs| && p !in s.freeProcs ==> 1 <= s.procs[p].pid <= s.pidCounter)
    && (forall p, q :: 1 <= p < q < |s.procs| && p !in s.freeProcs && q !in s.freeProcs ==>
                         s.procs[p].pid != s.procs[q].pid)
  }

  // ---- Handlers that leave the processes alone ----

  lemma SameTables(s: KState, r: KState)
    requires Shape(s) && Shape(r) && TablesOk(s)
    requires r.cfg == s.cfg && r.procs == s.procs && r.freeProcs == s.freeProcs
    ensures TablesOk(r)
    ensures PidsOk(s) && r.pidCounter == s.pidCounter ==> PidsOk(r)
  {
    forall p | 1 <= p < |r.procs| && p !in r.freeProcs
      ensures PcbOk(r, p)
    {
      assert PcbOk(s, p);
    }
  }

  lemma TimerProcs(s: KState, r: KState)
    requires Healthy(s) && TimerCycle(s) == Running(r) && Shape(Awake(s)) && RequeueOk(Awake(s))
    ensures Shape(r) && r.cfg == s.cfg && r.procs == s.procs && r.freeProcs == s.freeProcs
    ensures r.pidCounter == s.pidCounter
  {
    TimerCycleExactly(s);
    AwakeConsistent(s);
    CycleRings(Awake(s));
    CycleShape(Awake(s));
  }

  lemma BlockProcs(s: KState, d: word, r: KState)
    requires Shape(s) && (OnSleep(s, d) == Running(r) || GetChar(s) == Running(r))
    ensures Shape(r) && r.cfg == s.cfg && r.procs == s.procs && r.freeProcs == s.freeProcs
    ensures r.pidCounter == s.pidCounter
  {
    SleepShape(s, d);
    GetCharShape(s);
    ParkedShape(s, SleepRing);
    ParkedShape(s, CharRing);
  }

  // ---- Handlers that change them ----

  lemma KillTables(s: KState, r: KState)
    requires Healthy(s) && TablesOk(s) && r == Kill(s)
    ensures Shape(r) && TablesOk(r) && (PidsOk(s) ==> PidsOk(r)) && r.pidCounter == s.pidCounter
  {
    if s.running == 0 {
      KillOfNullThread(s);
      DepartedShape(s);
      SwitchContextShape(Departed(s), None, Departed(s).running);
      SameTables(s, r);
    } else {
      KillRemoves(s);
      var w := Without(Departed(s), s.running);
      RemovedTables(s, w);
      SwitchContextShape(w, None, w.running);
      SameTables(w, r);
    }
  }

  lemma RemovedTables(s: KState, w: KState)
    requires Consistent(s) && TablesOk(s) && s.running != 0 && IsAllocated(s, s.running)
    requires Shape(Departed(s)) && w == Without(Departed(s), s.running) && Shape(w)
    ensures TablesOk(w) && (PidsOk(s) ==> PidsOk(w)) && w.pidCounter == s.pidCounter
  {
    forall p | 1 <= p < |w.procs| && p !in w.freeProcs
      ensures PcbOk(w, p) && p !in s.freeProcs && w.procs[p].pid == s.procs[p].pid
    {
      RemovedPcb(s, w, p);
    }
  }

  lemma RemovedPcb(s: KState, w: KState, p: nat)
    requires Consistent(s) && TablesOk(s) && s.running != 0 && IsAllocated(s, s.running)
    requires Shape(Departed(s)) && w == Without(Departed(s), s.running) && Shape(w)
    requires 1 <= p < |w.procs| && p !in w.freeProcs
    ensures PcbOk(w, p) && p !in s.freeProcs && w.procs[p].pid == s.procs[p].pid
  {
    var q := ProcOf(s.cfg, s.running);
    NumberingBack(s.cfg, s.running);
    InPush(s.freeProcs, q, p);
    assert PcbOk(s, p);
  }

  lemma AddedTables(s: KState, p: nat, t: Tcb, pcb: Pcb, r: KState)
    requires Settling(s, p) && s.procs[p].free != [] && NextIndex(s, p) < |s.threads| && TablesOk(s)
    requires pcb == CreatedPcb(s, p) && r == Added(s, p, t, pcb) && Shape(r)
    ensures TablesOk(r) && (PidsOk(s) ==> PidsOk(r)) && r.pidCounter == s.pidCounter
  {
    forall q | 1 <= q < |r.procs| && q !in r.freeProcs
      ensures PcbOk(r, q)
    {
      assert q != p ==> PcbOk(s, q);
    }
  }

  lemma CreateThreadTables(s: KState, p: nat, func: word, args: word, argsSize: word, r: KState)
    requires Shape(s) && p < |s.procs| && r == CreateThread(s, p, func, args, argsSize)
    requires (Consistent(s) && (p == 0 || p !in s.freeProcs)) || (Settling(s, p) && s.procs[p].free != [])
    requires TablesOk(s)
    ensures Shape(r) && TablesOk(r) && (PidsOk(s) ==> PidsOk(r)) && r.pidCounter == s.pidCounter
  {
    CreateThreadShape(s, p, func, args, argsSize, r);
    if s.procs[p].free == [] {
      SameTables(s, r);
    } else {
      if p == 0 {
        NullProcessHasNoSlots(s);
      }
      if Consistent(s) {
        assert LiveProcess(s, p);
      }
      var t, pcb := CreatedTcb(s, p, func, args, argsSize), CreatedPcb(s, p);
      CreateThreadAdds(s, p, func, args, argsSize);
      AddedShape(s, p, t, pcb);
      AddedTables(s, p, t, pcb, Added(s, p, t, pcb));
      SameTables(Added(s, p, t, pcb), r);
    }
  }

  lemma FreshTables(s: KState, pid: word, w: KState)
    requires Consistent(s) && s.freeProcs != [] && TablesOk(s)
    requires w == WithProcess(s, pid) && Shape(w)
    ensures TablesOk(w) && w.pidCounter == pid
    ensures PidsOk(s) && pid == s.pidCounter + 1 ==> PidsOk(w)
  {
    var q := s.freeProcs[0];
    RangePop(s.freeProcs, s.cfg.np);
    forall p | 1 <= p < |w.procs| && p !in w.freeProcs
      ensures PcbOk(w, p) && (p == q || p !in s.freeProcs)
    {
      InPop(s.freeProcs, p);
      if p == q {
        forall k | 1 <= k <= s.cfg.nt
          ensures k in UpTo(s.cfg.nt)
        {
          UpToHas(s.cfg.nt, k);
        }
      } else {
        assert PcbOk(s, p);
      }
    }
  }

  /** `process_create`, as the relation of its result to the state before. */
  lemma CreateProcessCases(s: KState, func: word, args: word, argsSize: word, r: KState) returns (w: KState)
    requires Shape(s) && r == CreateProcess(s, func, args, argsSize)
    ensures s.freeProcs == [] ==> r == s.(pidCounter := Incremented(s.pidCounter))
    ensures s.freeProcs != [] ==>
              && w == WithProcess(s, Incremented(s.pidCounter)) && Shape(w) && s.freeProcs[0] < |w.procs|
              && r == CreateThread(w, s.freeProcs[0], func, args, argsSize)
  {
    if s.freeProcs == [] {
      w := s;
    } else {
      w := CreateProcessUnfold(s, func, args, argsSize);
    }
  }

  lemma CreateProcessTables(s: KState, w: KState, func: word, args: word, argsSize: word, r: KState)
    requires Consistent(s) && TablesOk(s)
    requires s.freeProcs == [] ==> r == s.(pidCounter := Incremented(s.pidCounter))
    requires s.freeProcs != [] ==>
               && w == WithProcess(s, Incremented(s.pidCounter)) && Shape(w) && s.freeProcs[0] < |w.procs|
               && r == CreateThread(w, s.freeProcs[0], func, args, argsSize)
    ensures Shape(r) && TablesOk(r)
    ensures PidsOk(s) && s.pidCounter + 1 < WORD_LIMIT ==> PidsOk(r) && r.pidCounter == s.pidCounter + 1
  {
    if s.freeProcs != [] {
      FreshProcess(s, Incremented(s.pidCounter));
      FreshTables(s, Incremented(s.pidCounter), w);
      UpToHas(s.cfg.nt, 1);
      CreateThreadTables(w, s.freeProcs[0], func, args, argsSize, r);
    }
  }

  // ---- Steps and runs ----

  /** How many identifiers an event hands out. */
  function NewPids(e: Event): nat
  {
    if IsFork(e) then 1 else 0
  }

  lemma SyscallTables(s: KState, id: nat, r: KState)
    requires Healthy(s) && TablesOk(s) && Syscall(s, id) == Running(r)
    ensures Shape(r) && TablesOk(r)
    ensures PidsOk(s) && s.pidCounter + NewPids(SupervisorCall(id)) < WORD_LIMIT ==>
              PidsOk(r) && r.pidCounter <= s.pidCounter + NewPids(SupervisorCall(id))
  {
    var gr := s.frame.gr;
    if id == 2 || id == 4 {
      BlockProcs(s, gr.r0, r);
      SameTables(s, r);
    } else if id == 3 {
    } else if id == 5 && ArgumentsOk(s) {
      var w := CreateProcessCases(s, gr.r0, gr.r1, gr.r2, r);
      CreateProcessTables(s, w, gr.r0, gr.r1, gr.r2, r);
    } else if id == 6 && ArgumentsOk(s) {
      OwnProcessLives(s);
      CreateThreadTables(s, s.threads[s.running].process, gr.r0, gr.r1, gr.r2, r);
    } else {
      KillTables(s, r);
    }
  }

  lemma StepTables(s: KState, e: Event, r: KState)
    requires Healthy(s) && TablesOk(s) && Step(s, e) == Running(r) && Shape(Awake(s)) && Requeues(s, e)
    ensures Shape(r) && TablesOk(r)
    ensures PidsOk(s) && s.pidCounter + NewPids(e) < WORD_LIMIT ==>
              PidsOk(r) && r.pidCounter <= s.pidCounter + NewPids(e)
  {
    StepShape(s, e);
    HaltsExactly(s, e);
    match e
    case TimerInterrupt =>
      TimerProcs(s, r);
      SameTables(s, r);
    case SupervisorCall(id) => SyscallTables(s, id, r);
    case Fault => KillTables(s, r);
    case UartInterrupt(_) => SameTables(s, r);
    case UnknownInterrupt =>
    case CodeRuns(_) => SameTables(s, r);
  }

  lemma BootTables(c: Config, f: Frame)
    requires ValidConfig(c)
    ensures Shape(Boot(c, f)) && TablesOk(Boot(c, f)) && PidsOk(Boot(c, f)) && Boot(c, f).pidCounter == 1
  {
    InitConsistent(c, f);
    var s := Init(c, f);
    forall p | 1 <= p < |s.procs|
      ensures p in s.freeProcs
    {
      UpToHas(c.np, p);
    }
    var w := CreateProcessCases(Init(c, f), c.mainThread, 0, 0, Boot(c, f));
    CreateProcessTables(Init(c, f), w, c.mainThread, 0, 0, Boot(c, f));
  }

  /** How many identifiers a run hands out at most. */
  function PidsOf(es: seq<Event>): nat
  {
    if es == [] then 0 else NewPids(es[0]) + PidsOf(es[1..])
  }

  /** Through every run the tables hold what they should, and identifiers stay distinct until the counter wraps. */
  lemma {:induction false} RunTables(s: KState, es: seq<Event>, r: KState)
    requires Healthy(s) && IndexSafe(s, es) && TablesOk(s) && Run(s, es) == Running(r)
    ensures Shape(r) && TablesOk(r) && r.cfg == s.cfg
    ensures PidsOk(s) && s.pidCounter + PidsOf(es) < WORD_LIMIT ==>
              PidsOk(r) && r.pidCounter <= s.pidCounter + PidsOf(es)
    decreases |es|
  {
    if es != [] {
      var e := es[0];
      StepShape(s, e);
      var t := Step(s, e).s;
      SafeStep(s, es);
      StepTables(s, e, t);
      RunTables(t, es[1..], r);
    }
  }
}
