/** Which stack pages a process has: exactly those of the slots that were popped since it was created. */
module Lifetime {
  import opened Words
  import opened Rings
  import opened Counting
  import opened AddressSpace
  import opened KernelState
  import opened Ownership
  import opened Waking
  import opened Health
  import opened Safety
  import opened AsWritten
  import opened Memory
  import opened Tables
  import opened Isolation

  /** For each process, the slots popped since the process index was last taken. */
  type SlotHistory = seq<set<nat>>

  function Popped(s: KState, p: nat, u: SlotHistory): SlotHistory
    requires p < |s.procs| && |u| == |s.procs|
  {
    if s.procs[p].free == [] then u else u[p := u[p] + {s.procs[p].free[0]}]
  }

  function Forked(s: KState, u: SlotHistory): SlotHistory
    requires Shape(s) && |u| == |s.procs|
  {
    if s.freeProcs == [] then u else u[s.freeProcs[0] := {1}]
  }

  function NextHistory(s: KState, e: Event, u: SlotHistory): (v: SlotHistory)
    requires Shape(s) && |u| == |s.procs|
    ensures |v| == |u|
  {
    if !e.SupervisorCall? || !ArgumentsOk(s) then u
    else if e.id == 5 then Forked(s, u)
    else if e.id == 6 then Popped(s, s.threads[s.running].process, u)
    else u
  }

  ghost predicate Agrees(table: L2Table, used: set<nat>)
  {
    forall k: nat :: k <= 126 ==> (table[StackEntry(k)] != 0 <==> k in used)
  }

  ghost predicate HistoryOk(s: KState, u: SlotHistory)
  {
    && |u| == |s.procs|
    && forall p :: 0 <= p < |s.procs| && (p == 0 || p !in s.freeProcs) ==> Agrees(s.procs[p].l2, u[p])
  }

  predicate SameL2(a: seq<Pcb>, b: seq<Pcb>)
  {
    |a| == |b| && forall p :: 0 <= p < |a| ==> a[p].l2 == b[p].l2
  }

  /** Only creation changes the set of processes in use upwards, or any table. */
  predicate Quieter(s: KState, r: KState)
  {
    SameL2(s.procs, r.procs) && forall p :: p in s.freeProcs ==> p in r.freeProcs
  }

  lemma KillQuieter(s: KState, r: KState)
    requires Shape(s) && r == Kill(s)
    ensures Quieter(s, r)
  {
  }

  lemma CreateThreadHistory(s: KState, p: nat, func: word, args: word, argsSize: word, u: SlotHistory, r: KState)
    requires Shape(s) && p < |s.procs| && r == CreateThread(s, p, func, args, argsSize) && HistoryOk(s, u)
    requires p == 0 || p !in s.freeProcs
    ensures HistoryOk(r, Popped(s, p, u))
  {
    if s.procs[p].free != [] {
      assert InRange(s.procs[p].free, SlotCapacity(s.cfg, p));
      var k := s.procs[p].free[0];
    }
  }

  lemma ForkHistory(s: KState, func: word, args: word, argsSize: word, u: SlotHistory, r: KState)
    requires Consistent(s) && r == CreateProcess(s, func, args, argsSize) && HistoryOk(s, u)
    ensures HistoryOk(r, Forked(s, u))
  {
    var w := CreateProcessCases(s, func, args, argsSize, r);
    if s.freeProcs != [] {
      ForkedHistory(s, u, w);
      var p := s.freeProcs[0];
      UpToHas(s.cfg.nt, 1);
      CreateThreadHistory(w, p, func, args, argsSize, u[p := {}], r);
    }
  }

  lemma ForkedHistory(s: KState, u: SlotHistory, w: KState)
    requires Consistent(s) && s.freeProcs != [] && HistoryOk(s, u)
    requires w == WithProcess(s, Incremented(s.pidCounter))
    ensures var p := s.freeProcs[0];
            p != 0 && p !in w.freeProcs && HistoryOk(w, u[p := {}]) && Popped(w, p, u[p := {}]) == Forked(s, u)
  {
    var p := s.freeProcs[0];
    forall q | 0 <= q < |w.procs| && (q == 0 || q !in w.freeProcs)
      ensures q == p || q == 0 || q !in s.freeProcs
    {
      InPop(s.freeProcs, q);
    }
    InPop(s.freeProcs, p);
    assert {} + {1} == {1 as nat};
  }

  lemma StepHistory(s: KState, e: Event, u: SlotHistory, r: KState)
    requires Healthy(s) && HistoryOk(s, u) && Step(s, e) == Running(r) && Shape(Awake(s)) && Requeues(s, e)
    ensures HistoryOk(r, NextHistory(s, e, u))
  {
    StepShape(s, e);
    HaltsExactly(s, e);
    match e
    case TimerInterrupt => TimerProcs(s, r);
    case SupervisorCall(id) => CallHistory(s, id, u, r);
    case Fault => KillQuieter(s, r);
    case UartInterrupt(_) =>
    case UnknownInterrupt =>
    case CodeRuns(_) =>
  }

  lemma CallHistory(s: KState, id: nat, u: SlotHistory, r: KState)
    requires Healthy(s) && HistoryOk(s, u) && Syscall(s, id) == Running(r)
    ensures HistoryOk(r, NextHistory(s, SupervisorCall(id), u))
  {
    var gr := s.frame.gr;
    if id == 2 || id == 4 {
      BlockProcs(s, gr.r0, r);
    } else if id == 5 && ArgumentsOk(s) {
      ForkHistory(s, gr.r0, gr.r1, gr.r2, u, r);
    } else if id == 6 && ArgumentsOk(s) {
      OwnProcessLives(s);
      CreateThreadHistory(s, s.threads[s.running].process, gr.r0, gr.r1, gr.r2, u, r);
    } else if id != 3 {
      KillQuieter(s, r);
    }
  }

  function RunHistory(s: KState, es: seq<Event>, u: SlotHistory): (v: SlotHistory)
    requires Shape(s) && |u| == |s.procs|
    ensures |v| == |u|
    decreases |es|
  {
    if es == [] then u
    else
      StepShape(s, es[0]);
      StepKeepsConfig(s, es[0]);
      match Step(s, es[0])
      case Halted => u
      case Running(s') => RunHistory(s', es[1..], NextHistory(s, es[0], u))
  }

  lemma {:induction false} HistoryOfRun(s: KState, es: seq<Event>, u: SlotHistory, r: KState)
    requires SystemOk(s) && IndexSafe(s, es) && HistoryOk(s, u) && Run(s, es) == Running(r)
    ensures HistoryOk(r, RunHistory(s, es, u))
    decreases |es|
  {
    if es != [] {
      var e := es[0];
      StepShape(s, e);
      var t := Step(s, e).s;
      SafeStep(s, es);
      RunSystemOk(s, [e], t);
      StepHistory(s, e, u, t);
      HistoryOfRun(t, es[1..], NextHistory(s, e, u), r);
    }
  }

  /** The first process has popped slot 1, the null process its only one. */
  function BootHistory(c: Config): SlotHistory
  {
    seq(c.np + 1, (p: nat) => if p == 0 then {0} else if p == 1 then {1} else {})
  }

  /** The data page, which every process but the null one has, or the stack page of a popped slot. */
  ghost predicate HasPage(p: nat, used: set<nat>, page: nat)
  {
    (page == 0 && p != 0) || exists k :: k in used && k <= 126 && page == StackEntry(k)
  }

  /** An address of the user megabyte faults unless the running process has the page. */
  lemma MappedPages(s: KState, u: SlotHistory, va: word)
    requires SystemOk(s) && HistoryOk(s, u) && va / 0x10_0000 == s.cfg.baseMb
    ensures var p := s.threads[s.running].process;
            WalkOf(s, va) != TranslationFault <==> HasPage(p, u[p], PageOf(va))
  {
    var p := s.threads[s.running].process;
    OwnProcessLives(s);
    RunningTable(s);
    UserMegabyte(s, va);
    if PageOf(va) != 0 && PageOf(va) % 2 == 0 {
      var k := PageOf(va) / 2 - 1;
      assert PageOf(va) == StackEntry(k);
    }
  }

  lemma BootHistoryOk(c: Config, f: Frame)
    requires ValidConfig(c)
    ensures HistoryOk(Boot(c, f), BootHistory(c))
  {
    var i := Init(c, f);
    InitConsistent(c, f);
    forall p | 1 <= p < |i.procs|
      ensures p in i.freeProcs
    {
      UpToHas(c.np, p);
    }
    ForkHistory(i, c.mainThread, 0, 0, BootHistory(c)[1 := {}], Boot(c, f));
  }

  lemma BootSystem(c: Config, f: Frame)
    requires ValidConfig(c)
    ensures SystemOk(Boot(c, f)) && HistoryOk(Boot(c, f), BootHistory(c))
  {
    BootHealthy(c, f);
    BootCoherent(c, f);
    BootTables(c, f);
    BootHistoryOk(c, f);
  }

  /** `HistoryOk` and `SystemOk` hold after every run from power-on, so `MappedPages` applies. */
  lemma HistoryAfterBoot(c: Config, f: Frame, es: seq<Event>, r: KState)
    requires BootRun(c, f, es, r)
    ensures SystemOk(r) && |BootHistory(c)| == |Boot(c, f).procs|
    ensures HistoryOk(r, RunHistory(Boot(c, f), es, BootHistory(c)))
  {
    BootSystem(c, f);
    BootSafe(c, f, es);
    RunSystemOk(Boot(c, f), es, r);
    HistoryOfRun(Boot(c, f), es, BootHistory(c), r);
  }
}
