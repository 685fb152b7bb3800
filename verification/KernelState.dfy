/**
 * The state of the kernel between two interrupts, and what each interrupt handler does to it:
 * system/scheduler.c, system/thread.c, system/process.c, system/calls.c and system/isr.c.
 */
module KernelState {
  import opened Words
  import opened Rings
  import opened Uart
  import opened AddressSpace

  const PROCESSOR_MODE_USR: word := 0x10

  /** `struct general_registers`. */
  datatype GeneralRegisters = GeneralRegisters(
    r0: word, r1: word, r2: word, r3: word, r4: word, r5: word, r6: word,
    r7: word, r8: word, r9: word, r10: word, r11: word, r12: word,
    lr: word, pc: word, sp: word)

  const ZERO_REGISTERS := GeneralRegisters(0, 0, 0, 0, 0, 0, 0, 0, 0, 0, 0, 0, 0, 0, 0, 0)

  /** The part of `struct registers` that the handlers use; `gr.lr` is the return address. */
  datatype Frame = Frame(gr: GeneralRegisters, usrLr: word, usrSp: word, spsr: word)

  datatype ThreadState = READY | WAITING | DONE

  /** `struct tcb`; `process` is the position in the process table that the pointer denotes. */
  datatype Tcb = Tcb(tid: word, index: nat, process: nat, regs: GeneralRegisters, cpsr: word,
                     waiting: word, state: ThreadState)

  /** `struct pcb`; `free` is the contents of its slot queue. */
  datatype Pcb = Pcb(pid: word, index: nat, free: seq<nat>, l2: L2Table)

  /**
   * What the build fixes: the numbers of processes and of threads per process, the size of the UART
   * ring, the megabyte of `_udata_begin`, the addresses of the L2 tables and of three functions.
   * `requeueGlobal` chooses the index that `scheduler_cycle` puts back: the slot within the process,
   * as line 219 of system/scheduler.c does, or the index in the thread table.
   */
  datatype Config = Config(np: nat, nt: nat, uartSize: nat, baseMb: nat, initTable: word, tables: seq<word>,
                           endlessLoop: word, exitAddress: word, mainThread: word, requeueGlobal: bool)

  predicate ValidConfig(c: Config)
  {
    && 1 <= c.np && 1 <= c.nt <= 126 && 1 <= c.uartSize
    && 4 < c.baseMb < N_L1_ENTRIES && !FixedMegabyte(c.baseMb)
    && |c.tables| == c.np + 1
    && c.initTable % 1024 == 0
    && (forall p :: 0 <= p < |c.tables| ==> c.tables[p] % 1024 == 0)
    && (forall p, q :: 0 <= p < q < |c.tables| ==> c.tables[p] != c.tables[q])
  }

  /** `N_THREADS`. */
  function NThreads(c: Config): nat
  {
    c.np * c.nt
  }

  datatype KState = KState(
    cfg: Config,
    ready: seq<nat>, sleep: seq<nat>, chars: seq<nat>, freeProcs: seq<nat>,
    threads: seq<Tcb>, procs: seq<Pcb>, running: nat,
    frame: Frame, l1: L1Table, pidCounter: word, tidCounter: word, uart: seq<byte>)

  /** Sizes and ranges that the C arrays and the push guards fix. */
  predicate Shape(s: KState)
  {
    && ValidConfig(s.cfg)
    && |s.threads| == NThreads(s.cfg) + 1 && |s.procs| == s.cfg.np + 1
    && s.running < |s.threads|
    && InRange(s.ready, NThreads(s.cfg)) && InRange(s.sleep, NThreads(s.cfg)) && InRange(s.chars, NThreads(s.cfg))
    && InRange(s.freeProcs, s.cfg.np)
    && (forall t :: 0 <= t < |s.threads| ==> s.threads[t].process < |s.procs|)
    && (forall p :: 0 <= p < |s.procs| ==> InRange(s.procs[p].free, SlotCapacity(s.cfg, p)))
  }

  /** The size of the slot queue of a process: `init_null_thread` leaves the null process with none. */
  function SlotCapacity(c: Config, p: nat): nat
  {
    if p == 0 then 0 else c.nt
  }

  /** The index in the thread table of a slot of the process with index `p`. */
  function TableIndex(c: Config, p: nat, slot: nat): nat
  {
    if p == 0 then 0 else (p - 1) * c.nt + slot
  }

  /** `get_global_thread_index`. */
  function GlobalIndex(s: KState, t: Tcb): nat
    requires t.process < |s.procs|
  {
    TableIndex(s.cfg, s.procs[t.process].index, t.index)
  }

  function Saved(t: Tcb, f: Frame): Tcb
  {
    t.(regs := f.gr.(lr := f.usrLr, sp := f.usrSp, pc := f.gr.lr), cpsr := f.spsr)
  }

  function Loaded(t: Tcb): Frame
  {
    Frame(t.regs.(lr := t.regs.pc), t.regs.lr, t.regs.sp, t.cpsr)
  }

  function TableOf(s: KState, t: nat): word
    requires Shape(s) && t < |s.threads|
  {
    s.cfg.tables[s.threads[t].process]
  }

  /** `switch_context`; `from` is None where the C code passes NULL. */
  function SwitchContext(s: KState, from: Option<nat>, to: nat): KState
    requires Shape(s) && to < |s.threads| && (from.Some? ==> from.value < |s.threads|)
  {
    var ts := if from.Some? && from.value != 0 then s.threads[from.value := Saved(s.threads[from.value], s.frame)]
              else s.threads;
    s.(threads := ts, frame := Loaded(ts[to]), l1 := SwitchedMemory(s.l1, s.cfg.baseMb, TableOf(s, to)))
  }

  lemma SwitchContextShape(s: KState, from: Option<nat>, to: nat)
    requires Shape(s) && to < |s.threads| && (from.Some? ==> from.value < |s.threads|)
    ensures Shape(SwitchContext(s, from, to))
  {
  }

  /** The decremented waiting time: an unsigned 32-bit subtraction. */
  function Decremented(w: word): word
  {
    if w == 0 then WORD_LIMIT - 1 else w - 1
  }

  /** `++` on an unsigned 32-bit counter. */
  function Incremented(w: word): word
  {
    if w == WORD_LIMIT - 1 then 0 else w + 1
  }

  function SetWaiting(ts: seq<Tcb>, t: nat, w: word): seq<Tcb>
    requires t < |ts|
  {
    ts[t := ts[t].(waiting := w)]
  }

  datatype Sleepers = Panic | Sleepers(threads: seq<Tcb>, sleep: seq<nat>, ready: seq<nat>)

  /**
   * The loop of `decrement_waits`, from the state in which the cursor has `todo` before it.
   * `Panic` is the failed assertion that the popped thread is the current one.
   */
  function DecrementWaits(n: nat, todo: seq<nat>, threads: seq<Tcb>, sleep: seq<nat>, ready: seq<nat>): (r: Sleepers)
    requires |threads| == n + 1 && InRange(todo, n) && InRange(sleep, n) && InRange(ready, n)
    ensures r.Sleepers? ==> |r.threads| == n + 1 && InRange(r.sleep, n) && InRange(r.ready, n)
    ensures r.Sleepers? ==>
              forall t :: 0 <= t < |threads| ==> r.threads[t] == threads[t].(waiting := r.threads[t].waiting)
    decreases |todo|
  {
    if todo == [] then Sleepers(threads, sleep, ready)
    else
      var t := todo[0];
      var w := Decremented(threads[t].waiting);
      var ts := SetWaiting(threads, t, w);
      if w != 0 then DecrementWaits(n, todo[1..], ts, sleep, ready)
      else if sleep == [] || sleep[0] != t then Panic
      else DecrementWaits(n, todo[1..], ts, sleep[1..], Pushed(n, ready, t))
  }

  /** The index that `scheduler_cycle` puts back into the ready queue. */
  function RequeueIndex(s: KState, t: nat): nat
    requires Shape(s) && t < |s.threads|
  {
    if s.cfg.requeueGlobal then GlobalIndex(s, s.threads[t]) else s.threads[t].index
  }

  /** `scheduler_cycle` after the optional decrement. */
  function Cycle(s: KState): KState
    requires Shape(s)
  {
    if s.ready == [] then s
    else
      var next := s.ready[0];
      var s1 := s.(ready := s.ready[1..], running := next);
      if s.running == 0 then SwitchContext(s1, None, next)
      else
        var back := RequeueIndex(s, s.running);
        if !PushOk(NThreads(s.cfg), s1.ready, back) then s1 // the old thread is lost
        else SwitchContext(s1.(ready := s1.ready + [back]), Some(s.running), next)
  }

  datatype Outcome = Halted | Running(s: KState)

  /** `scheduler_cycle(regs, true)`. */
  function TimerCycle(s: KState): Outcome
    requires Shape(s)
  {
    var r := DecrementWaits(NThreads(s.cfg), s.sleep, s.threads, s.sleep, s.ready);
    if r.Panic? then Halted else Running(Cycle(s.(threads := r.threads, sleep := r.sleep, ready := r.ready)))
  }

  /** The hand-over part of `kill_cur_thread`. */
  function HandOver(s: KState): KState
    requires Shape(s)
  {
    var s1 := if s.ready == [] then s.(running := 0) else s.(ready := s.ready[1..], running := s.ready[0]);
    SwitchContext(s1, None, s1.running)
  }

  /** `kill_cur_thread`. */
  function Kill(s: KState): KState
    requires Shape(s)
  {
    var p := s.threads[s.running].process;
    var free := Pushed(SlotCapacity(s.cfg, p), s.procs[p].free, s.threads[s.running].index);
    var s1 := HandOver(s).(procs := s.procs[p := s.procs[p].(free := free)]);
    if |free| >= SlotCapacity(s.cfg, p) then s1.(freeProcs := Pushed(s.cfg.np, s.freeProcs, s.procs[p].index))
    else s1
  }

  datatype WaitingRing = SleepRing | CharRing

  /** The state in which `push_waiting_thread` calls the cycle: the thread is queued, the null thread runs. */
  function Parked(s: KState, ring: WaitingRing): KState
    requires Shape(s)
  {
    var g := GlobalIndex(s, s.threads[s.running]);
    var s1 := if ring.SleepRing? then s.(sleep := Pushed(NThreads(s.cfg), s.sleep, g))
              else s.(chars := Pushed(NThreads(s.cfg), s.chars, g));
    SwitchContext(s1, Some(s.running), 0).(running := 0)
  }

  /** `scheduler_on_sleep`. */
  function OnSleep(s: KState, duration: word): Outcome
    requires Shape(s)
  {
    if duration == 0 then Running(s)
    else if s.running == 0 then Halted
    else
      var s1 := Cycle(Parked(s, SleepRing));
      Running(s1.(threads := SetWaiting(s1.threads, s.running, duration)))
  }

  /** `scheduler_on_getchar`. */
  function OnGetchar(s: KState): Outcome
    requires Shape(s)
  {
    if s.running == 0 then Halted
    else
      var s1 := Cycle(Parked(s, CharRing));
      Running(s1.(threads := s1.threads[s.running := s1.threads[s.running].(state := WAITING)]))
  }

  /** The case `GET_CHAR` of `exec_syscall`. */
  function GetChar(s: KState): Outcome
    requires Shape(s)
  {
    if s.uart != [] then Running(s.(frame := s.frame.(gr := s.frame.gr.(r0 := s.uart[0])), uart := s.uart[1..]))
    else
      var o := OnGetchar(s);
      if o.Halted? || o.s.threads[o.s.running].state != READY then Halted else o
  }

  /** `verify_pointer`: aligned and inside the stack of the current thread. */
  predicate VerifyPointer(s: KState, p: word)
    requires Shape(s)
  {
    var slot := s.threads[s.running].index;
    && p % 4 == 0
    && MaxStackPointer(s.cfg.baseMb, s.cfg.nt, slot) <= p < StackPointer(s.cfg.baseMb, s.cfg.nt, slot)
  }

  /** The three checks at the start of the cases `FORK` and `CREATE_THREAD`. */
  predicate ArgumentsOk(s: KState)
    requires Shape(s)
  {
    var gr := s.frame.gr;
    && gr.r0 % 4 == 0
    && VerifyPointer(s, gr.r1)
    && VerifyPointer(s, (gr.r1 - (gr.r2 - 4)) % WORD_LIMIT)
  }

  /** `init_thread` and the assignments of `thread_create`. */
  function NewTcb(c: Config, tid: word, p: nat, slot: nat, func: word, sp: word, r0: word): Tcb
  {
    Tcb(tid, slot, p, ZERO_REGISTERS.(pc := func, lr := c.exitAddress, sp := sp, r0 := r0),
        PROCESSOR_MODE_USR, 0, READY)
  }

  /** `switch_memory` to the table of a process and back to that of the running thread. */
  function ThereAndBack(s: KState, p: nat): L1Table
    requires Shape(s) && p < |s.procs|
  {
    SwitchedMemory(SwitchedMemory(s.l1, s.cfg.baseMb, s.cfg.tables[p]), s.cfg.baseMb, TableOf(s, s.running))
  }

  /** `thread_create`. The bytes of the arguments are not part of the state. */
  function CreateThread(s: KState, p: nat, func: word, args: word, argsSize: word): KState
    requires Shape(s) && p < |s.procs|
  {
    var tid := Incremented(s.tidCounter);
    var s0 := s.(tidCounter := tid);
    var pcb := s.procs[p];
    if pcb.free == [] then s0
    else
      var slot := pcb.free[0];
      var l2 := ThreadTable(pcb.l2, s.cfg.baseMb, pcb.pid, slot);
      var s1 := s0.(procs := s.procs[p := pcb.(free := pcb.free[1..], l2 := l2)]);
      var top := StackPointer(s.cfg.baseMb, s.cfg.nt, slot);
      if top == 0 then s1
      else
        var withArgs := args != 0 && argsSize != 0;
        var s2 := if withArgs then s1.(l1 := ThereAndBack(s, p)) else s1;
        var sp := if withArgs then (top - argsSize) % WORD_LIMIT else top % WORD_LIMIT;
        Register(s2, NewTcb(s.cfg, tid, p, slot, func, sp, if withArgs then sp else 0))
  }

  /** `scheduler_register_thread`. */
  function Register(s: KState, t: Tcb): KState
    requires Shape(s) && t.process < |s.procs|
  {
    var g := GlobalIndex(s, t);
    if !PushOk(NThreads(s.cfg), s.ready, g) then s
    else s.(ready := s.ready + [g], threads := s.threads[g := t])
  }

  /** `process_create`. The copy of the user data is not part of the state. */
  function CreateProcess(s: KState, func: word, args: word, argsSize: word): KState
    requires Shape(s)
  {
    var pid := Incremented(s.pidCounter);
    if s.freeProcs == [] then s.(pidCounter := pid)
    else CreateThread(WithProcess(s, pid), s.freeProcs[0], func, args, argsSize)
  }

  /** `scheduler_register_process` and `init_process_memory`. */
  function WithProcess(s: KState, pid: word): KState
    requires Shape(s) && s.freeProcs != []
  {
    var p := s.freeProcs[0];
    s.(pidCounter := pid, freeProcs := s.freeProcs[1..],
       procs := s.procs[p := Pcb(pid, p, UpTo(s.cfg.nt), ProcessTable(s.cfg.baseMb, p))],
       l1 := ThereAndBack(s, p))
  }

  /**
   * The copy of the arguments in `thread_create` halts the system: it reads upward from a pointer into the
   * stack of the caller, and more bytes than a stack holds take it past the page of that stack. The data
   * abort comes from a privileged mode, on which its handler halts.
   */
  predicate CopyAborts(args: word, argsSize: word)
  {
    args != 0 && argsSize > THREAD_STACK_SIZE
  }

  /** The case `FORK` after its checks. Without a free process index nothing is copied. */
  function Fork(s: KState): Outcome
    requires Shape(s)
  {
    var gr := s.frame.gr;
    if s.freeProcs != [] && CopyAborts(gr.r1, gr.r2) then Halted
    else Running(CreateProcess(s, gr.r0, gr.r1, gr.r2))
  }

  /** The case `CREATE_THREAD` after its checks. Without a free slot nothing is copied. */
  function CreateCall(s: KState): Outcome
    requires Shape(s)
  {
    var p, gr := s.threads[s.running].process, s.frame.gr;
    if s.procs[p].free != [] && CopyAborts(gr.r1, gr.r2) then Halted
    else Running(CreateThread(s, p, gr.r0, gr.r1, gr.r2))
  }

  /** `exec_syscall`. */
  function Syscall(s: KState, id: nat): Outcome
    requires Shape(s)
  {
    var gr := s.frame.gr;
    if id == 2 then GetChar(s)
    else if id == 3 then Running(s)
    else if id == 4 then OnSleep(s, gr.r0)
    else if id == 5 && ArgumentsOk(s) then Fork(s)
    else if id == 6 && ArgumentsOk(s) then CreateCall(s)
    else Running(Kill(s))
  }

  /** `scheduler_on_char_received`. */
  function OnCharReceived(s: KState): KState
    requires Shape(s)
  {
    if s.chars == [] then s
    else
      var t := s.chars[0];
      var s1 := s.(chars := s.chars[1..]);
      if s.uart == [] then s1 // the waiting thread is dropped
      else
        var tcb := s.threads[t];
        s1.(threads := s.threads[t := tcb.(regs := tcb.regs.(r0 := s.uart[0]), state := READY)],
            uart := s.uart[1..], ready := Pushed(NThreads(s.cfg), s.ready, t))
  }

  /** The UART branch of `irq_handler`; `received` is None when the hardware FIFO is empty. */
  function UartIrq(s: KState, received: Option<byte>): KState
    requires Shape(s)
  {
    if received.None? || |s.uart| >= s.cfg.uartSize then s
    else OnCharReceived(s.(uart := s.uart + [received.value]))
  }

  /** `user_interrupted`. */
  predicate UserMode(spsr: word)
  {
    spsr % 32 == PROCESSOR_MODE_USR
  }

  /**
   * What can happen next: the three interrupt sources, a supervisor call, one of the three faults,
   * or code that runs between two interrupts and leaves a new frame (it cannot change its mode).
   */
  datatype Event =
    | TimerInterrupt
    | UartInterrupt(received: Option<byte>)
    | UnknownInterrupt
    | SupervisorCall(id: nat)
    | Fault
    | CodeRuns(f: Frame)

  /** The frame that running code leaves, in the mode it was entered. */
  function Ran(before: Frame, f: Frame): Frame
  {
    f.(spsr := f.spsr - f.spsr % 32 + before.spsr % 32)
  }

  /** One interrupt, from entry to return. */
  function Step(s: KState, e: Event): Outcome
    requires Shape(s)
  {
    match e
    case TimerInterrupt => TimerCycle(s)
    case UartInterrupt(received) => Running(UartIrq(s, received))
    case UnknownInterrupt => Running(s)
    case SupervisorCall(id) => if UserMode(s.frame.spsr) then Syscall(s, id) else Halted
    case Fault => if UserMode(s.frame.spsr) then Running(Kill(s)) else Halted
    case CodeRuns(f) => Running(s.(frame := Ran(s.frame, f)))
  }

  /** The zeroed entries of the static tables. */
  function ZeroTcb(): Tcb
  {
    Tcb(0, 0, 0, ZERO_REGISTERS, 0, 0, READY)
  }

  function ZeroPcb(): Pcb
  {
    Pcb(0, 0, [], Zeros(N_L2_ENTRIES))
  }

  function NullTcb(c: Config): Tcb
  {
    ZeroTcb().(regs := ZERO_REGISTERS.(pc := c.endlessLoop, sp := StackPointer(c.baseMb, c.nt, 0) % WORD_LIMIT),
               cpsr := PROCESSOR_MODE_USR)
  }

  function InitThreads(c: Config): (ts: seq<Tcb>)
    ensures |ts| == NThreads(c) + 1 && ts[0] == NullTcb(c)
    ensures forall t :: 1 <= t < |ts| ==> ts[t] == ZeroTcb()
  {
    seq(NThreads(c) + 1, (i: nat) => if i == 0 then NullTcb(c) else ZeroTcb())
  }

  function InitProcs(c: Config): (ps: seq<Pcb>)
    ensures |ps| == c.np + 1 && ps[0] == ZeroPcb().(l2 := ThreadTable(Zeros(N_L2_ENTRIES), c.baseMb, 0, 0))
    ensures forall p :: 1 <= p < |ps| ==> ps[p] == ZeroPcb()
  {
    seq(c.np + 1,
        (i: nat) => if i == 0 then ZeroPcb().(l2 := ThreadTable(Zeros(N_L2_ENTRIES), c.baseMb, 0, 0)) else ZeroPcb())
  }

  /** The state after `init_uart`, `init_l1` and `init_scheduler`. */
  function Init(c: Config, f: Frame): KState
    requires ValidConfig(c)
  {
    KState(c, [], [], [], UpTo(c.np), InitThreads(c), InitProcs(c), 0, f, BootL1(c.baseMb, c.initTable), 0, 0, [])
  }

  /** The state when `start_kernel` returns. */
  function Boot(c: Config, f: Frame): KState
    requires ValidConfig(c)
  {
    CreateProcess(Init(c, f), c.mainThread, 0, 0)
  }
}
