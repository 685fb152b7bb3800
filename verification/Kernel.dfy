/** The kernel with the control flow of the C files: rings, tables and counters that are updated in place. */
module KernelObject {
  import opened Words
  import opened Rings
  import opened Uart
  import opened AddressSpace
  import opened KernelState
  import opened SleepLoop

  class Kernel {
    const cfg: Config
    const ready: IndexQueue
    const sleep: IndexQueue
    const chars: IndexQueue
    const freeProcs: IndexQueue
    const uart: UartQueue
    const threads: array<Tcb>
    const procs: array<Pcb>
    const l1: array<word>
    var running: nat
    var frame: Frame
    var pidCounter: word
    var tidCounter: word

    /** The five queues are different objects over different buffers. */
    ghost predicate Separate()
    {
      && ready != sleep && ready != chars && ready != freeProcs
      && sleep != chars && sleep != freeProcs && chars != freeProcs
      && ready.indices != sleep.indices && ready.indices != chars.indices && ready.indices != freeProcs.indices
      && sleep.indices != chars.indices && sleep.indices != freeProcs.indices && chars.indices != freeProcs.indices
    }

    ghost predicate Queues()
      reads ready, ready.indices, sleep, sleep.indices, chars, chars.indices, freeProcs, freeProcs.indices
      reads uart, uart.chars
    {
      && ready.Valid() && sleep.Valid() && chars.Valid() && freeProcs.Valid() && uart.Valid()
      && ready.size == sleep.size == chars.size == NThreads(cfg)
      && freeProcs.size == cfg.np && uart.size == cfg.uartSize
    }

    ghost predicate Valid()
      reads this, threads, procs, l1
      reads ready, ready.indices, sleep, sleep.indices, chars, chars.indices, freeProcs, freeProcs.indices
      reads uart, uart.chars
    {
      && Separate() && Queues() && l1.Length == N_L1_ENTRIES && Shape(View())
    }

    /** The state between two interrupts. */
    ghost function View(): KState
      requires l1.Length == N_L1_ENTRIES
      reads this, threads, procs, l1, ready, sleep, chars, freeProcs, uart
    {
      KState(cfg, ready.contents, sleep.contents, chars.contents, freeProcs.contents,
             threads[..], procs[..], running, frame, l1[..], pidCounter, tidCounter, uart.contents)
    }

    /** The static data of the program image: zeroed tables and empty queues. */
    ghost predicate Blank(f: Frame)
      reads this, threads, procs
      reads ready, ready.indices, sleep, sleep.indices, chars, chars.indices, freeProcs, freeProcs.indices
      reads uart, uart.chars
    {
      && ValidConfig(cfg) && Separate() && Queues()
      && ready.contents == sleep.contents == chars.contents == freeProcs.contents == uart.contents == []
      && threads.Length == NThreads(cfg) + 1 && (forall t :: 0 <= t < threads.Length ==> threads[t] == ZeroTcb())
      && procs.Length == cfg.np + 1 && (forall p :: 0 <= p < procs.Length ==> procs[p] == ZeroPcb())
      && l1.Length == N_L1_ENTRIES
      && running == pidCounter == tidCounter == 0 && frame == f
    }

    /** The static data over the five static queues. */
    constructor (c: Config, f: Frame, ready: IndexQueue, sleep: IndexQueue, chars: IndexQueue, freeProcs: IndexQueue,
                 uart: UartQueue)
      requires ValidConfig(c)
      ensures cfg == c && frame == f && running == pidCounter == tidCounter == 0
      ensures this.ready == ready && this.sleep == sleep && this.chars == chars && this.freeProcs == freeProcs
      ensures this.uart == uart
      ensures fresh(threads) && fresh(procs) && fresh(l1) && l1.Length == N_L1_ENTRIES
      ensures threads.Length == NThreads(cfg) + 1 && (forall t :: 0 <= t < threads.Length ==> threads[t] == ZeroTcb())
      ensures procs.Length == cfg.np + 1 && (forall p :: 0 <= p < procs.Length ==> procs[p] == ZeroPcb())
    {
      cfg := c;
      this.ready, this.sleep, this.chars, this.freeProcs, this.uart := ready, sleep, chars, freeProcs, uart;
      threads := new Tcb[NThreads(c) + 1](_ => ZeroTcb());
      procs := new Pcb[c.np + 1](_ => ZeroPcb());
      l1 := new word[N_L1_ENTRIES](_ => 0);
      running, this.frame, pidCounter, tidCounter := 0, f, 0, 0;
    }

    /** `init_null_thread`. */
    method InitNullThread(f: Frame)
      requires Blank(f)
      modifies threads, procs
      ensures threads[..] == InitThreads(cfg) && procs[..] == InitProcs(cfg)
    {
      threads[0] := NullTcb(cfg);
      procs[0] := procs[0].(l2 := ThreadTable(procs[0].l2, cfg.baseMb, 0, 0));
    }

    /** `init_l1`, and the process indices that `init_scheduler` marks free. */
    method InitMemory()
      requires Separate() && Queues() && ValidConfig(cfg) && l1.Length == N_L1_ENTRIES && freeProcs.contents == []
      modifies l1, freeProcs, freeProcs.indices
      ensures Queues() && l1[..] == BootL1(cfg.baseMb, cfg.initTable) && freeProcs.contents == UpTo(cfg.np)
    {
      InitL1(l1, cfg.baseMb, cfg.initTable);
      freeProcs.MarkAllFree();
    }

    /** `init_l1` and `init_scheduler`. */
    method Initialize(f: Frame)
      requires Blank(f)
      modifies threads, procs, l1, freeProcs, freeProcs.indices
      ensures Valid() && View() == Init(cfg, f)
    {
      InitNullThread(f);
      InitMemory();
    }

    method SwitchContext(from: Option<nat>, to: nat)
      requires Valid() && to < threads.Length && (from.Some? ==> from.value < threads.Length)
      modifies this`frame, threads, l1
      ensures Valid() && View() == KernelState.SwitchContext(old(View()), from, to)
    {
      SwitchContextShape(View(), from, to);
      if from.Some? && from.value != 0 {
        threads[from.value] := Saved(threads[from.value], frame);
      }
      frame := Loaded(threads[to]);
      SwitchMemory(l1, cfg.baseMb, cfg.tables[threads[to].process]);
    }

    // ---- Queue operations, as steps of the whole state ----

    /** Pop the ready queue into the running pointer. */
    method TakeNext()
      requires Valid() && ready.contents != []
      modifies this`running, ready
      ensures Valid()
      ensures View() == old(View()).(ready := old(ready.contents)[1..], running := old(ready.contents)[0])
    {
      running := ready.PopIndex();
    }

    method PushReady(index: nat) returns (r: int)
      requires Valid()
      modifies ready, ready.indices
      ensures Valid() && View() == old(View()).(ready := Pushed(NThreads(cfg), old(ready.contents), index))
      ensures r < 0 <==> !PushOk(NThreads(cfg), old(ready.contents), index)
    {
      r := ready.PushIndex(index);
    }

    /** `get_global_thread_index`. */
    method GlobalThreadIndex(t: Tcb) returns (g: nat)
      requires Valid() && t.process < procs.Length
      ensures g == GlobalIndex(View(), t)
    {
      return TableIndex(cfg, procs[t.process].index, t.index);
    }

    /** `scheduler_cycle` without the decrement; `cfg.requeueGlobal` chooses the index of line 219. */
    method CycleNow()
      requires Valid()
      modifies this, threads, l1, ready, ready.indices
      ensures Valid() && View() == Cycle(old(View()))
    {
      if ready.count == 0 {
        return;
      }
      var previous := running;
      TakeNext();
      if previous != 0 {
        PutBack(previous);
      } else {
        SwitchContext(None, running);
      }
    }

    /** The second half of the cycle: the old thread goes to the tail and hands over, or is lost. */
    method PutBack(previous: nat)
      requires Valid() && previous < threads.Length
      modifies this`frame, threads, l1, ready, ready.indices
      ensures Valid()
      ensures var s := old(View());
              var back := RequeueIndex(s, previous);
              View() == if !PushOk(NThreads(s.cfg), s.ready, back) then s
                        else KernelState.SwitchContext(s.(ready := s.ready + [back]), Some(previous), s.running)
    {
      var back := threads[previous].index;
      if cfg.requeueGlobal {
        back := GlobalThreadIndex(threads[previous]);
      }
      var r := PushReady(back);
      if r < 0 {
        return;
      }
      SwitchContext(Some(previous), running);
    }

    /** The decrement of `scheduler_cycle`. */
    method DecrementSleepers() returns (ok: bool)
      requires Valid()
      modifies threads, sleep, ready, ready.indices
      ensures var s := old(View());
              var r := KernelState.DecrementWaits(NThreads(s.cfg), s.sleep, s.threads, s.sleep, s.ready);
              && ok == r.Sleepers?
              && (ok ==> Valid() && View() == s.(threads := r.threads, sleep := r.sleep, ready := r.ready))
    {
      ok := DecrementWaitsInPlace(threads, sleep, ready);
    }

    /** `scheduler_cycle`. */
    method SchedulerCycle(decrement: bool) returns (ok: bool)
      requires Valid()
      modifies this, threads, l1, ready, ready.indices, sleep
      ensures ok <==> decrement ==> TimerCycle(old(View())).Running?
      ensures ok ==> Valid() && View() == if decrement then TimerCycle(old(View())).s else Cycle(old(View()))
    {
      if decrement {
        ok := DecrementSleepers();
        if !ok {
          return;
        }
      }
      CycleNow();
      ok := true;
    }

    // ---- Killing ----

    /** The first half of `kill_cur_thread`: the next ready thread, or the null thread, takes over. */
    method HandOverNow()
      requires Valid()
      modifies this`running, this`frame, threads, l1, ready
      ensures Valid() && View() == HandOver(old(View()))
    {
      if ready.count == 0 {
        running := 0;
      } else {
        TakeNext();
      }
      SwitchContext(None, running);
    }

    /** The slot goes back to its process; `all` tells that every slot of the process is now free. */
    method FreeSlot(p: nat, slot: nat) returns (all: bool)
      requires Valid() && p < procs.Length
      modifies procs
      ensures var s := old(View());
              var free := Pushed(SlotCapacity(s.cfg, p), s.procs[p].free, slot);
              && Valid() && View() == s.(procs := s.procs[p := s.procs[p].(free := free)])
              && all == (|free| >= SlotCapacity(s.cfg, p))
    {
      var size := SlotCapacity(cfg, p);
      procs[p] := procs[p].(free := Pushed(size, procs[p].free, slot));
      return |procs[p].free| >= size;
    }

    method FreeProcess(index: nat)
      requires Valid()
      modifies freeProcs, freeProcs.indices
      ensures Valid()
      ensures View() == old(View()).(freeProcs := Pushed(cfg.np, old(freeProcs.contents), index))
    {
      var _ := freeProcs.PushIndex(index);
    }

    /** `kill_cur_thread`. */
    method KillCurThread()
      requires Valid()
      modifies this`running, this`frame, threads, procs, l1, ready, freeProcs, freeProcs.indices
      ensures Valid() && View() == Kill(old(View()))
    {
      var p, slot := threads[running].process, threads[running].index;
      HandOverNow();
      var all := FreeSlot(p, slot);
      if all {
        FreeProcess(procs[p].index);
      }
    }

    // ---- Waiting ----

    /** The thread joins a waiting ring and the null thread takes over, before the cycle. */
    method Park(ring: WaitingRing)
      requires Valid()
      modifies this`running, this`frame, threads, l1, sleep, sleep.indices, chars, chars.indices
      ensures Valid() && View() == Parked(old(View()), ring)
    {
      var g := GlobalThreadIndex(threads[running]);
      PushWaiting(ring, g);
      SwitchToNull();
    }

    method SwitchToNull()
      requires Valid()
      modifies this`running, this`frame, threads, l1
      ensures Valid()
      ensures View() == KernelState.SwitchContext(old(View()), Some(old(running)), 0).(running := 0)
    {
      SwitchContext(Some(running), 0);
      running := 0;
    }

    method PushWaiting(ring: WaitingRing, g: nat)
      requires Valid()
      modifies sleep, sleep.indices, chars, chars.indices
      ensures Valid()
      ensures var s := old(View());
              View() == if ring.SleepRing? then s.(sleep := Pushed(NThreads(s.cfg), s.sleep, g))
                        else s.(chars := Pushed(NThreads(s.cfg), s.chars, g))
    {
      if ring.SleepRing? {
        var _ := sleep.PushIndex(g);
      } else {
        var _ := chars.PushIndex(g);
      }
    }

    /** `push_waiting_thread`; `ok` is false when its assertion fails, that the null thread is not running. */
    method PushWaitingThread(ring: WaitingRing) returns (ok: bool, thread: nat)
      requires Valid()
      modifies this, threads, l1, ready, ready.indices, sleep, sleep.indices, chars, chars.indices
      ensures ok == (old(running) != 0) && thread == old(running)
      ensures Valid() && View() == if ok then Cycle(Parked(old(View()), ring)) else old(View())
    {
      thread := running;
      ok := running != 0;
      if ok {
        Park(ring);
        CycleNow();
      }
    }

    /** `scheduler_on_sleep`; `ok` is false when the null thread would have to wait. */
    method SchedulerOnSleep(duration: word) returns (ok: bool)
      requires Valid()
      modifies this, threads, l1, ready, ready.indices, sleep, sleep.indices, chars, chars.indices
      ensures ok == OnSleep(old(View()), duration).Running?
      ensures ok ==> Valid() && View() == OnSleep(old(View()), duration).s
    {
      if duration == 0 {
        return true;
      }
      var thread;
      ok, thread := PushWaitingThread(SleepRing);
      if ok {
        SetThread(thread, threads[thread].(waiting := duration));
      }
    }

    /** `scheduler_on_getchar`. */
    method SchedulerOnGetchar() returns (ok: bool)
      requires Valid()
      modifies this, threads, l1, ready, ready.indices, sleep, sleep.indices, chars, chars.indices
      ensures ok == OnGetchar(old(View())).Running?
      ensures ok ==> Valid() && View() == OnGetchar(old(View())).s
    {
      var thread;
      ok, thread := PushWaitingThread(CharRing);
      if ok {
        SetThread(thread, threads[thread].(state := WAITING));
      }
    }

    /** `exec_syscall_get_char`. */
    method ExecGetChar() returns (ok: bool)
      requires Valid()
      modifies this, threads, l1, ready, ready.indices, sleep, sleep.indices, chars, chars.indices, uart
      ensures ok == GetChar(old(View())).Running?
      ensures ok ==> Valid() && View() == GetChar(old(View())).s
    {
      var empty := uart.QueueIsEmpty();
      if empty {
        ok := SchedulerOnGetchar();
        if ok {
          ok := threads[running].state == READY;
        }
      } else {
        ReturnChar();
        ok := true;
      }
    }

    method ReturnChar()
      requires Valid() && uart.contents != []
      modifies this`frame, uart
      ensures Valid()
      ensures var s := old(View());
              View() == s.(frame := s.frame.(gr := s.frame.gr.(r0 := s.uart[0])), uart := s.uart[1..])
    {
      var c := TakeChar();
      frame := frame.(gr := frame.gr.(r0 := c));
    }

    /** `scheduler_on_char_received`. */
    method SchedulerOnCharReceived()
      requires Valid()
      modifies threads, chars, uart, ready, ready.indices
      ensures Valid() && View() == OnCharReceived(old(View()))
    {
      if chars.count == 0 {
        return;
      }
      var t := chars.PopIndex();
      var empty := uart.QueueIsEmpty();
      if empty {
        return;
      }
      var c := TakeChar();
      Deliver(t, c);
    }

    /** The waiting thread gets its character and joins the ready queue. */
    method Deliver(t: nat, c: byte)
      requires Valid() && t < threads.Length
      modifies threads, ready, ready.indices
      ensures Valid()
      ensures var s := old(View());
              var tcb := s.threads[t];
              View() == s.(threads := s.threads[t := tcb.(regs := tcb.regs.(r0 := c), state := READY)],
                           ready := Pushed(NThreads(s.cfg), s.ready, t))
    {
      SetThread(t, threads[t].(regs := threads[t].regs.(r0 := c), state := READY));
      var _ := PushReady(t);
    }

    method SetThread(t: nat, tcb: Tcb)
      requires Valid() && t < threads.Length && tcb.process == threads[t].process
      modifies threads
      ensures Valid() && View() == old(View()).(threads := old(View()).threads[t := tcb])
    {
      threads[t] := tcb;
    }

    /** `uart_pop_char`, as a step of the whole state. */
    method TakeChar() returns (c: byte)
      requires Valid() && uart.contents != []
      modifies uart
      ensures Valid() && View() == old(View()).(uart := old(uart.contents)[1..]) && c == old(uart.contents)[0]
    {
      c := uart.PopChar();
    }

    /** The UART branch of `irq_handler`. */
    method UartInterrupted(received: Option<byte>)
      requires Valid()
      modifies threads, chars, uart, uart.chars, ready, ready.indices
      ensures Valid() && View() == UartIrq(old(View()), received)
    {
      var pushed := uart.PushChar(received);
      if pushed {
        SchedulerOnCharReceived();
      }
    }

    // ---- Creation ----

    /** `switch_memory` to the table of a process and back, around a copy. */
    method VisitMemory(p: nat)
      requires Valid() && p < procs.Length
      modifies l1
      ensures Valid() && View() == old(View()).(l1 := ThereAndBack(old(View()), p))
    {
      SwitchMemory(l1, cfg.baseMb, cfg.tables[p]);
      SwitchMemory(l1, cfg.baseMb, cfg.tables[threads[running].process]);
    }

    /** `scheduler_register_thread`. */
    method SchedulerRegisterThread(t: Tcb)
      requires Valid() && t.process < procs.Length
      modifies threads, ready, ready.indices
      ensures Valid() && View() == Register(old(View()), t)
    {
      var g := GlobalThreadIndex(t);
      var r := PushReady(g);
      if r < 0 {
        return;
      }
      threads[g] := t;
    }

    /** Pop a slot and map its stack. */
    method TakeSlot(p: nat) returns (slot: nat)
      requires Valid() && p < procs.Length && procs[p].free != []
      modifies procs
      ensures slot == old(procs[p].free)[0] && slot <= cfg.nt && Valid()
      ensures var s := old(View());
              var pcb := s.procs[p];
              View() == s.(procs := s.procs[p := pcb.(free := pcb.free[1..],
                                                      l2 := ThreadTable(pcb.l2, s.cfg.baseMb, pcb.pid, slot))])
    {
      var pcb := procs[p];
      assert InRange(pcb.free, SlotCapacity(cfg, p));
      slot := pcb.free[0];
      procs[p] := pcb.(free := pcb.free[1..], l2 := ThreadTable(pcb.l2, cfg.baseMb, pcb.pid, slot));
    }

    /** `++tid_counter`. */
    method NextTid() returns (tid: word)
      requires Valid()
      modifies this`tidCounter
      ensures Valid() && View() == old(View()).(tidCounter := tid) && tid == Incremented(old(tidCounter))
    {
      tidCounter := Incremented(tidCounter);
      tid := tidCounter;
    }

    /** `thread_create`; `ok` is false when the copy of the arguments aborts. */
    method ThreadCreate(p: nat, func: word, args: word, argsSize: word) returns (ok: bool)
      requires Valid() && p < procs.Length
      modifies this`tidCounter, threads, procs, l1, ready, ready.indices
      ensures ok <==> old(procs[p].free) == [] || !CopyAborts(args, argsSize)
      ensures ok ==> Valid() && View() == CreateThread(old(View()), p, func, args, argsSize)
    {
      ok := true;
      var tid := NextTid();
      if procs[p].free == [] {
        return;
      }
      var slot := TakeSlot(p);
      var top := StackPointer(cfg.baseMb, cfg.nt, slot);
      if top != 0 {
        ok := PlaceThread(p, tid, slot, top, func, args, argsSize);
      }
    }

    /** The end of `thread_create`: the arguments are copied below the top of the stack, unless that aborts. */
    method PlaceThread(p: nat, tid: word, slot: nat, top: nat, func: word, args: word, argsSize: word)
      returns (ok: bool)
      requires Valid() && p < procs.Length
      modifies threads, l1, ready, ready.indices
      ensures ok == !CopyAborts(args, argsSize)
      ensures ok ==> Valid()
      ensures var s := old(View());
              var withArgs := args != 0 && argsSize != 0;
              var sp := if withArgs then (top - argsSize) % WORD_LIMIT else top % WORD_LIMIT;
              ok ==> View() == Register(if withArgs then s.(l1 := ThereAndBack(s, p)) else s,
                                        NewTcb(s.cfg, tid, p, slot, func, sp, if withArgs then sp else 0))
    {
      ok := true;
      if args != 0 && argsSize != 0 {
        if CopyAborts(args, argsSize) {
          return false;
        }
        VisitMemory(p);
        var sp := (top - argsSize) % WORD_LIMIT;
        SchedulerRegisterThread(NewTcb(cfg, tid, p, slot, func, sp, sp));
      } else {
        SchedulerRegisterThread(NewTcb(cfg, tid, p, slot, func, top % WORD_LIMIT, 0));
      }
    }

    /** `scheduler_register_process`, and the set-up of the table: None when no process index is free. */
    method SchedulerRegisterProcess(pid: word) returns (p: Option<nat>)
      requires Valid()
      modifies procs, freeProcs
      ensures Valid()
      ensures old(freeProcs.contents) == [] ==> p == None && View() == old(View())
      ensures old(freeProcs.contents) != [] ==>
                && p == Some(old(freeProcs.contents)[0]) && 1 <= p.value < procs.Length
                && View() == old(View()).(freeProcs := old(freeProcs.contents)[1..],
                                          procs := old(View()).procs[p.value := NewPcb(pid, p.value)])
    {
      var index := freeProcs.PopIndex();
      if index < 0 {
        return None;
      }
      procs[index] := NewPcb(pid, index);
      return Some(index);
    }

    function NewPcb(pid: word, p: nat): Pcb
    {
      Pcb(pid, p, UpTo(cfg.nt), ProcessTable(cfg.baseMb, p))
    }

    /** `process_create`; `ok` is false when the copy of the arguments aborts. */
    method ProcessCreate(func: word, args: word, argsSize: word) returns (ok: bool)
      requires Valid()
      modifies this`pidCounter, this`tidCounter, threads, procs, l1, ready, ready.indices, freeProcs
      ensures ok <==> old(freeProcs.contents) == [] || !CopyAborts(args, argsSize)
      ensures ok ==> Valid() && View() == CreateProcess(old(View()), func, args, argsSize)
    {
      var p := SetUpProcess();
      if p.None? {
        return true;
      }
      ok := ThreadCreate(p.value, func, args, argsSize);
    }

    /** The start of `process_create`: a new identifier, and the process with its memory if an index is free. */
    method SetUpProcess() returns (p: Option<nat>)
      requires Valid()
      modifies this`pidCounter, procs, freeProcs, l1
      ensures Valid()
      ensures old(freeProcs.contents) == [] ==>
                p == None && View() == old(View()).(pidCounter := Incremented(old(pidCounter)))
      ensures old(freeProcs.contents) != [] ==>
                && p == Some(old(freeProcs.contents)[0]) && p.value < procs.Length
                && View() == WithProcess(old(View()), Incremented(old(pidCounter)))
    {
      pidCounter := Incremented(pidCounter);
      p := SchedulerRegisterProcess(pidCounter);
      if p.Some? {
        VisitMemory(p.value);
      }
    }

    // ---- Calls and interrupts ----

    /** `verify_pointer`. */
    method PointerInStack(p: word) returns (b: bool)
      requires Valid()
      ensures b <==> VerifyPointer(View(), p)
    {
      if p % 4 != 0 {
        return false;
      }
      var slot := threads[running].index;
      return MaxStackPointer(cfg.baseMb, cfg.nt, slot) <= p < StackPointer(cfg.baseMb, cfg.nt, slot);
    }

    /** The checks of `exec_syscall_fork` and `exec_syscall_create_thread`, in their order. */
    method CheckArguments() returns (b: bool)
      requires Valid()
      ensures b <==> ArgumentsOk(View())
    {
      if frame.gr.r0 % 4 != 0 {
        return false;
      }
      b := PointerInStack(frame.gr.r1);
      if b {
        b := PointerInStack((frame.gr.r1 - (frame.gr.r2 - 4)) % WORD_LIMIT);
      }
    }

    /** `exec_syscall_fork` and `exec_syscall_create_thread`. */
    method ExecCreate(fork: bool) returns (ok: bool)
      requires Valid()
      modifies this, threads, procs, l1, ready, ready.indices, freeProcs, freeProcs.indices
      ensures var o := if !ArgumentsOk(old(View())) then Running(Kill(old(View())))
                       else if fork then Fork(old(View()))
                       else CreateCall(old(View()));
              ok == o.Running? && (ok ==> Valid() && View() == o.s)
    {
      ok := CheckArguments();
      if !ok {
        KillCurThread();
        ok := true;
      } else if fork {
        ok := ProcessCreate(frame.gr.r0, frame.gr.r1, frame.gr.r2);
      } else {
        ok := ThreadCreate(threads[running].process, frame.gr.r0, frame.gr.r1, frame.gr.r2);
      }
    }

    /** `exec_syscall`; `ok` is false when an assertion fails. */
    method ExecSyscall(id: nat) returns (ok: bool)
      requires Valid()
      modifies this, threads, procs, l1, ready, ready.indices, sleep, sleep.indices, chars, chars.indices
      modifies freeProcs, freeProcs.indices, uart
      ensures ok == Syscall(old(View()), id).Running?
      ensures ok ==> Valid() && View() == Syscall(old(View()), id).s
    {
      ok := true;
      if id == 2 {
        ok := ExecGetChar();
      } else if id == 3 {
        // `uart_put_char` changes nothing here
      } else if id == 4 {
        ok := SchedulerOnSleep(frame.gr.r0);
      } else if id == 5 || id == 6 {
        ok := ExecCreate(id == 5);
      } else {
        KillCurThread();
      }
    }

    /** The handlers of system/isr.c; `ok` is false when the system halts. */
    method Handle(e: Event) returns (ok: bool)
      requires Valid()
      modifies this, threads, procs, l1, ready, ready.indices, sleep, sleep.indices, chars, chars.indices
      modifies freeProcs, freeProcs.indices, uart, uart.chars
      ensures ok == Step(old(View()), e).Running?
      ensures ok ==> Valid() && View() == Step(old(View()), e).s
    {
      ok := true;
      match e
      case TimerInterrupt =>
        ok := SchedulerCycle(true);
      case UartInterrupt(received) =>
        UartInterrupted(received);
      case UnknownInterrupt =>
      case SupervisorCall(id) =>
        if !UserMode(frame.spsr) {
          return false;
        }
        ok := ExecSyscall(id);
      case Fault =>
        if !UserMode(frame.spsr) {
          return false;
        }
        KillCurThread();
      case CodeRuns(f) =>
        frame := Ran(frame, f);
    }

    /** The end of `start_kernel`: the first process. */
    method Start(f: Frame)
      requires Blank(f)
      modifies this, threads, procs, l1, ready, ready.indices, freeProcs, freeProcs.indices
      ensures Valid() && View() == Boot(cfg, f)
    {
      Initialize(f);
      var ok := ProcessCreate(cfg.mainThread, 0, 0);
      assert ok;
    }
  }
}
