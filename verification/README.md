# tupix kernel: a verified model

This project models the kernel of tupix, a small multitasking system for the Raspberry Pi 2, and proves what it
keeps between interrupts: who owns each thread, whose registers are where, who is selected next, how long a thread
sleeps, which character a `getchar` receives, and which physical memory user code can reach. It also models the
kernel's formatted printer.

The kernel appears twice. `KernelState` has the state as a value, one function per C function, and `Step` for one
interrupt; the theorems are about `Step` and about `Run`, any list of interrupts. `KernelObject.Kernel` is a class with
the control flow of the C files, over ring objects, the thread and process tables and the first-level table, which its
methods update in place (slot queues and second-level tables are values in it). Each method is proved against the
function, and `PowerOn.RunKernel` proves that the object driven through any list of interrupts ends in
the state of `Run`. The numbers of processes, of threads per process and of UART slots are parameters.

| file | content |
|---|---|
| `Words`, `Bits` | 32-bit words as integers, the C bit operators, the bit-field macros |
| `Mmu`, `AddressSpace` | descriptor builders and their reading by the hardware, table set-up, stack addresses, the page walk |
| `Rings`, `Uart` | the index queues and the input ring |
| `KernelState` | the state, the handlers as functions, `Step` and `Boot` |
| `Counting`, `Ownership`, `Sleeping`, `Waking`, `Health` | the invariants and what each handler does to them |
| `Safety`, `AsWritten`, `Counterexamples` | all interrupts, all runs, when the kernel halts, the requeue index of line 219, and three runs that go wrong |
| `Context`, `Fairness`, `Waiting`, `Getchar` | register files, bounded waiting, exact waits, the order of characters |
| `Calls`, `Outcomes` | which arguments the creating calls accept; the registers of new threads, the first thread, the idle loop, the counters |
| `Memory`, `Tables`, `Isolation`, `Lifetime` | coherence of the tables, the page walk, isolation |
| `Copying`, `Identifiers` | when the copy of the arguments faults, and what unbounded identifiers lead to |
| `SleepLoop`, `Kernel`, `PowerOn` | the loop of `decrement_waits` over the real rings, the kernel object, whole runs of it |
| `Radix`, `Formats`, `Printing` | number conversion, format strings, the printer |

What a configuration must satisfy is `KernelState.ValidConfig`: at least one process, 1 to 126 threads per process
(a table has 256 entries and each slot takes two), tables at distinct addresses that are multiples of 1024 as their
declaration demands, and a user megabyte that is none of those `init_l1` gives to the kernel or to devices.

## Where the code departs from its description

- Line 219 of `system/scheduler.c` requeues the slot of a thread within its process, where the diagram at lines 43-52
  and the other writers use the index in the thread table. The field `requeueGlobal` of the configuration chooses
  between the two. `Safety.StepHealthy` and `Ownership.CycleConsistentIff` say exactly when a step keeps the
  invariants; the theorems about runs hold for the table index on all runs and for the line as written on runs
  without forks (`AsWritten.IndexSafe`); `AsWritten.ConsistentExactly` says for any run when the line as written keeps
  the ownership invariants, and `Counterexamples.ThreadIsLost` is a run from power-on that loses a thread.
- `decrement_waits` removes expired threads from the head of the ring only and asserts that they are there. The failed
  assertion is the outcome `Halted`; `Sleeping.DecrementWaitsExactly` and `Sleeping.DrainsExactly` say when it occurs,
  and `Counterexamples.WaitPanics` is a run from power-on in which it does.
- `driver/mmu.c:148-149` places bit 2 of the access permission of a small page at position 10 and the shareable flag
  at 9, where section B3.5.1 of ARM DDI 0406C has them the other way round. `Descriptors.SmallPageRoundTrip` says
  for which permissions this matters; the kernel uses none of these.
- The checks of `fork` and `create_thread` accept sizes just below 2^32, because `args - (args_size - 4)` wraps back
  into the caller's stack (`Calls.ArgumentsExactly`). The copy then runs off the page of that stack, and since the data
  abort comes from a privileged mode, `system/isr.c:166-168` halts the system. The model makes such a call `Halted`;
  `Copying.CopyFaultsExactly` derives the condition from the page walk and `Counterexamples.LongCopyHalts` is a run.
- Identifiers are not reused before their counter wraps, and the megabyte of a stack is the base plus the identifier.
  Isolation is proved up to a bound on forks; `Identifiers.ReachesFixedMegabyte` shows that runs beyond it reach the
  kernel's megabytes.
- The comments at `driver/uart.c:96-112` say that reading a character blocks. It does not; both callers check the ring
  first.
- `system/thread.c:98` passes the process identifier where `driver/mmu.c:322` names the parameter a process index.
  The model does what the call does, and isolation is proved with the bound on identifiers that this needs.

## Model

| member | source | states |
|---|---|---|
| `Rings.IndexQueue.constructor` | data/types.c:9-16 | an initialised queue over n slots is empty and of size n |
| `Rings.IndexQueue.PushIndex` | data/types.c:24-42 | appends an index of 1..size at the tail and returns it; out of range or full: returns -1 and changes nothing; for every size, 0 included |
| `Rings.IndexQueue.PopIndex` | data/types.c:49-64 | returns and removes the oldest index; on an empty queue returns -1 and changes nothing |
| `Rings.IndexQueue.MarkAllFree` | include/data/types.h:31-34 | on an empty queue leaves exactly 1..size in increasing order |
| `Rings.IndexQueue.Cursor` | include/data/types.h:29 | stepping a cursor with `circle_forward` is stepping the logical position, before and after the head moves |
| `Rings.TailIsSum` | include/data/types.h:22-29 | the tail is (head + count) mod size |
| `Rings.FirstInFirstOut` | data/types.c:24-64 | over every history of calls, with the acceptance rule of the push, what was accepted is what was taken followed by what is still queued, in order |
| `Rings.Replay` | data/types.c:24-64 | a list of calls on a real ring of any size: the recorded returns are that history, so indices leave in the order of acceptance and none is lost |
| `Uart.UartQueue.PushChar` | driver/uart.c:122-140 | buffers a received character at the tail; an empty hardware FIFO or a full ring returns false and changes nothing |
| `Uart.UartQueue.PeekChar` | driver/uart.c:113-117 | reads the oldest character |
| `Uart.UartQueue.PopChar` | driver/uart.c:100-107 | removes and returns the oldest character (it does not block, see below) |
| `Uart.UartQueue.QueueIsEmpty` | driver/uart.c:142-146 | true exactly when nothing is buffered |
| `Bits.SetBitTo` | include/std/bits.h:23-41 | the clear-then-or loop computes the field replacement; a position past the operand changes nothing |
| `Bits.SetFieldBits` | include/std/bits.h:23-41 | bit i of the result is bit i - bit of the value inside [bit, bit+len), and the old bit i outside |
| `Bits.ClearBitBits` | include/std/bits.h:14-20 | clears exactly the named bit |
| `Bits.SetFieldValue` | include/std/bits.h:23-41 | with the word written as high, field and low parts, only the field part is replaced, by the value modulo 2^len |
| `Bits.SameBits` | include/std/bits.h:43 | a word is determined by its bits, so the bitwise statements are complete |
| `Descriptors.SectionRoundTrip` | driver/mmu.c:111-127 | the hardware reading of a section entry gives back base, permission and both execute flags |
| `Descriptors.PointerRoundTrip` | driver/mmu.c:129-140 | the reading of a pointer entry for an aligned table gives back the table address and the privileged-execute flag |
| `Descriptors.SmallPageRoundTrip` | driver/mmu.c:188-204 | the reading of a small-page entry gives back frame and execute flag; it gives back the permission exactly when bit 2 of it is 0, because the builder stores that bit at position 10 instead of 9 |
| `Descriptors.L1SectionValue` | driver/mmu.c:89-127 | the fields of a section entry are disjoint: the entry is their weighted sum |
| `Descriptors.L2PageValue` | driver/mmu.c:158-204 | the fields of a small-page entry are disjoint: the entry is their weighted sum |
| `Descriptors.SwitchEntryIsMaskAndOr` | driver/mmu.c:349-350 | the two masking assignments put the table address over the low byte of the old entry |
| `Descriptors.SwitchIsFreshBuild` | driver/mmu.c:342-351 | for aligned tables, repointing an entry equals building the entry of the new table |
| `AddressSpace.UserPageIsBuilt` | driver/mmu.c:188-204 | the user page entry used below is what the builder returns, with the 32-bit sum of its megabyte argument |
| `AddressSpace.InitProcessMemory` | driver/mmu.c:300-319 | clears the table and maps page 0 to the megabyte of the process |
| `AddressSpace.InitThreadMemory` | driver/mmu.c:321-340 | changes one entry, 2 * slot + 2, to page slot + 1 of the given megabyte |
| `AddressSpace.InitL1` | driver/mmu.c:229-280 | the whole boot-time first-level table, entry by entry |
| `AddressSpace.SwitchMemory` | driver/mmu.c:342-351 | only the user-data entry changes, to the new table over the old low byte |
| `AddressSpace.UserPageWalk` | driver/mmu.c:188-204 | a user page walks to its frame, read-write for user mode and never executable |
| `SleepLoop.DecrementWaitsInPlace` | system/scheduler.c:61-89 | over the real rings and thread table: fails exactly when the specification panics, and otherwise leaves its thread table and rings; the assertion after the loop never fails |
| `SleepLoop.Visit` | system/scheduler.c:68-86 | one turn keeps what the loop still has to compute, moves the cursor by one slot and comes closer to the end |
| `Sleeping.DecrementWaitsExactly` | system/scheduler.c:61-89 | for distinct sleepers: no panic exactly when the due threads form a prefix of the ring; then that prefix moves in order to the ready tail and every sleeper is decremented |
| `Sleeping.WalkBehind` | system/scheduler.c:68-86 | behind a sleeper that stays, the walk succeeds exactly when nobody is due |
| `Sleeping.DrainsExactly` | system/scheduler.c:61-89 | repeated ticks never panic exactly when durations do not decrease from head to tail, and then the ring is empty after the last duration |
| `Sleeping.Overtaken` | system/scheduler.c:61-89 | a sleeper in front of one with less to wait leads to the panic by the tick at which the latter is due |
| `Counterexamples.WaitPanics` | system/scheduler.c:77 | with two processes: boot, tick, a fork, `wait(2)` by the first thread and `wait(1)` by the second reach a healthy state from which the next tick fails the assertion |
| `Waking.TimerCycleExactly` | system/scheduler.c:182-233 | the timer tick in closed form: halt exactly when a due sleeper stands behind one that is not due, else a cycle from the state with the due ones in the ready ring |
| `Waking.AwakeConsistent` | system/scheduler.c:71-76 | moving the due sleepers keeps the ownership partition, so none of the pushes is rejected |
| `Waiting.NeverHaltsOnTicks` | system/scheduler.c:61-89 | a healthy kernel left to the timer alone never halts exactly when the sleepers' durations do not decrease |
| `Ownership.Numbering` | system/scheduler.c:40-59 | the global index of a process and a slot is in the table and determines both |
| `Ownership.GlobalIndexOfThread` | system/scheduler.c:40-59 | the index computed from a control block is the place of that block in the table |
| `Ownership.IndicesAgree` | system/scheduler.c:219 | slot and table index agree exactly for process 1; so the requeue index is right exactly with the table index or for process 1 |
| `AsWritten.CycleRequeues` | system/scheduler.c:211-228 | with a ready thread, the cycle takes it from the head, loads its registers, saves the live ones in the block of the old thread, and puts at the ready tail the slot (as written) or the table index of the old thread |
| `AsWritten.TickRequeues` | system/scheduler.c:182-233 | the same for a timer tick, after the due sleepers have joined the ready ring in their order |
| `Ownership.CycleConsistentIff` | system/scheduler.c:182-233 | a cycle keeps the ownership partition exactly when it puts the old thread back under its own index, or has none to put back |
| `Ownership.CycleConsistent` | system/scheduler.c:182-233 | with the right index the cycle keeps the partition, the records and the process lifetimes |
| `Ownership.BlockConsistent` | system/scheduler.c:290-315 | blocking moves the running thread to the waiting ring and keeps the partition |
| `Ownership.CharReceivedConsistent` | system/scheduler.c:337-359 | waking a thread for a character keeps the partition |
| `Ownership.KillRemoves` | system/scheduler.c:235-260 | killing returns the slot, and the process index with the last slot, both without a rejected push, and hands over |
| `Ownership.KillConsistent` | system/scheduler.c:235-260 | killing keeps the partition, the records and the lifetimes |
| `Ownership.CreateThreadAdds` | system/thread.c:84-140 | with a free slot, creation leaves exactly the state with one more ready thread, its control block and its mapped stack |
| `Ownership.CreateThreadConsistent` | system/thread.c:84-140 | thread creation keeps the partition, whether or not a slot is free |
| `Ownership.CreateProcessConsistent` | system/process.c:18-49 | process creation keeps the partition, whether or not an index is free |
| `Ownership.BootConsistent` | system/start.c:33-35 | the state after boot satisfies the partition |
| `Health.SleepHealthy` | system/scheduler.c:321-328 | no sleeper has duration 0 afterwards although the duration is stored after the inner cycle |
| `Health.GetCharHealthy` | system/calls.c:57-70 | the call never fails its READY assertion for a thread other than the null thread, and no thread waits while a character is buffered |
| `Health.UartHealthy` | system/isr.c:204-211 | the UART interrupt keeps the invariants |
| `Health.BootHealthy` | system/start.c:33-35 | the state after boot satisfies every invariant |
| `Safety.StepHealthy` | system/isr.c:160-217 | one interrupt that does not halt keeps every invariant exactly when its cycle puts the old thread back under its own index |
| `Safety.HaltsExactly` | system/isr.c:160-217 | the kernel halts on an interrupt exactly when a due sleeper stands behind one that is not, a call or fault comes from a privileged mode, the null thread would have to wait, or a creating call passes its checks with more bytes than a stack holds and gets as far as the copy |
| `Safety.UserModeBits` | include/arch/armv7/registers.h:7 | user mode is that bits 4 to 0 of the status register are 1, 0, 0, 0, 0: 16 modulo 32, which is what the handlers test |
| `Safety.StepShape` | system/isr.c:160-217 | table sizes and queue ranges are kept by every interrupt, whatever the requeue index |
| `Copying.CopyFaultsExactly` | lib/std/mem.c:9-18 | for arguments that pass the checks, the upward copy meets an address that the kernel cannot read, by the page walk, exactly when the size is above that of a stack: this is when the data abort halts the system (system/isr.c:160-175) |
| `Counterexamples.LongCopyHalts` | system/thread.c:111-113 | boot, a tick, and the first thread calls `fork` or `create_thread` with the size 2^32 - 4: the state is healthy, the checks pass, and the call halts the kernel |
| `Safety.ExactlyOnePlace` | system/scheduler.c:155-359 | an allocated thread is running, ready, asleep or waiting for a character, and only one of these |
| `Safety.HeldBelongsToLiveProcess` | system/scheduler.c:155-359 | whatever a ring or the running pointer holds is a thread of a process in use, with a slot in use, and no ring holds a thread twice |
| `Safety.ProcessInUse` | system/process.c:28-45 | a process index is off the free queue exactly when the process has a thread |
| `Safety.LastThreadReturnsProcess` | system/scheduler.c:250-259 | killing returns the process index exactly when the last thread of the process goes, once |
| `Safety.CreationSucceeds` | system/thread.c:90-139 | once a slot is free, creation cannot fail: the leaks after the pop are unreachable, and the slot was not in use |
| `Safety.ProcessOneRequeues` | system/scheduler.c:219 | while only process 1 has threads, the index as written is the right one |
| `AsWritten.OnlyProcessOneKept` | system/calls.c:162-190 | every interrupt but a fork keeps all threads in process 1 |
| `AsWritten.RunHealthy` | system/scheduler.c:155-359 | every run keeps every invariant at every interrupt: any run with the table index, every run without forks with the line as written |
| `AsWritten.BootRunHealthy` | system/start.c:20-36 | the same from power-on |
| `AsWritten.ConsistentExactly` | system/scheduler.c:219 | as written, a run keeps the ownership invariants throughout exactly when every tick that finds a thread ready interrupts the null thread or one of process 1, forks or not |
| `Counterexamples.ThreadIsLost` | system/scheduler.c:219 | with two processes and the line as written: boot, tick, a fork, two ticks, and an allocated thread is neither running nor in any ring |
| `Context.StepRefines` | system/ivt.S:291-316 | every interrupt does to the threads' registers what a machine with one private register file per thread does, and the null thread's saved registers never change |
| `AsWritten.RegistersKept` | system/ivt.S:291-316 | through every such run a thread keeps its registers until its own code runs, a character is delivered to it or it is killed; the null thread keeps those of boot |
| `Context.SwitchView` | system/scheduler.c:91-114 | a switch saves the live registers of the old thread, loads those of the new one and changes no view |
| `Context.SaveLoad` | system/scheduler.c:99-112 | loading a control block and saving the frame are inverse on what the exception return restores |
| `Fairness.StepAdvances` | system/scheduler.c:182-260 | only the head leaves the ready ring, only at a dispatch, and then it runs; everybody else joins at the tail |
| `Fairness.ReadyOrder` | system/scheduler.c:182-260 | after k dispatches of any run the entries have moved up by k places |
| `Fairness.SelectedAtItsTurn` | system/scheduler.c:182-260 | an entry at position j is selected at exactly the (j+1)-th dispatch, so after at most as many dispatches as there are threads |
| `Waiting.WaitStarts` | system/scheduler.c:321-328 | `wait(d)` puts the caller to sleep for exactly d ticks |
| `Waiting.TickOfSleeper` | system/scheduler.c:61-89 | a tick takes one from a sleeper's time and releases it exactly when one was left |
| `Waiting.OnlyTicksCount` | system/scheduler.c:316-328 | no other interrupt touches a sleeper |
| `Waiting.WaitsExactly` | user/include/sys/calls.h:26-34 | on every run that does not halt, a thread that called `wait(d)` cannot run before the d-th later tick, and that tick makes it runnable |
| `Waiting.RunsWithinTicks` | system/scheduler.c:182-260 | a thread at position j of the ready ring runs within j + 1 ticks of any run that does not halt |
| `Waiting.WaitEnds` | user/include/sys/calls.h:26-34 | a thread that called `wait(d)` runs again within d ticks and one for each thread |
| `Getchar.StepLinear` | system/isr.c:204-211 | every interrupt keeps: accepted characters are delivered ones followed by the buffer, requests are served ones followed by the waiting ring, and not both are left over |
| `Getchar.RunLinear` | system/isr.c:160-217 | the same through every run |
| `Getchar.RequestsInOrder` | system/calls.c:57-70 | from power-on the i-th delivery goes to the i-th request and carries the i-th accepted character, as the thread finds it in r0 |
| `Getchar.NoAccidentalIrq` | system/scheduler.c:349-352 | a waiting thread is never taken off the ring without a character |
| `Memory.StepCoherent` | system/scheduler.c:113 | every interrupt returns with the first-level table mapping the running process and otherwise as at boot, through the temporary switches of creation |
| `Memory.CoherentEntry` | driver/mmu.c:129-140 | that entry is the one the builder makes for the running process |
| `Memory.ThereAndBackCoherent` | system/process.c:37-39 | switching to another table and back leaves the first-level table as it was |
| `Tables.StepTables` | driver/mmu.c:300-340 | every interrupt keeps: a table holds its data page, stack pages of its own process and nothing else, every slot in use is mapped, and identifiers in use are distinct until the counter wraps |
| `Tables.RunTables` | driver/mmu.c:300-340 | the same through every run |
| `Isolation.StackPage` | system/thread.c:28-68 | every address between the two stack pointers lies in the page that is mapped for the slot |
| `Isolation.StackWalk` | system/thread.c:28-68 | each address of the running thread's stack, and of the rest of its page, walks to the frame mapped for its slot, read-write and never executable |
| `Isolation.GuardPages` | driver/mmu.c:329-338 | the pages directly below and above that stack fault |
| `Isolation.UserMegabyte` | driver/mmu.c:300-340 | the walk of every address of the user megabyte is decided by the one table entry of its page; nothing there is executable and odd pages fault |
| `Isolation.BootEntryDecodes` | driver/mmu.c:229-280 | every first-level entry after boot reads as the literal map says: kernel code 0 and 1 read-only and executable by the kernel, 2, 3 and the devices writable by the kernel and never executable, 4 readable and executable by users, the rest unmapped |
| `Isolation.FixedWalk` | driver/mmu.c:229-280 | outside the user-data megabyte the walk of a coherent state follows that map: one to one, with its permissions |
| `Isolation.UserConfined` | driver/mmu.c:229-280 | outside that megabyte user code writes nothing and reads and executes exactly megabyte 4; the kernel reads exactly the mapped megabytes and writes exactly its data and the devices, none of it executable |
| `Isolation.StackFramesCollide` | driver/mmu.c:325-328 | two stack pages share a frame exactly when the slots are equal and the megabytes agree modulo 4096 |
| `Isolation.FramesDisjoint` | driver/mmu.c:300-340 | with megabytes below 4096, different pages of processes in use have different frames |
| `Isolation.BootSystemOk` | driver/mmu.c:129-140 | from power-on, coherence and table contents hold after every run |
| `Isolation.BootIsolation` | system/thread.c:98 | physical isolation after every run with fewer forks than megabytes above the base, through kills and reuse of slots and indices |
| `Isolation.ReachesSection` | driver/mmu.c:229-280 | a page of a process in use lies in a megabyte given to the kernel, to user code or to a device exactly when its megabyte modulo 4096 is one of these |
| `Isolation.BootSectionsClear` | driver/mmu.c:300-340 | after every run whose identifiers and indices reach no such megabyte, no page of a process in use lies in one |
| `Identifiers.ReachesIdentifier` | system/process.c:20-24 | with two process indices, every identifier from 2 to 2^32 - 1 is that of a process in use after some run from power-on |
| `Identifiers.ReachesFixedMegabyte` | system/thread.c:98 | so each megabyte that the boot-time table gives to the kernel, to user code or to a device comes to hold a user stack of a process in use after some run |
| `Lifetime.StepHistory` | driver/mmu.c:300-340 | a table maps exactly the stacks of the slots popped since its process index was last taken |
| `Lifetime.MappedPages` | driver/mmu.c:300-340 | an address of the user megabyte faults exactly when it is neither in the data page nor in the stack page of such a slot |
| `Lifetime.HistoryAfterBoot` | system/start.c:33-35 | that holds after every run from power-on |
| `KernelObject.Kernel.constructor` | system/scheduler.c:19-36 | the zeroed static tables over the static queues |
| `KernelObject.Kernel.InitNullThread` | system/scheduler.c:116-134 | the null thread and the null process, with the null stack mapped; `Outcomes.NullThreadIdles` gives the values |
| `KernelObject.Kernel.Initialize` | system/scheduler.c:136-153 | the state after the initialisation of table and scheduler |
| `KernelObject.Kernel.SwitchContext` | system/scheduler.c:91-114 | the object's state afterwards is that of the specification |
| `KernelObject.Kernel.SchedulerCycle` | system/scheduler.c:182-233 | with the decrement: fails exactly when the tick halts, else leaves its state; without: the state after the cycle |
| `KernelObject.Kernel.KillCurThread` | system/scheduler.c:235-260 | leaves the state of the specification of killing |
| `KernelObject.Kernel.PushWaitingThread` | system/scheduler.c:290-315 | fails, changing nothing, exactly when the null thread runs; else leaves the state after parking and cycling, and returns the parked thread |
| `KernelObject.Kernel.SchedulerOnSleep` | system/scheduler.c:321-328 | fails exactly when the null thread would sleep, else leaves the specified state |
| `KernelObject.Kernel.SchedulerOnGetchar` | system/scheduler.c:330-335 | fails exactly when the null thread would wait, else leaves the specified state |
| `KernelObject.Kernel.SchedulerOnCharReceived` | system/scheduler.c:337-359 | leaves the specified state |
| `KernelObject.Kernel.SchedulerRegisterThread` | system/scheduler.c:171-180 | leaves the specified state |
| `KernelObject.Kernel.SchedulerRegisterProcess` | system/scheduler.c:155-165 | takes the oldest free index and fills its slot of the table; without one it returns None and changes nothing |
| `KernelObject.Kernel.ThreadCreate` | system/thread.c:84-140 | fails exactly when a slot is free and the copy aborts; else leaves the specified state |
| `KernelObject.Kernel.ProcessCreate` | system/process.c:18-49 | fails exactly when an index is free and the copy aborts; else leaves the specified state |
| `Calls.ArgumentsExactly` | system/calls.c:87-111 | a call passes exactly when the function is aligned, the pointer is aligned and in the caller's stack, and the size is a multiple of four that reaches down at most to the bottom of that stack or wraps back into it |
| `Calls.NewStackPointer` | system/thread.c:117-129 | a thread created with arguments starts inside its stack exactly when their size is at most that of a stack |
| `Outcomes.NewThreadView` | system/thread.c:92-135 | a new thread starts its function with `exit` to return to, status 0x10, its stack pointer at base + 8192 * slot + 9216 less the arguments, r0 at the arguments or 0, and all other registers 0 |
| `Outcomes.NewControlBlock` | system/thread.c:70-140 | creation in a live process with a free slot fills that slot's block with these registers, the process, the slot and the next thread identifier, ready and not waiting, and queues it last |
| `Outcomes.RunningCode` | system/ivt.S:291-316 | code that runs between two interrupts may leave any registers and flags, but it stays in the mode that the return gave it |
| `Outcomes.StepCounters` | system/process.c:20-24 | each accepted fork takes the next process identifier, and each attempt at a thread takes the next thread identifier, modulo 2^32; no other interrupt takes one |
| `KernelObject.Kernel.ExecGetChar` | system/calls.c:57-70 | leaves the specified state; fails when an assertion fails |
| `KernelObject.Kernel.ExecSyscall` | system/calls.c:162-190 | leaves the state of the specified call; fails when an assertion fails or the copy aborts |
| `KernelObject.Kernel.UartInterrupted` | system/isr.c:204-211 | leaves the specified state |
| `KernelObject.Kernel.Handle` | system/isr.c:160-217 | every handler does what one step of the specification does, and halts exactly when it does |
| `KernelObject.Kernel.Start` | system/start.c:33-35 | the state after boot |
| `AsWritten.BootViews` | system/start.c:33-35 | after boot there is one thread, the one in slot 1 of process 1, with the main function and no arguments |
| `Outcomes.MainThreadRuns` | system/start.c:35 | the first tick then runs it: the frame returns to the main function in user mode on the stack of slot 1 |
| `Outcomes.NullThreadIdles` | system/scheduler.c:116-134 | the null thread after boot: the idle loop, in user mode, on the stack of slot 0 |
| `Outcomes.GoesIdle` | system/scheduler.c:235-315 | an interrupt leaves the processor to the null thread only if nobody was ready, and then with the null thread's own registers |
| `AsWritten.ModesAfterBoot` | system/isr.c:148-152 | after every run from power-on the saved status of each thread, and the live one, is in user mode |
| `PowerOn.RunKernel` | system/start.c:20-36 | the object driven through any list of interrupts ends in the state of the specified run, or halts exactly when it does; so every theorem above is about the object |
| `Radix.KCalcDigits` | lib/std/util.c:5-16 | the number of digits of the numeral |
| `Radix.KUtoStr` | lib/std/util.c:18-53 | writes the numeral and a terminator at the start of the buffer and nothing else, and returns that start; a base outside 2..36 changes nothing |
| `Radix.KItoStr` | lib/std/util.c:55-70 | the same with a minus sign for a negative number; with a bad base only the sign is written |
| `Radix.DigitsRoundTrip` | lib/std/util.c:37-51 | the numeral parses back to the number |
| `Radix.DigitsWellFormed` | lib/std/util.c:37-51 | digits of the base only, and no leading zero but in "0" |
| `Radix.DigitsLength` | lib/std/util.c:5-16 | base^(len-1) <= n < base^len for n > 0 |
| `Radix.NumeralUnique` | lib/std/util.c:37-51 | every numeral without a leading zero is the one written for its value |
| `Radix.SignedRoundTrip` | lib/std/util.c:55-70 | the signed text parses back to the number, and starts with a minus sign exactly for a negative one |
| `Radix.WordFits` | lib/std/io.c:108 | at most ten decimal and eight hexadecimal digits, so the 21-byte buffer is enough |
| `Formats.CheckFormatStr` | lib/std/io.c:31-66 | accepts exactly the strings that are token lists, and reads nothing past the terminator |
| `Formats.CheckConversion` | lib/std/io.c:39-63 | the inner loop accepts exactly an optional digit run before a wide conversion, or a bare `c` or percent sign |
| `Formats.AcceptedLetters` | lib/std/io.c:41-62 | a conversion is accepted exactly for the letters x, d, i, u, p and s after any digits, or c and the percent sign with none |
| `Formats.AcceptedExactly` | lib/std/io.c:31-66 | a string parses to a token list exactly when the list is well formed and the string is its text: the grammar is unambiguous |
| `Formats.WidthFromRight` | lib/std/io.c:83-92 | the right-to-left sum with a wrapping power is the left-to-right decimal value modulo 2^32, for runs of any length |
| `Formats.CalcFieldWidth` | lib/std/io.c:68-95 | the width, the padding character and the length of the whole digit run, zero flag included |
| `Printing.Console.KPrint` | lib/std/io.c:11-16 | prints the text up to the terminator |
| `Printing.Console.PrintWithPadding` | lib/std/io.c:18-29 | prints max(len, width) - len padding characters, then the text |
| `Printing.Console.PrintUnsigned` | lib/std/io.c:129-132 | prints the numeral in its field |
| `Printing.Console.PrintSigned` | lib/std/io.c:133-144 | prints the sign, then the digits in what is left of the field |
| `Printing.Console.PrintArg` | lib/std/io.c:120-157 | prints what the conversion means, whatever padding character is left over when it has no digits |
| `Printing.Console.KPrintf` | lib/std/io.c:97-161 | an accepted format is read exactly to its terminator and prints the rendering of its token list; a refused one prints nothing |
| `Printing.StalePadding` | lib/std/io.c:106-118 | without a digit run the width is 0 and the left-over padding character has no effect |
| `Printing.FieldLength` | lib/std/io.c:129-153 | a numeric field has length max(len, width), two more for a pointer; a signed one has it exactly when the width without the sign is below 2^31 |
| `Printing.OutputPlaces` | lib/std/io.c:18-29 | the output of a wide conversion is the prefix or sign, then padding, then the text; the padding is '0' exactly when the digits of the format start with '0' |
| `Printing.OutputReadsBack` | lib/std/io.c:129-153 | the numeral in it parses back to the magnitude of the argument in its base |
| `Printing.NarrowOutput` | lib/std/io.c:122-128 | an ordinary character stands for itself, `%%` for a percent sign, and `%c` prints the low byte |
| `Printing.PlainOutput` | lib/std/io.c:97-161 | a format without percent signs is printed as it is |
| `Printing.HexFormat` | lib/std/io.c:97-161 | `0x%08x` of 42 prints 0x0000002a |

## Left out

- Interrupts during boot: `system/entry.S:59` enables them before `start_kernel`, and the model takes boot as one step after which the first interrupt arrives.
- Device registers, the interrupt controller, the timer and the sending half of the UART: interrupts and received characters are inputs, and `put_char` changes nothing.
- The assembly of exception entry and exit, caches, barriers and the TLB: used only to know which registers the return restores.
- The bytes of user memory: what the copies of the user data and of the arguments of a new thread write. Whether the latter can be read is modelled, and so are the stack pointer and r0 that result.
- The storage of a process's slot queue: `init_queue` stores the address of a local buffer that registration copies (`system/process.c:23-26`, `system/scheduler.c:163`); the model assumes that each registered process owns its queue, and holds it by its contents.
- The second-level tables inside the kernel object are held by value, so aliasing between them is not captured; `AddressSpace.InitProcessMemory` and `AddressSpace.InitThreadMemory` prove the set-up on arrays.
- Large pages, supersections, and the memory attributes TEX, C, B and nG of a descriptor; no entry of the kernel uses them.
- The second-level table that the first-level table points to before the first process exists, and the assertion on `_ustacks_start`, a linker symbol.
- Logging, register dumps and `trigger_exception`: diagnostics. The thread state `DONE` and the queue `process_indices_q` are never used by the code.
- `kstrlen`, `memcpy`, `memset` and the copies of the library in user space: single loops, or repetitions of what is modelled.
- Radix.KItoStr: leaves out -2^31, whose negation is undefined in C; `Printing.ArgFits` leaves it out for `%d` and `%i` accordingly.
- Bits.SetBitTo: requires a field shorter than 31 bits, because the macro shifts a signed 1 by the length; the code uses lengths 1 and 2.
- Printing.Console.KPrintf: requires that the caller passes an argument of the right kind for each conversion of an accepted format; C leaves other calls undefined.
- Isolation.BootIsolation: bounds the number of forks, because frames of two processes coincide when their identifiers agree modulo 4096 (`Isolation.StackFramesCollide`).
- Radix.KCalcDigits: bases 2 to 36 only, all that its caller passes; with base 1 the loop does not end and with base 0 it divides by zero.
