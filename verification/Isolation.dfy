/** What user code can reach: the page walk against the tables, and the disjointness of physical frames. */
module Isolation {
  import opened Words
  import opened Descriptors
  import opened AddressSpace
  import opened KernelState
  import opened Ownership
  import opened Waking
  import opened Health
  import opened Safety
  import opened AsWritten
  import opened Memory
  import opened Tables

  /** The tables by address, as the walk finds them. */
  ghost function TableMap(s: KState): (m: map<word, L2Table>)
    requires Shape(s)
    ensures forall p :: 0 <= p < |s.procs| ==> s.cfg.tables[p] in m && m[s.cfg.tables[p]] == s.procs[p].l2
  {
    map p | 0 <= p < |s.procs| :: s.cfg.tables[p] := s.procs[p].l2
  }

  /** The walk of an address by the running process. */
  ghost function WalkOf(s: KState, va: word): Walk
    requires Shape(s)
  {
    Translate(s.l1, TableMap(s), va)
  }

  function PageOf(va: word): nat
  {
    va % 0x10_0000 / 4096
  }

  /** What the walk of a page of the user megabyte gives. */
  function UserWalk(baseMb: nat, p: nat, pid: nat, page: nat, entry: word): Walk
    requires page < N_L2_ENTRIES
  {
    if entry == 0 then TranslationFault
    else if page == 0 then Mapped((baseMb + p) % 4096 * 256, 3, true)
    else Mapped((baseMb + pid) % 4096 * 256 + page / 2, 3, true)
  }

  lemma EntryWalk(baseMb: nat, p: nat, pid: nat, page: nat, entry: word)
    requires page < N_L2_ENTRIES && EntryOk(baseMb, p, pid, page, entry)
    ensures SmallPageWalk(entry) == UserWalk(baseMb, p, pid, page, entry)
  {
    if entry != 0 {
      if page == 0 {
        UserPageWalk(baseMb + p, 0);
      } else {
        UserPageWalk(baseMb + pid, page / 2);
      }
    }
  }

  /** In a coherent state, the user megabyte is walked through the table of the running process. */
  lemma WalkThroughProcess(s: KState, va: word)
    requires Shape(s) && Coherent(s) && va / 0x10_0000 == s.cfg.baseMb
    ensures PageOf(va) < N_L2_ENTRIES
    ensures WalkOf(s, va) == SmallPageWalk(s.procs[s.threads[s.running].process].l2[PageOf(va)])
  {
    PointerEntry((TableOf(s, s.running)));
    PointerRoundTrip((TableOf(s, s.running)), false);
  }

  ghost predicate SystemOk(s: KState)
  {
    Healthy(s) && Coherent(s) && TablesOk(s)
  }

  /** The table of the running process, which is in use or the null process. */
  lemma RunningTable(s: KState)
    requires SystemOk(s)
    ensures var p := s.threads[s.running].process;
            && TableOk(s.cfg.baseMb, p, s.procs[p].pid, s.procs[p].l2)
            && (s.running != 0 ==> p >= 1 && StacksMapped(s.cfg, s.procs[p]) && s.procs[p].l2[0] != 0)
  {
    var p := s.threads[s.running].process;
    if s.running != 0 {
      HeldBelongsToLiveProcess(s, s.running);
      assert PcbOk(s, p);
      assert EntryOk(s.cfg.baseMb, p, s.procs[p].pid, 0, s.procs[p].l2[0]);
    }
  }

  /**
   * Every address of the user megabyte: the data page and the mapped stack pages of the running process
   * are read-write and not executable, everything else faults.
   */
  lemma UserMegabyte(s: KState, va: word)
    requires SystemOk(s) && va / 0x10_0000 == s.cfg.baseMb
    ensures PageOf(va) < N_L2_ENTRIES
    ensures var p := s.threads[s.running].process;
            WalkOf(s, va) == UserWalk(s.cfg.baseMb, p, s.procs[p].pid, PageOf(va), s.procs[p].l2[PageOf(va)])
    ensures PageOf(va) % 2 == 1 ==> WalkOf(s, va) == TranslationFault
    ensures !UserExecutes(WalkOf(s, va))
  {
    var p := s.threads[s.running].process;
    WalkThroughProcess(s, va);
    RunningTable(s);
    var page := PageOf(va);
    assert EntryOk(s.cfg.baseMb, p, s.procs[p].pid, page, s.procs[p].l2[page]);
    EntryWalk(s.cfg.baseMb, p, s.procs[p].pid, page, s.procs[p].l2[page]);
  }

  // ---- Stacks ----

  /** The addresses of the stack of a slot. */
  predicate InStack(c: Config, slot: nat, va: word)
  {
    MaxStackPointer(c.baseMb, c.nt, slot) <= va < StackPointer(c.baseMb, c.nt, slot)
  }

  /** The page of the stack of a slot, of which the stack is the lowest part. */
  predicate InStackPage(c: Config, slot: nat, va: word)
  {
    MaxStackPointer(c.baseMb, c.nt, slot) <= va < MaxStackPointer(c.baseMb, c.nt, slot) + 4096
  }

  /** The stack addresses that system/thread.c computes lie in the page that driver/mmu.c maps for the slot. */
  lemma StackPage(c: Config, slot: nat, va: word)
    requires ValidConfig(c) && slot <= c.nt
    ensures InStack(c, slot, va) ==> InStackPage(c, slot, va)
    ensures InStackPage(c, slot, va) ==> va / 0x10_0000 == c.baseMb && PageOf(va) == StackEntry(slot)
  {
    if InStackPage(c, slot, va) {
      var l := va - c.baseMb * 0x10_0000;
      Remainder(va, 0x10_0000, c.baseMb, l);
      Remainder(l, 4096, StackEntry(slot), l - StackEntry(slot) * 4096);
    }
  }

  /** The stack of the running thread, be it the null thread, is mapped. */
  lemma RunningThread(s: KState)
    requires SystemOk(s)
    ensures var t := s.threads[s.running];
            && t.process < |s.procs| && t.index <= s.cfg.nt
            && s.procs[t.process].l2[StackEntry(t.index)]
               == UserPage(s.cfg.baseMb + s.procs[t.process].pid, t.index + 1)
  {
    if s.running != 0 {
      HeldIsAllocated(s, s.running);
      assert RecordOk(s, s.running);
      NumberingBack(s.cfg, s.running);
      RunningTable(s);
      HeldBelongsToLiveProcess(s, s.running);
    }
  }

  /**
   * The page walk agrees with the stack pointers: each address of the running thread's stack, and of the
   * rest of its page, reaches the one frame that was mapped for its slot, read-write and never executable.
   */
  lemma StackWalk(s: KState, va: word)
    requires SystemOk(s)
    requires var k := s.threads[s.running].index; InStack(s.cfg, k, va) || InStackPage(s.cfg, k, va)
    ensures var t := s.threads[s.running];
            WalkOf(s, va) == Mapped((s.cfg.baseMb + s.procs[t.process].pid) % 4096 * 256 + t.index + 1, 3, true)
    ensures UserReads(WalkOf(s, va)) && UserWrites(WalkOf(s, va)) && !UserExecutes(WalkOf(s, va))
  {
    RunningThread(s);
    StackPage(s.cfg, s.threads[s.running].index, va);
    WalkThroughProcess(s, va);
    var t := s.threads[s.running];
    UserPageWalk(s.cfg.baseMb + s.procs[t.process].pid, t.index + 1);
  }

  /** The pages directly below and above the stack of the running thread fault. */
  lemma GuardPages(s: KState, va: word, other: word)
    requires SystemOk(s) && InStack(s.cfg, s.threads[s.running].index, va)
    requires other / 0x10_0000 == s.cfg.baseMb
    requires PageOf(other) == PageOf(va) - 1 || PageOf(other) == PageOf(va) + 1
    ensures WalkOf(s, other) == TranslationFault
  {
    assert PageOf(other) % 2 == 1 by {
      EvenStackPage(s, va);
      Neighbour(PageOf(va), PageOf(other));
    }
    OddPageFaults(s, other);
  }

  lemma OddPageFaults(s: KState, va: word)
    requires SystemOk(s) && va / 0x10_0000 == s.cfg.baseMb && PageOf(va) % 2 == 1
    ensures WalkOf(s, va) == TranslationFault
  {
    UserMegabyte(s, va);
  }

  lemma Neighbour(p: nat, q: int)
    requires p % 2 == 0 && (q == p - 1 || q == p + 1)
    ensures q % 2 == 1
  {
  }

  lemma EvenStackPage(s: KState, va: word)
    requires SystemOk(s) && InStack(s.cfg, s.threads[s.running].index, va)
    ensures PageOf(va) % 2 == 0
  {
    RunningThread(s);
    StackPage(s.cfg, s.threads[s.running].index, va);
  }

  // ---- Outside the user megabyte ----

  /**
   * The hardware reading of the boot-time table outside the user megabyte: read-only kernel code, read-write
   * kernel data and devices that are never executable, and user code that only the user may execute.
   */
  function BootMap(mb: nat): L1Descriptor
  {
    if mb == 0 || mb == 1 then Section(mb, 5, false, false)
    else if mb == 2 || mb == 3 || mb == 0x3F0 || mb == 0x3F2 || mb == 0x400 then Section(mb, 1, true, true)
    else if mb == 4 then Section(4, 7, false, true)
    else L1Fault
  }

  lemma BootEntryDecodes(baseMb: nat, initTable: word, mb: nat)
    requires mb < N_L1_ENTRIES && mb != baseMb
    ensures DecodeL1(BootEntry(mb, baseMb, initTable)) == BootMap(mb)
  {
    if mb == 0x3F0 || mb == 0x3F2 || mb == 0x400 || mb == 2 || mb == 3 {
      SectionRoundTrip(mb, PERM_SYS_ONLY_FULL, false, false);
    } else if mb == 0 || mb == 1 {
      SectionRoundTrip(mb, PERM_SYS_ONLY_READ_ONLY, true, true);
    } else if mb == 4 {
      SectionRoundTrip(mb, PERM_SYS_USER_READ_ONLY, true, false);
    }
  }

  /** Whoever runs, every address outside the user megabyte is walked as the boot-time table says. */
  lemma FixedWalk(s: KState, va: word)
    requires Shape(s) && Coherent(s) && va / 0x10_0000 != s.cfg.baseMb
    ensures WalkOf(s, va) == match BootMap(va / 0x10_0000)
                             case Section(base, ap, xn, _) => Mapped(base * 256 + PageOf(va), ap, xn)
                             case _ => TranslationFault
  {
    var mb := va / 0x10_0000;
    BootEntryDecodes(s.cfg.baseMb, s.cfg.initTable, mb);
    assert s.l1[mb] == BootEntry(mb, s.cfg.baseMb, s.cfg.initTable);
  }

  /**
   * Outside its data and stack megabyte user code can write nothing, and it can read and execute exactly
   * the megabyte of the user code. The kernel can write exactly its data and the devices, and executes nothing
   * that it can write.
   */
  lemma UserConfined(s: KState, va: word)
    requires Shape(s) && Coherent(s) && va / 0x10_0000 != s.cfg.baseMb
    ensures !UserWrites(WalkOf(s, va))
    ensures UserReads(WalkOf(s, va)) <==> va / 0x10_0000 == 4
    ensures UserExecutes(WalkOf(s, va)) <==> va / 0x10_0000 == 4
    ensures SystemReads(WalkOf(s, va)) <==> FixedMegabyte(va / 0x10_0000)
    ensures SystemWrites(WalkOf(s, va)) <==> va / 0x10_0000 in {2, 3, 0x3F0, 0x3F2, 0x400}
    ensures SystemWrites(WalkOf(s, va)) ==> WalkOf(s, va).xn
  {
    FixedWalk(s, va);
  }

  // ---- Frames ----

  /** Two stack pages of processes with identifiers `a` and `b` share a frame exactly in these cases. */
  lemma StackFramesCollide(baseMb: nat, a: nat, b: nat, j: nat, k: nat)
    requires j < 127 && k < 127
    ensures SmallPageWalk(UserPage(baseMb + a, j + 1)).frame == SmallPageWalk(UserPage(baseMb + b, k + 1)).frame
       <==> j == k && (baseMb + a) % 4096 == (baseMb + b) % 4096
  {
    UserPageWalk(baseMb + a, j + 1);
    UserPageWalk(baseMb + b, k + 1);
  }

  /** The frame of page `i` of the table of process `p`. */
  function FrameAt(s: KState, p: nat, i: nat): Walk
    requires Shape(s) && p < |s.procs| && i < N_L2_ENTRIES
  {
    SmallPageWalk(s.procs[p].l2[i])
  }

  /** The megabyte, counted from the base, of page `i` of process `p`. */
  function OwnMegabyte(s: KState, p: nat, i: nat): nat
    requires p < |s.procs|
  {
    if i == 0 then p else s.procs[p].pid
  }

  lemma FrameValue(s: KState, p: nat, i: nat)
    requires SystemOk(s) && p < |s.procs| && (p == 0 || p !in s.freeProcs) && i < N_L2_ENTRIES
    ensures var w := FrameAt(s, p, i);
            w == TranslationFault || w == Mapped((s.cfg.baseMb + OwnMegabyte(s, p, i)) % 4096 * 256 + i / 2, 3, true)
    ensures i == 0 && p == 0 ==> FrameAt(s, p, i) == TranslationFault
  {
    if p != 0 {
      assert PcbOk(s, p);
    }
    var e := s.procs[p].l2[i];
    assert EntryOk(s.cfg.baseMb, p, s.procs[p].pid, i, e);
    EntryWalk(s.cfg.baseMb, p, s.procs[p].pid, i, e);
  }

  lemma DistinctFrames(a: nat, i: nat, b: nat, j: nat)
    requires a < 4096 && b < 4096 && i < 256 && j < 256 && i % 2 == 0 && j % 2 == 0 && (a != b || i != j)
    ensures a % 4096 * 256 + i / 2 != b % 4096 * 256 + j / 2
  {
  }

  /** While identifiers fit above the base megabyte, different pages of processes in use have different frames. */
  lemma FramesDisjoint(s: KState, p: nat, i: nat, q: nat, j: nat)
    requires SystemOk(s) && PidsOk(s) && s.cfg.baseMb + s.pidCounter < 4096 && s.cfg.baseMb + s.cfg.np < 4096
    requires p < |s.procs| && (p == 0 || p !in s.freeProcs) && i < N_L2_ENTRIES
    requires q < |s.procs| && (q == 0 || q !in s.freeProcs) && j < N_L2_ENTRIES
    requires (p, i) != (q, j)
    requires FrameAt(s, p, i).Mapped? && FrameAt(s, q, j).Mapped?
    ensures FrameAt(s, p, i).frame != FrameAt(s, q, j).frame
  {
    FrameValue(s, p, i);
    FrameValue(s, q, j);
    PageHalves(s, p, i);
    PageHalves(s, q, j);
    DistinctFrames(s.cfg.baseMb + OwnMegabyte(s, p, i), i, s.cfg.baseMb + OwnMegabyte(s, q, j), j);
  }

  /** A mapped page is page 0 or an even one, so halving the page number is one-to-one. */
  lemma PageHalves(s: KState, p: nat, i: nat)
    requires SystemOk(s) && p < |s.procs| && (p == 0 || p !in s.freeProcs) && i < N_L2_ENTRIES
    requires FrameAt(s, p, i).Mapped?
    ensures i % 2 == 0
  {
    if p != 0 {
      assert PcbOk(s, p);
    }
    assert EntryOk(s.cfg.baseMb, p, s.procs[p].pid, i, s.procs[p].l2[i]);
  }

  /** The frame lies in a megabyte that the boot-time table gives to the kernel, to user code or to a device. */
  predicate InFixedSection(c: Config, frame: nat)
    requires ValidConfig(c) && frame / 256 < N_L1_ENTRIES
  {
    DecodeL1(BootL1(c.baseMb, c.initTable)[frame / 256]).Section?
  }

  lemma SectionAt(c: Config, mb: nat)
    requires ValidConfig(c) && mb < N_L1_ENTRIES
    ensures DecodeL1(BootL1(c.baseMb, c.initTable)[mb]).Section? <==> FixedMegabyte(mb)
  {
    if mb == c.baseMb {
      PointerRoundTrip(c.initTable, false);
    } else {
      BootEntryDecodes(c.baseMb, c.initTable, mb);
    }
  }

  /** The `m`-th megabyte from the base, modulo the size of physical memory, is a fixed one. */
  predicate HitsFixed(c: Config, m: nat)
  {
    FixedMegabyte((c.baseMb + m) % 4096)
  }

  /** A page of a process in use reaches such a section exactly when its megabyte, modulo 4096, is a fixed one. */
  lemma ReachesSection(s: KState, p: nat, i: nat)
    requires SystemOk(s) && p < |s.procs| && (p == 0 || p !in s.freeProcs) && i < N_L2_ENTRIES
    requires FrameAt(s, p, i).Mapped?
    ensures FrameAt(s, p, i).frame / 256 < N_L1_ENTRIES
    ensures InFixedSection(s.cfg, FrameAt(s, p, i).frame) <==> HitsFixed(s.cfg, OwnMegabyte(s, p, i))
  {
    FrameValue(s, p, i);
    var m := (s.cfg.baseMb + OwnMegabyte(s, p, i)) % 4096;
    Remainder(m * 256 + i / 2, 256, m, i / 2);
    SectionAt(s.cfg, m);
  }

  // ---- Runs ----

  lemma StepSystemOk(s: KState, e: Event, t: KState)
    requires SystemOk(s) && Step(s, e) == Running(t) && Shape(Awake(s)) && Requeues(s, e)
    ensures SystemOk(t)
  {
    StepHealthy(s, e);
    StepCoherent(s, e, t);
    StepTables(s, e, t);
  }

  lemma {:induction false} RunSystemOk(s: KState, es: seq<Event>, r: KState)
    requires SystemOk(s) && IndexSafe(s, es) && Run(s, es) == Running(r)
    ensures SystemOk(r) && r.cfg == s.cfg
    decreases |es|
  {
    if es != [] {
      var e := es[0];
      StepShape(s, e);
      var t := Step(s, e).s;
      SafeStep(s, es);
      StepSystemOk(s, e, t);
      RunSystemOk(t, es[1..], r);
    }
  }

  /** From power-on, the L1 entry is coherent and the tables hold what they should after every interrupt. */
  lemma BootSystemOk(c: Config, f: Frame, es: seq<Event>, r: KState)
    requires BootRun(c, f, es, r)
    ensures SystemOk(r) && r.cfg == c
    ensures r.l1[c.baseMb] == BuildL1Pointer(c.tables[r.threads[r.running].process], false)
  {
    BootSafe(c, f, es);
    BootCoherent(c, f);
    BootTables(c, f);
    RunSystemOk(Boot(c, f), es, r);
    CoherentEntry(r);
  }

  /**
   * Isolation: after any run with fewer forks than there are megabytes above the base, no two pages of
   * the processes in use, and no two pages of one process, share a physical frame.
   */
  lemma BootIsolation(c: Config, f: Frame, es: seq<Event>, r: KState, p: nat, i: nat, q: nat, j: nat)
    requires BootRun(c, f, es, r)
    requires c.baseMb + 1 + PidsOf(es) < 4096 && c.baseMb + c.np < 4096 && Shape(r)
    requires p < |r.procs| && (p == 0 || p !in r.freeProcs) && i < N_L2_ENTRIES
    requires q < |r.procs| && (q == 0 || q !in r.freeProcs) && j < N_L2_ENTRIES
    requires (p, i) != (q, j) && FrameAt(r, p, i).Mapped? && FrameAt(r, q, j).Mapped?
    ensures FrameAt(r, p, i).frame != FrameAt(r, q, j).frame
  {
    BootSystemOk(c, f, es, r);
    BootSafe(c, f, es);
    BootTables(c, f);
    RunTables(Boot(c, f), es, r);
    FramesDisjoint(r, p, i, q, j);
  }

  /**
   * While no identifier or index that was handed out reaches a fixed megabyte, no page of a process in use
   * lies in the kernel, in user code or in a device.
   */
  lemma BootSectionsClear(c: Config, f: Frame, es: seq<Event>, r: KState, p: nat, i: nat)
    requires BootRun(c, f, es, r)
    requires forall m :: 0 <= m <= c.np || 0 <= m <= 1 + PidsOf(es) ==> !HitsFixed(c, m)
    requires 1 + PidsOf(es) < WORD_LIMIT && Shape(r)
    requires p < |r.procs| && (p == 0 || p !in r.freeProcs) && i < N_L2_ENTRIES && FrameAt(r, p, i).Mapped?
    ensures FrameAt(r, p, i).frame / 256 < N_L1_ENTRIES && !InFixedSection(c, FrameAt(r, p, i).frame)
  {
    BootSystemOk(c, f, es, r);
    assert PidsOk(r) && r.pidCounter <= 1 + PidsOf(es) by {
      BootSafe(c, f, es);
      BootTables(c, f);
      RunTables(Boot(c, f), es, r);
    }
    ReachesSection(r, p, i);
  }
}
