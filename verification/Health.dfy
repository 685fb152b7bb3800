/** What else holds between two interrupts: thread states, waiting times, processor modes, the UART buffer. */
module Health {
  import opened Words
  import opened Uart
  import opened Counting
  import opened KernelState
  import opened Ownership
  import opened Sleeping
  import opened Waking

  /** A thread is WAITING exactly when it waits for a character, and a sleeper has time left. */
  ghost predicate WaitOk(s: KState, g: nat)
    requires Shape(s)
  {
    IsAllocated(s, g) ==>
      && s.threads[g].state == (if g in s.chars then WAITING else READY)
      && (g in s.sleep ==> s.threads[g].waiting >= 1)
  }

  /** That, for every thread but `x`, whose fields the handler is about to set (0 stands for none). */
  ghost predicate Waits(s: KState, x: nat)
    requires Shape(s)
  {
    && (forall g: nat :: g != x ==> WaitOk(s, g))
    && s.threads[0].state == READY
  }

  ghost predicate ModeOk(s: KState, g: nat)
    requires Shape(s)
  {
    IsAllocated(s, g) ==> s.threads[g].cpsr % 32 == 16
  }

  /** Every saved status register, and the live one unless the boot code is idling, is in user mode. */
  ghost predicate Modes(s: KState)
    requires Shape(s)
  {
    && (forall g: nat :: ModeOk(s, g))
    && s.threads[0].cpsr % 32 == 16
    && (s.running != 0 ==> UserMode(s.frame.spsr))
  }

  /** No thread waits for a character while one is buffered. */
  predicate Input(s: KState)
  {
    |s.uart| <= s.cfg.uartSize && (s.chars == [] || s.uart == [])
  }

  ghost predicate Healthy(s: KState)
  {
    Consistent(s) && Waits(s, 0) && Modes(s) && Input(s)
  }

  // ---- Frames ----

  /** Same allocation, same waiting rings: the waiting facts carry over with the control blocks' fields. */
  lemma SameWaits(s: KState, r: KState, x: nat)
    requires Shape(s) && Shape(r) && Waits(s, x)
    requires r.cfg == s.cfg && r.freeProcs == s.freeProcs && r.procs == s.procs
    requires r.sleep == s.sleep && r.chars == s.chars
    requires forall t :: 0 <= t < |s.threads| ==>
               r.threads[t].state == s.threads[t].state && r.threads[t].waiting == s.threads[t].waiting
    ensures Waits(r, x)
  {
    forall g: nat | g != x
      ensures WaitOk(r, g)
    {
      assert WaitOk(s, g);
    }
  }

  lemma SwitchWaits(s: KState, from: Option<nat>, to: nat, x: nat)
    requires Shape(s) && Waits(s, x) && to < |s.threads| && (from.Some? ==> from.value < |s.threads|)
    ensures Shape(SwitchContext(s, from, to)) && Waits(SwitchContext(s, from, to), x)
  {
    SwitchContextShape(s, from, to);
    SameWaits(s, SwitchContext(s, from, to), x);
  }

  /** A switch to an allocated thread, or to the null thread, leaves user mode everywhere. */
  lemma SwitchModes(s: KState, from: Option<nat>, to: nat)
    requires Shape(s) && to < |s.threads| && (from.Some? ==> from.value < |s.threads|)
    requires (forall g: nat :: ModeOk(s, g)) && UserMode(s.threads[0].cpsr)
    requires from.Some? && from.value != 0 ==> UserMode(s.frame.spsr)
    requires to == 0 || IsAllocated(s, to)
    ensures Shape(SwitchContext(s, from, to)) && Modes(SwitchContext(s, from, to))
    ensures UserMode(SwitchContext(s, from, to).frame.spsr)
  {
    var r := SwitchContext(s, from, to);
    SwitchContextShape(s, from, to);
    assert ModeOk(s, to);
    forall g: nat
      ensures ModeOk(r, g)
    {
      assert ModeOk(s, g);
    }
  }

  lemma SameModes(s: KState, r: KState)
    requires Shape(s) && Shape(r) && Modes(s)
    requires r.cfg == s.cfg && r.freeProcs == s.freeProcs && r.procs == s.procs
    requires r.running != 0 ==> UserMode(r.frame.spsr)
    requires forall t :: 0 <= t < |s.threads| ==> r.threads[t].cpsr == s.threads[t].cpsr
    ensures Modes(r)
  {
    forall g: nat
      ensures ModeOk(r, g)
    {
      assert ModeOk(s, g);
    }
  }

  // ---- The cycle ----

  lemma CycleWaits(s: KState, x: nat)
    requires Consistent(s) && RequeueOk(s) && Waits(s, x)
    ensures Shape(Cycle(s)) && Waits(Cycle(s), x)
  {
    if s.ready != [] {
      CycleRotates(s);
      SameWaits(s, Rotated(s), x);
      SwitchWaits(Rotated(s), Outgoing(s.running), s.ready[0], x);
    }
  }

  lemma CycleModes(s: KState)
    requires Consistent(s) && RequeueOk(s) && Modes(s)
    ensures Shape(Cycle(s)) && Modes(Cycle(s))
  {
    if s.ready != [] {
      CycleRotates(s);
      var r := Rotated(s);
      forall g: nat
        ensures ModeOk(r, g)
      {
        assert ModeOk(s, g);
      }
      HeldIsAllocated(s, s.ready[0]);
      SwitchModes(r, Outgoing(s.running), s.ready[0]);
    }
  }

  lemma CycleRings(s: KState)
    requires Consistent(s) && RequeueOk(s)
    ensures Cycle(s).sleep == s.sleep && Cycle(s).chars == s.chars && Cycle(s).uart == s.uart && Cycle(s).cfg == s.cfg
    ensures Cycle(s).procs == s.procs && Cycle(s).freeProcs == s.freeProcs
    ensures s.running == 0 ==> Cycle(s).threads == s.threads
  {
    if s.ready != [] {
      CycleRotates(s);
    }
  }

  lemma CycleHealthy(s: KState)
    requires Healthy(s) && RequeueOk(s)
    ensures Healthy(Cycle(s))
  {
    CycleConsistent(s);
    CycleWaits(s, 0);
    CycleModes(s);
    CycleRings(s);
  }

  // ---- The tick ----

  /** A sleeper that stays has at least one more tick to wait. */
  lemma AwakeWaits(s: KState)
    requires Consistent(s) && Waits(s, 0) && DueFirst(SleepDurations(s))
    ensures Shape(Awake(s)) && Waits(Awake(s), 0)
  {
    AwakeShape(s);
    RingNoDup(s);
    RingIndices(s.sleep, NThreads(s.cfg), |s.threads|);
    var a, ds := Awake(s), SleepDurations(s);
    var k := Due(ds);
    forall g: nat | g != 0
      ensures WaitOk(a, g)
    {
      assert WaitOk(s, g);
      if IsAllocated(s, g) {
        TickedAt(s.threads, s.sleep, g);
        if g in s.sleep[k..] {
          StaysAsleep(s, g);
        }
      }
    }
    TickedAt(s.threads, s.sleep, 0);
  }

  lemma StaysAsleep(s: KState, g: nat)
    requires Consistent(s) && Waits(s, 0) && DueFirst(SleepDurations(s))
    requires g in s.sleep[Due(SleepDurations(s))..]
    ensures g in s.sleep && g != 0 && g < |s.threads| && s.threads[g].waiting >= 2
  {
    RingIndices(s.sleep, NThreads(s.cfg), |s.threads|);
    var ds := SleepDurations(s);
    var k := Due(ds);
    var j :| 0 <= j < |s.sleep[k..]| && s.sleep[k..][j] == g;
    assert s.sleep[k + j] == g;
    HeldIsAllocated(s, g);
    assert WaitOk(s, g);
  }

  lemma AwakeModes(s: KState)
    requires Consistent(s) && Modes(s)
    ensures Shape(Awake(s)) && Modes(Awake(s))
  {
    AwakeShape(s);
    RingNoDup(s);
    RingIndices(s.sleep, NThreads(s.cfg), |s.threads|);
    forall t | 0 <= t < |s.threads|
      ensures Awake(s).threads[t].cpsr == s.threads[t].cpsr
    {
      TickedKeeps(s.threads, s.sleep, t);
    }
    SameModes(s, Awake(s));
  }

  lemma AwakeHealthy(s: KState)
    requires Healthy(s) && DueFirst(SleepDurations(s))
    ensures Healthy(Awake(s))
  {
    AwakeConsistent(s);
    AwakeWaits(s);
    AwakeModes(s);
  }

  // ---- Blocking ----

  lemma MovedWaits(s: KState, ring: WaitingRing)
    requires Consistent(s) && s.running != 0 && Waits(s, 0)
    ensures Shape(Moved(s, ring)) && Waits(Moved(s, ring), s.running)
  {
    ParkedMoves(s, ring);
    var r := Moved(s, ring);
    forall g: nat | g != s.running
      ensures WaitOk(r, g)
    {
      assert g != 0 ==> WaitOk(s, g);
      InPush(s.sleep, s.running, g);
      InPush(s.chars, s.running, g);
    }
  }

  lemma MovedModes(s: KState, ring: WaitingRing)
    requires Consistent(s) && s.running != 0 && Modes(s)
    ensures Shape(Parked(s, ring)) && Modes(Parked(s, ring))
  {
    ParkedMoves(s, ring);
    var r := Moved(s, ring);
    forall g: nat
      ensures ModeOk(r, g)
    {
      assert ModeOk(s, g);
    }
    SwitchModes(r, Some(s.running), 0);
  }

  /** The state after the cycle of a blocking call, before the handler sets the field of the blocked thread. */
  lemma BlockHealthy(s: KState, ring: WaitingRing, r: KState)
    requires Healthy(s) && s.running != 0
    requires r == Cycle(Parked(s, ring))
    ensures Consistent(r) && Waits(r, s.running) && Modes(r)
    ensures r.sleep == Moved(s, ring).sleep && r.chars == Moved(s, ring).chars && r.uart == s.uart && r.cfg == s.cfg
    ensures IsAllocated(r, s.running)
    ensures r.threads[s.running].state == READY
  {
    BlockConsistent(s, ring);
    ParkedMoves(s, ring);
    MovedWaits(s, ring);
    MovedModes(s, ring);
    SwitchWaits(Moved(s, ring), Some(s.running), 0, s.running);
    var k := Parked(s, ring);
    CycleWaits(k, s.running);
    CycleModes(k);
    CycleRings(k);
    HeldIsAllocated(s, s.running);
    HeldOnce(s, s.running);
    assert WaitOk(s, s.running);
  }

  lemma SleepHealthy(s: KState, duration: word)
    requires Healthy(s) && s.running != 0 && duration != 0
    ensures OnSleep(s, duration).Running? && Healthy(OnSleep(s, duration).s)
  {
    var b := Cycle(Parked(s, SleepRing));
    BlockHealthy(s, SleepRing, b);
    SetWaitingHealthy(s, b, b.(threads := SetWaiting(b.threads, s.running, duration)), duration);
  }

  lemma SetWaitingHealthy(s: KState, b: KState, r: KState, duration: word)
    requires Healthy(s) && s.running != 0 && duration != 0
    requires Consistent(b) && Waits(b, s.running) && Modes(b)
    requires b.sleep == Moved(s, SleepRing).sleep && b.chars == s.chars && b.uart == s.uart && b.cfg == s.cfg
    requires s.running < |b.threads| && b.threads[s.running].state == READY
    requires r == b.(threads := SetWaiting(b.threads, s.running, duration))
    ensures Healthy(r)
  {
    SameOwnership(b, r);
    HeldOnce(s, s.running);
    forall g: nat | g != 0
      ensures WaitOk(r, g)
    {
      assert g != s.running ==> WaitOk(b, g);
    }
    SameModes(b, r);
  }

  lemma GetcharHealthy(s: KState)
    requires Healthy(s) && s.running != 0 && s.uart == []
    ensures OnGetchar(s).Running? && Healthy(OnGetchar(s).s)
  {
    var b := Cycle(Parked(s, CharRing));
    BlockHealthy(s, CharRing, b);
    SetStateHealthy(s, b, b.(threads := b.threads[s.running := b.threads[s.running].(state := WAITING)]));
  }

  lemma SetStateHealthy(s: KState, b: KState, r: KState)
    requires Healthy(s) && s.running != 0 && s.uart == []
    requires Consistent(b) && Waits(b, s.running) && Modes(b)
    requires b.sleep == s.sleep && b.chars == Moved(s, CharRing).chars && b.uart == s.uart && b.cfg == s.cfg
    requires s.running < |b.threads|
    requires r == b.(threads := b.threads[s.running := b.threads[s.running].(state := WAITING)])
    ensures Healthy(r)
  {
    SameOwnership(b, r);
    HeldOnce(s, s.running);
    InPush(s.chars, s.running, s.running);
    forall g: nat | g != 0
      ensures WaitOk(r, g)
    {
      assert g != s.running ==> WaitOk(b, g);
    }
    SameModes(b, r);
  }

  /** GET_CHAR halts only when the null thread would have to wait. */
  lemma GetCharHealthy(s: KState)
    requires Healthy(s)
    ensures GetChar(s).Running? <==> (s.uart != [] || s.running != 0)
    ensures GetChar(s).Running? ==> Healthy(GetChar(s).s)
    ensures s.uart == [] && s.running != 0 ==> GetChar(s) == OnGetchar(s)
  {
    if s.uart != [] {
      var r := s.(frame := s.frame.(gr := s.frame.gr.(r0 := s.uart[0])), uart := s.uart[1..]);
      SameOwnership(s, r);
      SameWaits(s, r, 0);
      SameModes(s, r);
    } else if s.running != 0 {
      GetcharHealthy(s);
      var r := OnGetchar(s).s;
      if r.running != 0 {
        HeldIsAllocated(r, r.running);
        HeldOnce(r, r.running);
        assert WaitOk(r, r.running);
      }
    }
  }

  // ---- Wake-up ----

  lemma WokenWaits(s: KState, r: KState)
    requires Consistent(s) && Waits(s, 0) && s.chars != [] && s.uart != []
    requires r == OnCharReceived(s) && Shape(r)
    ensures Waits(r, 0)
  {
    WokenConsistent(s);
    RingNoDup(s);
    var t := s.chars[0];
    assert t in s.chars;
    HeldOnce(s, t);
    forall g: nat | g != 0
      ensures WaitOk(r, g)
    {
      assert WaitOk(s, g);
      InPop(s.chars, g);
    }
  }

  /** A received character is buffered, and handed on at once when a thread waits for it. */
  lemma UartHealthy(s: KState, received: Option<byte>)
    requires Healthy(s)
    ensures Healthy(UartIrq(s, received))
  {
    if received.Some? && |s.uart| < s.cfg.uartSize {
      var b := s.(uart := s.uart + [received.value]);
      SameOwnership(s, b);
      SameWaits(s, b, 0);
      SameModes(s, b);
      CharReceivedConsistent(b);
      if b.chars != [] {
        WokenWaits(b, OnCharReceived(b));
        SameModes(b, OnCharReceived(b));
      }
    }
  }

  // ---- Kill ----

  lemma RemovedAllocated(s: KState, h: nat)
    requires Consistent(s) && s.running != 0 && IsAllocated(s, s.running)
    requires Shape(Departed(s)) && Shape(Without(Departed(s), s.running))
    ensures IsAllocated(Without(Departed(s), s.running), h) <==> IsAllocated(s, h) && h != s.running
  {
    WithoutAllocated(s, s.running, h);
    var r, w := Without(Departed(s), s.running), Without(s, s.running);
    assert r.procs == w.procs && r.freeProcs == w.freeProcs;
  }

  lemma RemovedHealthy(s: KState, r: KState)
    requires Healthy(s) && s.running != 0
    requires IsAllocated(s, s.running) && Shape(Departed(s)) && Shape(Without(Departed(s), s.running))
    requires r == Without(Departed(s), s.running)
    ensures Waits(r, 0) && (forall g: nat :: ModeOk(r, g)) && Input(r)
    ensures r.running == 0 || IsAllocated(r, r.running)
  {
    forall g: nat
      ensures (g != 0 ==> WaitOk(r, g)) && ModeOk(r, g)
    {
      assert (g != 0 ==> WaitOk(s, g)) && ModeOk(s, g);
      RemovedAllocated(s, g);
    }
    if r.running != 0 {
      assert r.running in s.ready;
      HeldIsAllocated(s, r.running);
      HeldOnce(s, s.running);
      RemovedAllocated(s, r.running);
    }
  }

  lemma KillHealthy(s: KState)
    requires Healthy(s)
    ensures Healthy(Kill(s))
  {
    KillConsistent(s);
    if s.running != 0 {
      KillRemoves(s);
      var r := Without(Departed(s), s.running);
      RemovedHealthy(s, r);
      SwitchWaits(r, None, r.running, 0);
      SwitchModes(r, None, r.running);
    } else {
      NullKillHealthy(s);
    }
  }

  lemma NullKillHealthy(s: KState)
    requires Healthy(s) && s.running == 0
    ensures Kill(s) == HandOver(s) && Shape(HandOver(s))
    ensures Waits(HandOver(s), 0) && Modes(HandOver(s)) && Input(HandOver(s))
  {
    KillOfNullThread(s);
    DepartedShape(s);
    var r := Departed(s);
    SameWaits(s, r, 0);
    forall g: nat
      ensures ModeOk(r, g)
    {
      assert ModeOk(s, g);
    }
    if r.running != 0 {
      assert r.running in s.ready;
      HeldIsAllocated(s, r.running);
    }
    SwitchWaits(r, None, r.running, 0);
    SwitchModes(r, None, r.running);
  }

  // ---- Creation ----

  lemma AddedHealthy(s: KState, p: nat, t: Tcb, pcb: Pcb, r: KState)
    requires Settling(s, p) && s.procs[p].free != [] && NextIndex(s, p) < |s.threads|
    requires Waits(s, 0) && Modes(s)
    requires t.process == p && t.state == READY && UserMode(t.cpsr)
    requires pcb.free == s.procs[p].free[1..]
    requires r == Added(s, p, t, pcb) && Shape(r)
    ensures Waits(r, 0) && Modes(r)
  {
    var x := NextIndex(s, p);
    NextIndexFits(s, p);
    assert Owned(s, x);
    OccursIn(s.chars, x);
    OccursIn(s.sleep, x);
    forall g: nat
      ensures (g != 0 ==> WaitOk(r, g)) && ModeOk(r, g)
    {
      assert (g != 0 ==> WaitOk(s, g)) && ModeOk(s, g);
      AddedAllocated(s, p, t, pcb, g);
    }
  }

  lemma CreateThreadHealthy(s: KState, p: nat, func: word, args: word, argsSize: word, r: KState)
    requires Shape(s) && p < |s.procs| && Waits(s, 0) && Modes(s) && Input(s)
    requires Consistent(s) || (Settling(s, p) && s.procs[p].free != [])
    requires p == 0 || p !in s.freeProcs
    requires r == CreateThread(s, p, func, args, argsSize)
    ensures Healthy(r)
  {
    CreateThreadConsistent(s, p, func, args, argsSize);
    if s.procs[p].free == [] {
      SameWaits(s, r, 0);
      SameModes(s, r);
    } else {
      if p == 0 {
        NullProcessHasNoSlots(s);
      }
      if Consistent(s) {
        assert LiveProcess(s, p);
      }
      var t, pcb := CreatedTcb(s, p, func, args, argsSize), CreatedPcb(s, p);
      CreateThreadAdds(s, p, func, args, argsSize);
      AddedShape(s, p, t, pcb);
      var a := Added(s, p, t, pcb);
      AddedHealthy(s, p, t, pcb, a);
      SameWaits(a, r, 0);
      SameModes(a, r);
    }
  }

  lemma CreateProcessHealthy(s: KState, func: word, args: word, argsSize: word, r: KState)
    requires Healthy(s) && r == CreateProcess(s, func, args, argsSize)
    ensures Healthy(r)
  {
    if s.freeProcs == [] {
      SameOwnership(s, r);
      SameWaits(s, r, 0);
      SameModes(s, r);
    } else {
      var pid: word := Incremented(s.pidCounter);
      var w := CreateProcessUnfold(s, func, args, argsSize);
      FreshProcess(s, pid);
      forall g: nat
        ensures (g != 0 ==> WaitOk(w, g)) && ModeOk(w, g)
      {
        assert (g != 0 ==> WaitOk(s, g)) && ModeOk(s, g);
        FreshAllocated(s, pid, g);
      }
      UpToHas(s.cfg.nt, 1);
      CreateThreadHealthy(w, s.freeProcs[0], func, args, argsSize, r);
    }
  }

  lemma InitHealthy(c: Config, f: Frame)
    requires ValidConfig(c)
    ensures Healthy(Init(c, f))
  {
    InitConsistent(c, f);
    var s := Init(c, f);
    forall g: nat
      ensures !IsAllocated(s, g)
    {
      if 1 <= g <= NThreads(c) {
        NumberingBack(c, g);
        UpToHas(c.np, ProcOf(c, g));
      }
    }
  }

  lemma BootHealthy(c: Config, f: Frame)
    requires ValidConfig(c)
    ensures Healthy(Boot(c, f))
  {
    InitHealthy(c, f);
    CreateProcessHealthy(Init(c, f), c.mainThread, 0, 0, Boot(c, f));
  }
}
