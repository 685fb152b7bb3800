/**
 * Who owns which thread: the rings, the running pointer, the slot queues and the process queue
 * partition the thread table, and every handler keeps it so.
 */
module Ownership {
  import opened Words
  import opened Rings
  import opened Uart
  import opened Counting
  import opened AddressSpace
  import opened KernelState

  /** The process and the slot that an index of the thread table stands for. */
  function ProcOf(c: Config, g: nat): nat
    requires c.nt >= 1 && g >= 1
  {
    (g - 1) / c.nt + 1
  }

  function SlotOf(c: Config, g: nat): nat
    requires c.nt >= 1 && g >= 1
  {
    (g - 1) % c.nt + 1
  }

  /** The numbering of the thread table is one-to-one. */
  lemma Numbering(c: Config, p: nat, k: nat)
    requires 1 <= p <= c.np && 1 <= k <= c.nt
    ensures var g := (p - 1) * c.nt + k; 1 <= g <= NThreads(c) && ProcOf(c, g) == p && SlotOf(c, g) == k
  {
    var g := (p - 1) * c.nt + k;
    Remainder(g - 1, c.nt, p - 1, k - 1);
    ProductMono(p, c.np, c.nt);
  }

  lemma ProductMono(a: nat, b: nat, m: nat)
    requires 1 <= a <= b
    ensures (a - 1) * m + m <= b * m
  {
    assert (b - a) * m >= 0;
  }

  lemma NumberingBack(c: Config, g: nat)
    requires c.nt >= 1 && 1 <= g <= NThreads(c)
    ensures 1 <= ProcOf(c, g) <= c.np && 1 <= SlotOf(c, g) <= c.nt
    ensures (ProcOf(c, g) - 1) * c.nt + SlotOf(c, g) == g
  {
    var q, r := (g - 1) / c.nt, (g - 1) % c.nt;
    assert g - 1 == q * c.nt + r;
    if q >= c.np {
      ProductMono(c.np, q, c.nt);
    }
  }

  /** The thread at `g` exists: its process is off the free queue and its slot is off that of the process. */
  ghost predicate Allocated(c: Config, freeProcs: seq<nat>, procs: seq<Pcb>, g: nat)
  {
    && 1 <= c.nt && 1 <= g <= NThreads(c)
    && ProcOf(c, g) !in freeProcs
    && ProcOf(c, g) < |procs|
    && SlotOf(c, g) !in procs[ProcOf(c, g)].free
  }

  ghost predicate IsAllocated(s: KState, g: nat)
  {
    Allocated(s.cfg, s.freeProcs, s.procs, g)
  }

  /** In how many places the thread at `g` is held: the running pointer and the three rings. */
  function Copies(s: KState, g: nat): nat
  {
    (if s.running == g && g != 0 then 1 else 0) + Occurs(s.ready, g) + Occurs(s.sleep, g) + Occurs(s.chars, g)
  }

  ghost predicate Owned(s: KState, g: nat)
  {
    Copies(s, g) == if IsAllocated(s, g) then 1 else 0
  }

  /** Every allocated thread is held in exactly one place, and nothing else is held anywhere. */
  ghost predicate Partition(s: KState)
  {
    forall g: nat :: Owned(s, g)
  }

  ghost predicate RecordOk(s: KState, g: nat)
    requires Shape(s)
  {
    IsAllocated(s, g) ==> s.threads[g].process == ProcOf(s.cfg, g) && s.threads[g].index == SlotOf(s.cfg, g)
  }

  /** The control blocks of allocated threads and of the null thread say where they are. */
  ghost predicate Records(s: KState)
    requires Shape(s)
  {
    && (forall g: nat :: RecordOk(s, g))
    && s.threads[0].process == 0 && s.threads[0].index == 0
    && s.procs[0].index == 0
  }

  /** A process in use knows its index and has at least one thread. */
  ghost predicate LiveProcess(s: KState, p: nat)
    requires Shape(s) && p < |s.procs|
  {
    s.procs[p].index == p && NoDup(s.procs[p].free) && |s.procs[p].free| < s.cfg.nt
  }

  ghost predicate Lifetimes(s: KState)
    requires Shape(s)
  {
    && NoDup(s.freeProcs)
    && forall p :: 1 <= p < |s.procs| && p !in s.freeProcs ==> LiveProcess(s, p)
  }

  ghost predicate Consistent(s: KState)
  {
    Shape(s) && Partition(s) && Records(s) && Lifetimes(s)
  }

  lemma HeldIsAllocated(s: KState, g: nat)
    requires Consistent(s)
    requires g in s.ready || g in s.sleep || g in s.chars || (g == s.running && g != 0)
    ensures IsAllocated(s, g)
  {
    assert Owned(s, g);
    OccursIn(s.ready, g);
    OccursIn(s.sleep, g);
    OccursIn(s.chars, g);
  }

  /** The global index of an allocated thread, computed from its control block, is its place in the table. */
  lemma GlobalIndexOfThread(s: KState, g: nat)
    requires Consistent(s) && (IsAllocated(s, g) || g == 0)
    ensures GlobalIndex(s, s.threads[g]) == g
  {
    if g != 0 {
      assert RecordOk(s, g);
      NumberingBack(s.cfg, g);
      assert LiveProcess(s, ProcOf(s.cfg, g));
    }
  }

  /** The ready ring has no duplicates, and room for every thread that is not in it. */
  lemma ReadyFits(s: KState, g: nat)
    requires Shape(s) && Partition(s) && g !in s.ready && 1 <= g <= NThreads(s.cfg)
    ensures PushOk(NThreads(s.cfg), s.ready, g) && Pushed(NThreads(s.cfg), s.ready, g) == s.ready + [g]
  {
    RingNoDup(s);
    Fits(s.ready, g, NThreads(s.cfg));
  }

  lemma RingNoDup(s: KState)
    requires Shape(s) && Partition(s)
    ensures NoDup(s.ready) && NoDup(s.sleep) && NoDup(s.chars)
  {
    forall g: nat
      ensures Occurs(s.ready, g) <= 1 && Occurs(s.sleep, g) <= 1 && Occurs(s.chars, g) <= 1
    {
      assert Owned(s, g);
    }
    OnceEach(s.ready);
    OnceEach(s.sleep);
    OnceEach(s.chars);
  }

  /** A thread that is held in one place is not in another. */
  lemma HeldOnce(s: KState, g: nat)
    requires Consistent(s)
    ensures g == s.running && g != 0 ==> g !in s.ready && g !in s.sleep && g !in s.chars
    ensures g in s.ready ==> g !in s.sleep && g !in s.chars
    ensures g in s.sleep ==> g !in s.chars
  {
    assert Owned(s, g);
    OccursIn(s.ready, g);
    OccursIn(s.sleep, g);
    OccursIn(s.chars, g);
  }

  // ---- The cycle ----

  /** The cycle puts the old thread back where it belongs, or has none to put back. */
  predicate RequeueOk(s: KState)
    requires Shape(s)
  {
    s.ready == [] || s.running == 0 || RequeueIndex(s, s.running) == s.running
  }

  function PutBack(running: nat): seq<nat>
  {
    if running == 0 then [] else [running]
  }

  /** The queue and the pointer after a cycle that finds a ready thread. */
  function Rotated(s: KState): KState
    requires s.ready != []
  {
    s.(ready := s.ready[1..] + PutBack(s.running), running := s.ready[0])
  }

  function Outgoing(running: nat): Option<nat>
  {
    if running == 0 then None else Some(running)
  }

  /** The cycle rotates the queue and switches to its first thread; the old thread is never lost. */
  lemma CycleRotates(s: KState)
    requires Consistent(s) && RequeueOk(s) && s.ready != []
    ensures Shape(Rotated(s)) && Cycle(s) == SwitchContext(Rotated(s), Outgoing(s.running), s.ready[0])
  {
    RingNoDup(s);
    Pigeonhole(s.ready, NThreads(s.cfg));
    if s.running == 0 {
      assert s.ready[1..] + [] == s.ready[1..];
    }
  }

  lemma RotatedConsistent(s: KState)
    requires Consistent(s) && s.ready != []
    ensures Consistent(Rotated(s))
  {
    var r := Rotated(s);
    forall g: nat
      ensures Owned(r, g)
    {
      assert Owned(s, g);
      OccursPop(s.ready, g);
      if s.running != 0 {
        assert [] + [s.running] == [s.running];
      }
    }
    forall g: nat
      ensures RecordOk(r, g)
    {
      assert RecordOk(s, g);
    }
    forall p | 1 <= p < |r.procs| && p !in r.freeProcs
      ensures LiveProcess(r, p)
    {
      assert LiveProcess(s, p);
    }
  }

  /** Saving and loading registers does not touch ownership. */
  lemma SwitchConsistent(s: KState, from: Option<nat>, to: nat)
    requires Consistent(s) && to < |s.threads| && (from.Some? ==> from.value < |s.threads|)
    ensures Consistent(SwitchContext(s, from, to))
  {
    var r := SwitchContext(s, from, to);
    SwitchContextShape(s, from, to);
    SameOwnership(s, r);
  }

  /** A state with the same rings, processes and thread identities is as consistent. */
  lemma SameOwnership(s: KState, r: KState)
    requires Consistent(s) && Shape(r)
    requires r.cfg == s.cfg && r.ready == s.ready && r.sleep == s.sleep && r.chars == s.chars && r.running == s.running
    requires r.freeProcs == s.freeProcs && r.procs == s.procs
    requires forall t :: 0 <= t < |s.threads| ==>
               r.threads[t].process == s.threads[t].process && r.threads[t].index == s.threads[t].index
    ensures Consistent(r)
  {
    forall g: nat
      ensures Owned(r, g) && RecordOk(r, g)
    {
      assert Owned(s, g) && RecordOk(s, g);
    }
    forall p | 1 <= p < |r.procs| && p !in r.freeProcs
      ensures LiveProcess(r, p)
    {
      assert LiveProcess(s, p);
    }
  }

  lemma CycleConsistent(s: KState)
    requires Consistent(s) && RequeueOk(s)
    ensures Consistent(Cycle(s))
  {
    if s.ready != [] {
      CycleRotates(s);
      RotatedConsistent(s);
      SwitchConsistent(Rotated(s), Outgoing(s.running), s.ready[0]);
    }
  }

  /** With the slot index put back in place of the table index, the old thread is no longer held anywhere. */
  lemma CycleLosesThread(s: KState)
    requires Consistent(s) && !RequeueOk(s)
    ensures Shape(Cycle(s)) ==> Copies(Cycle(s), s.running) == 0 && IsAllocated(Cycle(s), s.running)
  {
    var back := RequeueIndex(s, s.running);
    HeldIsAllocated(s, s.running);
    HeldOnce(s, s.running);
    var next, q := s.ready[0], s.ready[1..];
    OccursPop(s.ready, s.running);
    OccursIn(s.ready, s.running);
    OccursIn(s.sleep, s.running);
    OccursIn(s.chars, s.running);
    assert next in s.ready;
  }

  /** The cycle keeps the ownership partition exactly when it puts the right index back. */
  lemma CycleConsistentIff(s: KState)
    requires Consistent(s)
    ensures Consistent(Cycle(s)) <==> RequeueOk(s)
  {
    if RequeueOk(s) {
      CycleConsistent(s);
    } else {
      CycleLosesThread(s);
      if Shape(Cycle(s)) {
        assert !Owned(Cycle(s), s.running);
      }
    }
  }

  /** The two indices of an allocated thread agree exactly for the threads of process 1. */
  lemma IndicesAgree(s: KState, g: nat)
    requires Consistent(s) && IsAllocated(s, g)
    ensures RequeueIndex(s, g) == g <==> s.cfg.requeueGlobal || ProcOf(s.cfg, g) == 1
  {
    GlobalIndexOfThread(s, g);
    assert RecordOk(s, g);
    NumberingBack(s.cfg, g);
    var p := ProcOf(s.cfg, g);
    if p > 1 {
      AtLeastOnce(p - 1, s.cfg.nt);
    }
  }

  // ---- Blocking ----

  /** The running thread moved to a waiting ring, the null thread running in its place. */
  function Moved(s: KState, ring: WaitingRing): KState
  {
    if ring.SleepRing? then s.(sleep := s.sleep + [s.running], running := 0)
    else s.(chars := s.chars + [s.running], running := 0)
  }

  lemma ParkedMoves(s: KState, ring: WaitingRing)
    requires Consistent(s) && s.running != 0
    ensures Shape(Moved(s, ring))
    ensures Parked(s, ring) == SwitchContext(Moved(s, ring), Some(s.running), 0)
  {
    HeldIsAllocated(s, s.running);
    HeldOnce(s, s.running);
    GlobalIndexOfThread(s, s.running);
    RingNoDup(s);
    Fits(s.sleep, s.running, NThreads(s.cfg));
    Fits(s.chars, s.running, NThreads(s.cfg));
  }

  lemma MovedConsistent(s: KState, ring: WaitingRing)
    requires Consistent(s) && s.running != 0
    ensures Consistent(Moved(s, ring))
  {
    ParkedMoves(s, ring);
    var r := Moved(s, ring);
    forall g: nat
      ensures Owned(r, g) && RecordOk(r, g)
    {
      assert Owned(s, g) && RecordOk(s, g);
    }
    forall p | 1 <= p < |r.procs| && p !in r.freeProcs
      ensures LiveProcess(r, p)
    {
      assert LiveProcess(s, p);
    }
  }

  /** After a blocking call the null thread runs, so nothing is put back and the requeue index does not matter. */
  lemma BlockConsistent(s: KState, ring: WaitingRing)
    requires Consistent(s) && s.running != 0
    ensures Consistent(Parked(s, ring)) && Consistent(Cycle(Parked(s, ring)))
  {
    ParkedMoves(s, ring);
    MovedConsistent(s, ring);
    SwitchConsistent(Moved(s, ring), Some(s.running), 0);
    CycleConsistent(Parked(s, ring));
  }

  // ---- Wake-up ----

  function Woken(s: KState): KState
    requires s.chars != []
  {
    s.(chars := s.chars[1..], ready := s.ready + [s.chars[0]])
  }

  lemma WokenConsistent(s: KState)
    requires Consistent(s) && s.chars != []
    ensures Consistent(Woken(s))
    ensures Pushed(NThreads(s.cfg), s.ready, s.chars[0]) == s.ready + [s.chars[0]]
  {
    var r, t := Woken(s), s.chars[0];
    assert t in s.chars;
    HeldOnce(s, t);
    ReadyFits(s, t);
    RangePush(s.ready, t, NThreads(s.cfg));
    RangePop(s.chars, NThreads(s.cfg));
    forall g: nat
      ensures Owned(r, g) && RecordOk(r, g)
    {
      assert Owned(s, g) && RecordOk(s, g);
      OccursPop(s.chars, g);
    }
    forall p | 1 <= p < |r.procs| && p !in r.freeProcs
      ensures LiveProcess(r, p)
    {
      assert LiveProcess(s, p);
    }
  }

  /** A received character keeps the partition when it finds the buffer non-empty, as it does after a push. */
  lemma CharReceivedConsistent(s: KState)
    requires Consistent(s) && s.uart != []
    ensures Consistent(OnCharReceived(s))
  {
    if s.chars != [] {
      WokenConsistent(s);
      var r := OnCharReceived(s);
      assert Shape(r);
      SameOwnership(Woken(s), r);
    }
  }

  // ---- Kill ----

  /** The process queue and the process table after the thread at `g` is gone. */
  function FreedSlot(s: KState, p: nat, k: nat): seq<Pcb>
    requires p < |s.procs|
  {
    s.procs[p := s.procs[p].(free := s.procs[p].free + [k])]
  }

  /** The state without the thread at `g`, which nothing holds any more. */
  function Without(s: KState, g: nat): KState
    requires s.cfg.nt >= 1 && g >= 1 && ProcOf(s.cfg, g) < |s.procs|
  {
    var p := ProcOf(s.cfg, g);
    var ps := FreedSlot(s, p, SlotOf(s.cfg, g));
    if |ps[p].free| >= s.cfg.nt then s.(procs := ps, freeProcs := s.freeProcs + [p]) else s.(procs := ps)
  }

  /** What is allocated after the slot of `g` is freed: everything that was, except `g`. */
  lemma WithoutAllocated(s: KState, g: nat, h: nat)
    requires Consistent(s) && IsAllocated(s, g)
    ensures IsAllocated(Without(s, g), h) <==> IsAllocated(s, h) && h != g
  {
    var r := Without(s, g);
    var p, k := ProcOf(s.cfg, g), SlotOf(s.cfg, g);
    if 1 <= h <= NThreads(s.cfg) {
      NumberingBack(s.cfg, g);
      NumberingBack(s.cfg, h);
      var free := s.procs[p].free + [k];
      if ProcOf(s.cfg, h) == p {
        var j := SlotOf(s.cfg, h);
        assert j in free <==> j in s.procs[p].free || j == k;
        if |free| >= s.cfg.nt {
          Pigeonhole(free, s.cfg.nt);
          ElementsCard(free);
          SubsetCard(Elements(free), Range(s.cfg.nt));
          assert j in Elements(free);
        }
      } else {
        assert r.procs[ProcOf(s.cfg, h)] == s.procs[ProcOf(s.cfg, h)];
      }
    }
  }

  lemma WithoutLifetimes(s: KState, g: nat)
    requires Consistent(s) && IsAllocated(s, g)
    ensures Shape(Without(s, g)) && Lifetimes(Without(s, g))
  {
    var r, q := Without(s, g), ProcOf(s.cfg, g);
    forall p | 1 <= p < |r.procs| && p !in r.freeProcs
      ensures LiveProcess(r, p)
    {
      InPush(s.freeProcs, q, p);
      assert LiveProcess(s, p);
    }
  }

  /** Held by the running pointer before, by nothing after: the pointer moves to the head of the ready ring. */
  function Departed(s: KState): KState
  {
    if s.ready == [] then s.(running := 0) else s.(ready := s.ready[1..], running := s.ready[0])
  }

  lemma DepartedShape(s: KState)
    requires Shape(s)
    ensures Shape(Departed(s)) && HandOver(s) == SwitchContext(Departed(s), None, Departed(s).running)
  {
    if s.ready != [] {
      RangePop(s.ready, NThreads(s.cfg));
    }
  }

  lemma KillRemoves(s: KState)
    requires Consistent(s) && s.running != 0
    ensures IsAllocated(s, s.running) && Shape(Departed(s))
    ensures Shape(Without(Departed(s), s.running))
    ensures Kill(s) == SwitchContext(Without(Departed(s), s.running), None, Departed(s).running)
  {
    var g := s.running;
    HeldIsAllocated(s, g);
    DepartedShape(s);
    assert RecordOk(s, g);
    NumberingBack(s.cfg, g);
    Fits(s.freeProcs, ProcOf(s.cfg, g), s.cfg.np);
  }

  lemma RemovedConsistent(s: KState)
    requires Consistent(s) && s.running != 0
    requires IsAllocated(s, s.running) && Shape(Departed(s)) && Shape(Without(Departed(s), s.running))
    ensures Consistent(Without(Departed(s), s.running))
  {
    var g := s.running;
    var r := Without(Departed(s), g);
    WithoutLifetimes(s, g);
    var w := Without(s, g);
    assert r.procs == w.procs && r.freeProcs == w.freeProcs;
    forall h: nat
      ensures Owned(r, h) && RecordOk(r, h)
    {
      assert Owned(s, h) && RecordOk(s, h);
      if s.ready != [] {
        OccursPop(s.ready, h);
      }
      WithoutAllocated(s, g, h);
    }
    forall p | 1 <= p < |r.procs| && p !in r.freeProcs
      ensures LiveProcess(r, p)
    {
      assert LiveProcess(w, p);
    }
    assert r.procs[0] == s.procs[0] by {
      NumberingBack(s.cfg, g);
    }
  }

  lemma NullProcessHasNoSlots(s: KState)
    requires Shape(s)
    ensures s.procs[0].free == []
  {
    assert InRange(s.procs[0].free, SlotCapacity(s.cfg, 0));
    NonEmptyRange(s.procs[0].free, 0);
  }

  /** Killing the null thread frees nothing: its slot queue has no room and its index is not pushed. */
  lemma KillOfNullThread(s: KState)
    requires Consistent(s) && s.running == 0
    ensures Consistent(Kill(s)) && Kill(s) == HandOver(s)
  {
    DepartedShape(s);
    NullProcessHasNoSlots(s);
    assert s.procs[0 := s.procs[0].(free := [])] == s.procs;
    if s.ready != [] {
      RotatedConsistent(s);
      assert s.ready[1..] + [] == s.ready[1..];
    }
    SwitchConsistent(Departed(s), None, Departed(s).running);
  }

  lemma KillConsistent(s: KState)
    requires Consistent(s)
    ensures Consistent(Kill(s))
  {
    if s.running != 0 {
      KillRemoves(s);
      RemovedConsistent(s);
      SwitchConsistent(Without(Departed(s), s.running), None, Departed(s).running);
    } else {
      KillOfNullThread(s);
    }
  }

  // ---- Creation ----

  /** Consistent, except that process `p` may still be without a thread. */
  ghost predicate Settling(s: KState, p: nat)
  {
    && Shape(s) && Partition(s) && Records(s) && NoDup(s.freeProcs)
    && 1 <= p < |s.procs| && p !in s.freeProcs
    && s.procs[p].index == p && NoDup(s.procs[p].free)
    && forall q :: 1 <= q < |s.procs| && q !in s.freeProcs && q != p ==> LiveProcess(s, q)
  }

  /** The thread-table index of the next free slot of a process. */
  function NextIndex(s: KState, p: nat): nat
    requires 1 <= p < |s.procs| && s.procs[p].free != []
  {
    (p - 1) * s.cfg.nt + s.procs[p].free[0]
  }

  /** The state with a thread added in the next free slot of a process. */
  function Added(s: KState, p: nat, t: Tcb, pcb: Pcb): KState
    requires Shape(s) && 1 <= p < |s.procs| && s.procs[p].free != [] && NextIndex(s, p) < |s.threads|
  {
    var g := NextIndex(s, p);
    s.(procs := s.procs[p := pcb], ready := s.ready + [g], threads := s.threads[g := t])
  }

  lemma NextIndexFits(s: KState, p: nat)
    requires Settling(s, p) && s.procs[p].free != []
    ensures var g := NextIndex(s, p);
            && 1 <= g <= NThreads(s.cfg) && ProcOf(s.cfg, g) == p && SlotOf(s.cfg, g) == s.procs[p].free[0]
            && !IsAllocated(s, g) && g !in s.ready && PushOk(NThreads(s.cfg), s.ready, g)
  {
    var g, k := NextIndex(s, p), s.procs[p].free[0];
    assert InRange(s.procs[p].free, SlotCapacity(s.cfg, p));
    assert k in s.procs[p].free;
    Numbering(s.cfg, p, k);
    assert Owned(s, g);
    OccursIn(s.ready, g);
    ReadyFits(s, g);
  }

  lemma AddedAllocated(s: KState, p: nat, t: Tcb, pcb: Pcb, h: nat)
    requires Settling(s, p) && s.procs[p].free != [] && NextIndex(s, p) < |s.threads|
    requires pcb.free == s.procs[p].free[1..]
    ensures IsAllocated(Added(s, p, t, pcb), h) <==> IsAllocated(s, h) || h == NextIndex(s, p)
  {
    NextIndexFits(s, p);
    if 1 <= h <= NThreads(s.cfg) {
      NumberingBack(s.cfg, h);
      InPop(s.procs[p].free, SlotOf(s.cfg, h));
    }
  }

  lemma AddedShape(s: KState, p: nat, t: Tcb, pcb: Pcb)
    requires Settling(s, p) && s.procs[p].free != [] && NextIndex(s, p) < |s.threads|
    requires t.process == p && pcb.free == s.procs[p].free[1..]
    ensures Shape(Added(s, p, t, pcb))
  {
    NextIndexFits(s, p);
    RangePush(s.ready, NextIndex(s, p), NThreads(s.cfg));
    assert InRange(s.procs[p].free, SlotCapacity(s.cfg, p));
    RangePop(s.procs[p].free, s.cfg.nt);
  }

  lemma AddedLifetimes(s: KState, p: nat, t: Tcb, pcb: Pcb)
    requires Settling(s, p) && s.procs[p].free != [] && NextIndex(s, p) < |s.threads|
    requires t.process == p && pcb.free == s.procs[p].free[1..] && pcb.index == p
    ensures Shape(Added(s, p, t, pcb)) && Lifetimes(Added(s, p, t, pcb))
  {
    AddedShape(s, p, t, pcb);
    var r := Added(s, p, t, pcb);
    assert InRange(s.procs[p].free, SlotCapacity(s.cfg, p));
    Pigeonhole(s.procs[p].free, s.cfg.nt);
    InPop(s.procs[p].free, 0);
    forall q | 1 <= q < |r.procs| && q !in r.freeProcs
      ensures LiveProcess(r, q)
    {
      assert q != p ==> LiveProcess(s, q);
    }
  }

  lemma AddedConsistent(s: KState, p: nat, t: Tcb, pcb: Pcb)
    requires Settling(s, p) && s.procs[p].free != [] && NextIndex(s, p) < |s.threads|
    requires t.process == p && t.index == s.procs[p].free[0]
    requires pcb.free == s.procs[p].free[1..] && pcb.index == p
    ensures Consistent(Added(s, p, t, pcb))
  {
    var r, g := Added(s, p, t, pcb), NextIndex(s, p);
    NextIndexFits(s, p);
    AddedLifetimes(s, p, t, pcb);
    forall h: nat
      ensures Owned(r, h) && RecordOk(r, h)
    {
      assert Owned(s, h) && RecordOk(s, h);
      AddedAllocated(s, p, t, pcb, h);
    }
  }

  /** The control block, the process and the L1 table that `thread_create` leaves when a slot is free. */
  function CreatedTcb(s: KState, p: nat, func: word, args: word, argsSize: word): Tcb
    requires Shape(s) && p < |s.procs| && s.procs[p].free != []
  {
    var slot := s.procs[p].free[0];
    var withArgs := args != 0 && argsSize != 0;
    var top := StackPointer(s.cfg.baseMb, s.cfg.nt, slot);
    var sp := if withArgs then (top - argsSize) % WORD_LIMIT else top % WORD_LIMIT;
    NewTcb(s.cfg, Incremented(s.tidCounter), p, slot, func, sp, if withArgs then sp else 0)
  }

  function CreatedPcb(s: KState, p: nat): Pcb
    requires Shape(s) && 1 <= p < |s.procs| && s.procs[p].free != []
  {
    var pcb := s.procs[p];
    RangePop(pcb.free, s.cfg.nt);
    pcb.(free := pcb.free[1..], l2 := ThreadTable(pcb.l2, s.cfg.baseMb, pcb.pid, pcb.free[0]))
  }

  function CreatedL1(s: KState, p: nat, args: word, argsSize: word): L1Table
    requires Shape(s) && p < |s.procs|
  {
    if args != 0 && argsSize != 0 then ThereAndBack(s, p) else s.l1
  }

  /** Neither the stack nor the ready ring can fail once a slot is taken: the thread is always added. */
  lemma CreateThreadAdds(s: KState, p: nat, func: word, args: word, argsSize: word)
    requires Settling(s, p) && s.procs[p].free != []
    ensures NextIndex(s, p) < |s.threads|
    ensures CreateThread(s, p, func, args, argsSize)
         == Added(s, p, CreatedTcb(s, p, func, args, argsSize), CreatedPcb(s, p))
            .(tidCounter := Incremented(s.tidCounter), l1 := CreatedL1(s, p, args, argsSize))
  {
    NextIndexFits(s, p);
    assert InRange(s.procs[p].free, SlotCapacity(s.cfg, p));
  }

  lemma CreateThreadConsistent(s: KState, p: nat, func: word, args: word, argsSize: word)
    requires p < |s.procs| && (Consistent(s) || (Settling(s, p) && s.procs[p].free != []))
    requires p == 0 || p !in s.freeProcs
    ensures Consistent(CreateThread(s, p, func, args, argsSize))
  {
    var r := CreateThread(s, p, func, args, argsSize);
    if s.procs[p].free == [] {
      SameOwnership(s, r);
    } else {
      if p == 0 {
        NullProcessHasNoSlots(s);
      }
      if Consistent(s) {
        assert LiveProcess(s, p);
      }
      var t, pcb := CreatedTcb(s, p, func, args, argsSize), CreatedPcb(s, p);
      CreateThreadAdds(s, p, func, args, argsSize);
      AddedConsistent(s, p, t, pcb);
      SameOwnership(Added(s, p, t, pcb), r);
    }
  }

  /** A process from the free queue brings no thread with it. */
  lemma FreshAllocated(s: KState, pid: word, g: nat)
    requires Consistent(s) && s.freeProcs != []
    ensures IsAllocated(WithProcess(s, pid), g) <==> IsAllocated(s, g)
  {
    if 1 <= g <= NThreads(s.cfg) {
      NumberingBack(s.cfg, g);
      InPop(s.freeProcs, ProcOf(s.cfg, g));
      UpToHas(s.cfg.nt, SlotOf(s.cfg, g));
    }
  }

  lemma FreshProcess(s: KState, pid: word)
    requires Consistent(s) && s.freeProcs != []
    ensures Settling(WithProcess(s, pid), s.freeProcs[0])
    ensures WithProcess(s, pid).procs[s.freeProcs[0]].free == UpTo(s.cfg.nt)
  {
    var p, r := s.freeProcs[0], WithProcess(s, pid);
    RangePop(s.freeProcs, s.cfg.np);
    assert p in s.freeProcs;
    assert InRange(UpTo(s.cfg.nt), s.cfg.nt);
    forall g: nat
      ensures Owned(r, g) && RecordOk(r, g)
    {
      assert Owned(s, g) && RecordOk(s, g);
      FreshAllocated(s, pid, g);
    }
    InPop(s.freeProcs, p);
    forall q | 1 <= q < |r.procs| && q !in r.freeProcs && q != p
      ensures LiveProcess(r, q)
    {
      InPop(s.freeProcs, q);
      assert LiveProcess(s, q);
    }
  }

  /** `process_create` with a free process index is `thread_create` in the fresh process. */
  lemma CreateProcessUnfold(s: KState, func: word, args: word, argsSize: word) returns (w: KState)
    requires Shape(s) && s.freeProcs != []
    ensures w == WithProcess(s, Incremented(s.pidCounter)) && Shape(w) && s.freeProcs[0] < |w.procs|
    ensures CreateProcess(s, func, args, argsSize) == CreateThread(w, s.freeProcs[0], func, args, argsSize)
  {
    w := WithProcess(s, Incremented(s.pidCounter));
  }

  lemma CreateProcessConsistent(s: KState, func: word, args: word, argsSize: word)
    requires Consistent(s)
    ensures Consistent(CreateProcess(s, func, args, argsSize))
  {
    var r := CreateProcess(s, func, args, argsSize);
    if s.freeProcs == [] {
      SameOwnership(s, r);
    } else {
      var w := CreateProcessUnfold(s, func, args, argsSize);
      FreshProcess(s, Incremented(s.pidCounter));
      CreateThreadConsistent(w, s.freeProcs[0], func, args, argsSize);
    }
  }

  lemma UpToHas(n: nat, x: nat)
    requires 1 <= x <= n
    ensures x in UpTo(n)
  {
    assert UpTo(n)[x - 1] == x;
  }

  lemma InitConsistent(c: Config, f: Frame)
    requires ValidConfig(c)
    ensures Consistent(Init(c, f))
  {
    var s := Init(c, f);
    forall g: nat
      ensures Owned(s, g) && RecordOk(s, g)
    {
      if 1 <= g <= NThreads(c) {
        NumberingBack(c, g);
        UpToHas(c.np, ProcOf(c, g));
      }
    }
    forall p | 1 <= p < |s.procs|
      ensures p in s.freeProcs
    {
      UpToHas(c.np, p);
    }
  }

  lemma BootConsistent(c: Config, f: Frame)
    requires ValidConfig(c)
    ensures Consistent(Boot(c, f))
  {
    InitConsistent(c, f);
    CreateProcessConsistent(Init(c, f), c.mainThread, 0, 0);
  }
}
