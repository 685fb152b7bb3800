/** Every identifier is reached by a process in use, so every fixed megabyte can come to back a user stack. */
module Identifiers {
  import opened Words
  import opened Rings
  import opened Counting
  import opened AddressSpace
  import opened KernelState
  import opened Ownership
  import opened Waking
  import opened Health
  import opened Safety
  import opened Context
  import opened AsWritten
  import opened Memory
  import opened Tables
  import opened Isolation
  import opened Counterexamples

  /** The first thread runs, nobody else is ready or asleep, and `k` is the last identifier handed out. */
  ghost predicate Alone(s: KState, k: word)
  {
    SystemOk(s) && s.running == 1 && s.ready == [] && s.sleep == [] && s.freeProcs != [] && s.pidCounter == k
  }

  /** The first thread has just forked: process `p` with identifier `k` has one thread, which is next to run. */
  ghost predicate ChildReady(s: KState, p: nat, k: word)
  {
    && SystemOk(s) && s.running == 1 && s.sleep == [] && s.pidCounter == k
    && 1 <= p <= s.cfg.np && p !in s.freeProcs && s.procs[p].pid == k && s.procs[p].free == UpTo(s.cfg.nt)[1..]
    && s.ready == [FirstIndex(s.cfg, p)]
  }

  lemma AboutToFork(s: KState, f: Frame, k: word, b: KState)
    requires Alone(s, k) && b == s.(frame := Ran(s.frame, ForkFrame(s.cfg, f)))
    ensures Step(s, CodeRuns(ForkFrame(s.cfg, f))) == Running(b) && Alone(b, k)
    ensures UserMode(b.frame.spsr) && ArgumentsOk(b) && b.frame.gr.r2 == 4
  {
    CallArguments(s, f, 4, b);
    AwakeShape(s);
    StepSystemOk(s, CodeRuns(ForkFrame(s.cfg, f)), b);
  }

  lemma ChildCreated(b: KState, k: word, t: KState)
    requires Alone(b, k) && k + 1 < WORD_LIMIT && UserMode(b.frame.spsr) && ArgumentsOk(b) && b.frame.gr.r2 == 4
    requires t == CreateProcess(b, b.frame.gr.r0, b.frame.gr.r1, b.frame.gr.r2)
    ensures Step(b, SupervisorCall(5)) == Running(t)
    ensures ChildReady(t, b.freeProcs[0], k + 1) && t.cfg == b.cfg
  {
    ForkReady(b, t);
    AwakeShape(b);
    StepSystemOk(b, SupervisorCall(5), t);
    RangePop(b.freeProcs, b.cfg.np);
    InPop(b.freeProcs, b.freeProcs[0]);
  }

  /** The first thread forks. */
  lemma ForkChild(s: KState, f: Frame, k: word) returns (t: KState)
    requires Alone(s, k) && k + 1 < WORD_LIMIT
    ensures Run(s, [CodeRuns(ForkFrame(s.cfg, f)), SupervisorCall(5)]) == Running(t)
    ensures ChildReady(t, s.freeProcs[0], k + 1) && t.cfg == s.cfg
  {
    var b := s.(frame := Ran(s.frame, ForkFrame(s.cfg, f)));
    AboutToFork(s, f, k, b);
    t := CreateProcess(b, b.frame.gr.r0, b.frame.gr.r1, b.frame.gr.r2);
    ChildCreated(b, k, t);
    RunFirst(s, CodeRuns(ForkFrame(s.cfg, f)), [SupervisorCall(5)], b);
    RunFirst(b, SupervisorCall(5), [], t);
  }

  lemma ChildRuns(t: KState, p: nat, k: word, a: KState)
    requires ChildReady(t, p, k) && a == Cycle(t)
    ensures Step(t, TimerInterrupt) == Running(a) && SystemOk(a) && a.cfg == t.cfg && a.sleep == []
    ensures a.running == FirstIndex(t.cfg, p) && a.ready == [1]
    ensures a.procs == t.procs && a.freeProcs == t.freeProcs && a.pidCounter == k
  {
    HeldIsAllocated(t, 1);
    Numbering(t.cfg, 1, 1);
    IndicesAgree(t, 1);
    QuietRotation(t, a);
    AwakeHealthy(t);
    HeldIsAllocated(Awake(t), 1);
    IndicesAgree(Awake(t), 1);
    StepSystemOk(t, TimerInterrupt, a);
  }

  lemma LastThreadExits(a: KState, p: nat, u: KState)
    requires Consistent(a) && 1 <= p <= a.cfg.np && a.running == FirstIndex(a.cfg, p) && a.ready == [1]
    requires a.procs[p].free == UpTo(a.cfg.nt)[1..] && u == Kill(a)
    ensures u.running == 1 && u.ready == [] && u.freeProcs == a.freeProcs + [p]
    ensures u.sleep == a.sleep && u.pidCounter == a.pidCounter && u.cfg == a.cfg
  {
    Numbering(a.cfg, p, 1);
    KillRemoves(a);
  }

  lemma ChildExits(a: KState, p: nat, k: word, u: KState)
    requires SystemOk(a) && 1 <= p <= a.cfg.np && a.running == FirstIndex(a.cfg, p) && a.ready == [1] && a.sleep == []
    requires a.procs[p].free == UpTo(a.cfg.nt)[1..] && a.pidCounter == k && u == Kill(a)
    ensures Step(a, SupervisorCall(1)) == Running(u) && Alone(u, k) && u.cfg == a.cfg
  {
    LastThreadExits(a, p, u);
    assert a.running != 0 by { Numbering(a.cfg, p, 1); }
    AwakeShape(a);
    StepSystemOk(a, SupervisorCall(1), u);
  }

  /** The first thread forks, and the child runs and exits. */
  function ForkAndExit(c: Config, f: Frame): seq<Event>
    requires ValidConfig(c)
  {
    [CodeRuns(ForkFrame(c, f)), SupervisorCall(5)] + [TimerInterrupt, SupervisorCall(1)]
  }

  /** The child runs and exits. */
  lemma ChildRound(t: KState, p: nat, k: word) returns (u: KState)
    requires ChildReady(t, p, k)
    ensures Run(t, [TimerInterrupt, SupervisorCall(1)]) == Running(u) && Alone(u, k) && u.cfg == t.cfg
  {
    var a := Cycle(t);
    ChildRuns(t, p, k, a);
    u := Kill(a);
    ChildExits(a, p, k, u);
    RunFirst(t, TimerInterrupt, [SupervisorCall(1)], a);
    RunFirst(a, SupervisorCall(1), [], u);
  }

  lemma NextIdentifier(s: KState, f: Frame, k: word) returns (u: KState)
    requires Alone(s, k) && k + 1 < WORD_LIMIT
    ensures Run(s, ForkAndExit(s.cfg, f)) == Running(u) && Alone(u, k + 1) && u.cfg == s.cfg
  {
    var t := ForkChild(s, f, k);
    u := ChildRound(t, s.freeProcs[0], k + 1);
    RunConcat(s, [CodeRuns(ForkFrame(s.cfg, f)), SupervisorCall(5)], [TimerInterrupt, SupervisorCall(1)], t);
  }

  /** Every identifier is reached with the first thread alone, by forks of processes that exit at once. */
  lemma {:induction false} ReachesAlone(s: KState, f: Frame, n: word) returns (es: seq<Event>, u: KState)
    requires Alone(s, 1) && n >= 1
    ensures Run(s, es) == Running(u) && Alone(u, n) && u.cfg == s.cfg
    decreases n
  {
    if n == 1 {
      es, u := [], s;
    } else {
      var before, b := ReachesAlone(s, f, n - 1);
      u := NextIdentifier(b, f, n - 1);
      RunConcat(s, before, ForkAndExit(s.cfg, f), b);
      es := before + ForkAndExit(s.cfg, f);
    }
  }

  lemma BootAlone(c: Config, f: Frame, s: KState)
    requires ValidConfig(c) && c.np >= 2 && Shape(Boot(c, f)) && s == Cycle(Boot(c, f))
    ensures Step(Boot(c, f), TimerInterrupt) == Running(s) && Alone(s, 1) && s.cfg == c
  {
    var b := Boot(c, f);
    BootViews(c, f);
    BootFacts(c, f, b);
    BootCoherent(c, f);
    BootTables(c, f);
    QuietRotation(b, s);
    AwakeShape(b);
    StepSystemOk(b, TimerInterrupt, s);
  }

  lemma ReachesChild(s: KState, f: Frame, n: word) returns (es: seq<Event>, r: KState, p: nat)
    requires Alone(s, 1) && n >= 2
    ensures Run(s, es) == Running(r) && ChildReady(r, p, n) && r.cfg == s.cfg
  {
    var before, b := ReachesAlone(s, f, n - 1);
    r := ForkChild(b, f, n - 1);
    p := b.freeProcs[0];
    RunConcat(s, before, [CodeRuns(ForkFrame(s.cfg, f)), SupervisorCall(5)], b);
    es := before + [CodeRuns(ForkFrame(s.cfg, f)), SupervisorCall(5)];
  }

  /** With two process indices, every identifier from 2 on is that of a process in use after some run. */
  lemma ReachesIdentifier(c: Config, f: Frame, n: word) returns (es: seq<Event>, r: KState, p: nat)
    requires ValidConfig(c) && c.np >= 2 && n >= 2
    ensures Shape(Boot(c, f)) && Run(Boot(c, f), es) == Running(r) && ChildReady(r, p, n) && r.cfg == c
  {
    var s := Cycle(Boot(c, f));
    BootAlone(c, f, s);
    es, r, p := ReachesChild(s, f, n);
    RunFirst(Boot(c, f), TimerInterrupt, es, s);
    es := [TimerInterrupt] + es;
  }

  /** The stack page of the child's first thread. */
  lemma ChildStack(r: KState, p: nat, k: word)
    requires ChildReady(r, p, k)
    ensures FrameAt(r, p, StackEntry(1)) == Mapped((r.cfg.baseMb + k) % 4096 * 256 + 2, 3, true)
  {
    assert PcbOk(r, p);
    UserPageWalk(r.cfg.baseMb + k, 2);
  }

  lemma SectionFrame(c: Config, mb: nat)
    requires ValidConfig(c) && FixedMegabyte(mb)
    ensures (mb * 256 + 2) / 256 == mb && InFixedSection(c, mb * 256 + 2)
  {
    Remainder(mb * 256 + 2, 256, mb, 2);
    SectionAt(c, mb);
  }

  lemma ChildOverSection(c: Config, r: KState, p: nat, n: word, mb: nat)
    requires ValidConfig(c) && r.cfg == c && ChildReady(r, p, n) && FixedMegabyte(mb) && n == 2 * 4096 + mb - c.baseMb
    ensures FrameAt(r, p, StackEntry(1)) == Mapped(mb * 256 + 2, 3, true)
    ensures (mb * 256 + 2) / 256 == mb && InFixedSection(c, mb * 256 + 2)
  {
    assert (c.baseMb + n) % 4096 == mb by { Remainder(c.baseMb + n, 4096, 2, mb); }
    ChildStack(r, p, n);
    SectionFrame(c, mb);
  }

  /**
   * Nothing bounds the identifiers: with two process indices, each megabyte that the boot-time table gives
   * to the kernel, to user code or to a device comes to hold a user stack of a process in use after some run.
   */
  lemma ReachesFixedMegabyte(c: Config, f: Frame, mb: nat) returns (es: seq<Event>, r: KState, p: nat)
    requires ValidConfig(c) && c.np >= 2 && FixedMegabyte(mb)
    ensures Shape(Boot(c, f)) && Run(Boot(c, f), es) == Running(r) && r.cfg == c && SystemOk(r)
    ensures 1 <= p < |r.procs| && p !in r.freeProcs
    ensures FrameAt(r, p, StackEntry(1)) == Mapped(mb * 256 + 2, 3, true)
    ensures (mb * 256 + 2) / 256 == mb && InFixedSection(c, mb * 256 + 2)
  {
    var n: word := 2 * 4096 + mb - c.baseMb;
    es, r, p := ReachesIdentifier(c, f, n);
    ChildOverSection(c, r, p, n, mb);
  }
}
