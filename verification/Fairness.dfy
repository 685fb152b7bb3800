/** Bounded waiting in the ready ring. */
module Fairness {
  import opened Words
  import opened Counting
  import opened KernelState
  import opened Ownership
  import opened Waking
  import opened Health
  import opened Safety
  import opened AsWritten

  /** The event takes the processor from the running thread. */
  predicate GivesUp(s: KState, e: Event)
    requires Shape(s)
  {
    match e
    case TimerInterrupt => true
    case Fault => true
    case SupervisorCall(id) =>
      if id == 2 then s.uart == []
      else if id == 3 then false
      else if id == 4 then s.frame.gr.r0 != 0
      else !((id == 5 || id == 6) && ArgumentsOk(s))
    case _ => false
  }

  /** The event selects the thread at the head of the ready ring. */
  predicate Dispatches(s: KState, e: Event)
    requires Shape(s)
  {
    GivesUp(s, e) && s.ready != []
  }

  /** How the ready ring `q` may change: the head is selected on a dispatch, new threads join at the tail. */
  predicate Advanced(q: seq<nat>, dispatched: bool, r: KState)
  {
    if dispatched then q != [] && r.running == q[0] && q[1..] <= r.ready else q <= r.ready
  }

  lemma CycleAdvances(s: KState)
    requires Consistent(s) && RequeueOk(s)
    ensures s.ready != [] ==> Cycle(s).running == s.ready[0] && Cycle(s).ready == s.ready[1..] + PutBack(s.running)
    ensures s.ready == [] ==> Cycle(s) == s
  {
    if s.ready != [] {
      CycleRotates(s);
    }
  }

  lemma TimerAdvances(s: KState, r: KState)
    requires Healthy(s) && TimerCycle(s) == Running(r) && Shape(Awake(s)) && RequeueOk(Awake(s))
    ensures Advanced(s.ready, s.ready != [], r)
  {
    TimerCycleExactly(s);
    AwakeConsistent(s);
    CycleAdvances(Awake(s));
  }

  lemma KillAdvances(s: KState, r: KState)
    requires Healthy(s) && r == Kill(s)
    ensures Advanced(s.ready, s.ready != [], r)
  {
  }

  lemma CreateProcessAdvances(s: KState, func: word, args: word, argsSize: word, r: KState)
    requires Shape(s) && r == CreateProcess(s, func, args, argsSize)
    ensures s.ready <= r.ready && r.running == s.running
  {
    if s.freeProcs != [] {
      var w := CreateProcessUnfold(s, func, args, argsSize);
    }
  }

  lemma SyscallAdvances(s: KState, id: nat, r: KState)
    requires Healthy(s) && Syscall(s, id) == Running(r)
    ensures Advanced(s.ready, Dispatches(s, SupervisorCall(id)), r)
  {
    var gr := s.frame.gr;
    if id == 5 && ArgumentsOk(s) {
      CreateProcessAdvances(s, gr.r0, gr.r1, gr.r2, r);
    } else if !(2 <= id <= 4) && !(id == 6 && ArgumentsOk(s)) {
      KillAdvances(s, r);
    }
  }

  /** Every interrupt keeps the order of the ready ring: only the head leaves, only at a dispatch. */
  lemma StepAdvances(s: KState, e: Event, r: KState)
    requires Healthy(s) && Step(s, e) == Running(r) && Shape(Awake(s)) && Requeues(s, e)
    ensures Advanced(s.ready, Dispatches(s, e), r)
  {
    HaltsExactly(s, e);
    match e
    case TimerInterrupt =>
      TimerAdvances(s, r);
    case SupervisorCall(id) => SyscallAdvances(s, id, r);
    case Fault => KillAdvances(s, r);
    case UartInterrupt(received) =>
    case UnknownInterrupt =>
    case CodeRuns(_) =>
  }

  /** How many events of a run select the head of the ready ring. */
  function DispatchCount(s: KState, es: seq<Event>): nat
    requires Shape(s)
    decreases |es|
  {
    if es == [] then 0
    else
      StepShape(s, es[0]);
      (if Dispatches(s, es[0]) then 1 else 0) +
      (if Step(s, es[0]).Halted? then 0 else DispatchCount(Step(s, es[0]).s, es[1..]))
  }

  /** After `k` dispatches the entries of the ready ring have moved up by `k` places, whatever else happened. */
  lemma {:induction false} ReadyOrder(s: KState, es: seq<Event>, r: KState)
    requires Healthy(s) && IndexSafe(s, es) && Run(s, es) == Running(r)
    requires DispatchCount(s, es) <= |s.ready|
    ensures s.ready[DispatchCount(s, es)..] <= r.ready
    decreases |es|
  {
    if es != [] {
      var e := es[0];
      StepShape(s, e);
      var t := Step(s, e).s;
      SafeStep(s, es);
      StepAdvances(s, e, t);
      var d, k := if Dispatches(s, e) then 1 else 0, DispatchCount(t, es[1..]);
      assert s.ready[d..] <= t.ready;
      ReadyOrder(t, es[1..], r);
      assert s.ready[d..][k..] == s.ready[d + k..];
    }
  }

  /**
   * A thread at position `j` of the ready ring is selected at exactly the (j+1)-th dispatch: after a run
   * with `j` dispatches it is at the head, and the next dispatch runs it. There are at most as many
   * places as threads.
   */
  lemma SelectedAtItsTurn(s: KState, j: nat, es: seq<Event>, m: KState, e: Event, r: KState)
    requires Healthy(s) && IndexSafe(s, es + [e]) && j < |s.ready|
    requires Run(s, es) == Running(m) && Shape(m) && DispatchCount(s, es) == j
    requires Step(m, e) == Running(r)
    ensures m.ready != [] && m.ready[0] == s.ready[j]
    ensures Dispatches(m, e) ==> r.running == s.ready[j]
    ensures j < s.cfg.np * s.cfg.nt
  {
    if !s.cfg.requeueGlobal {
      forall i | 0 <= i < |es|
        ensures !IsFork(es[i])
      {
        assert (es + [e])[i] == es[i];
      }
    }
    ReadyOrder(s, es, m);
    RunHealthy(s, es, [e], m);
    SafeStep(m, [e]);
    StepAdvances(m, e, r);
    RingNoDup(s);
    Pigeonhole(s.ready, NThreads(s.cfg));
  }
}
