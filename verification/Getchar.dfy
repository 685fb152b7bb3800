/** Blocking getchar linearises as a queue: the i-th request gets the i-th accepted character. */
module Getchar {
  import opened Words
  import opened Uart
  import opened KernelState
  import opened Ownership
  import opened Waking
  import opened Health
  import opened Safety
  import opened Context
  import opened AsWritten

  /** A delivery: the thread and the value that it then finds in r0. */
  datatype Delivery = Delivery(thread: nat, value: word)

  /** What a run has seen: characters put into the buffer, getchar requests, and deliveries, in order. */
  datatype Log = Log(accepted: seq<byte>, requests: seq<nat>, deliveries: seq<Delivery>)

  const NO_LOG := Log([], [], [])

  function R0(s: KState, g: nat): word
    requires g < |s.threads|
  {
    ViewOf(s, g).gr.r0
  }

  /** The log after an event that leads from `s` to `r`; a delivered value is read off the new state. */
  function NextLog(s: KState, e: Event, r: KState, l: Log): Log
    requires Shape(s) && Shape(r) && r.cfg == s.cfg
  {
    match e
    case UartInterrupt(Some(c)) =>
      if |s.uart| >= s.cfg.uartSize then l
      else
        var l1 := l.(accepted := l.accepted + [c]);
        if s.chars == [] then l1
        else l1.(deliveries := l.deliveries + [Delivery(s.chars[0], R0(r, s.chars[0]))])
    case SupervisorCall(id) =>
      if id != 2 then l
      else
        var l1 := l.(requests := l.requests + [s.running]);
        if s.uart == [] then l1
        else l1.(deliveries := l.deliveries + [Delivery(s.running, R0(r, s.running))])
    case _ => l
  }

  /** The threads and the values of the deliveries. */
  function Threads(ds: seq<Delivery>): (q: seq<nat>)
    ensures |q| == |ds| && forall i :: 0 <= i < |ds| ==> q[i] == ds[i].thread
  {
    seq(|ds|, (i: nat) requires i < |ds| => ds[i].thread)
  }

  function Values(ds: seq<Delivery>): (q: seq<word>)
    ensures |q| == |ds| && forall i :: 0 <= i < |ds| ==> q[i] == ds[i].value
  {
    seq(|ds|, (i: nat) requires i < |ds| => ds[i].value)
  }

  /** Requests are served in order, characters are handed out in order, and none is lost or made up. */
  predicate Linear(s: KState, l: Log)
  {
    && l.accepted == Values(l.deliveries) + s.uart
    && l.requests == Threads(l.deliveries) + s.chars
    && (s.chars == [] || s.uart == [])
  }

  lemma Deliver(ds: seq<Delivery>, d: Delivery)
    ensures Threads(ds + [d]) == Threads(ds) + [d.thread]
    ensures Values(ds + [d]) == Values(ds) + [d.value]
  {
  }

  // ---- The UART buffer and the waiting ring across a step ----

  lemma TimerInput(s: KState, r: KState)
    requires Healthy(s) && TimerCycle(s) == Running(r) && Shape(Awake(s)) && RequeueOk(Awake(s))
    ensures r.uart == s.uart && r.chars == s.chars
  {
    TimerCycleExactly(s);
    AwakeConsistent(s);
    CycleRings(Awake(s));
  }

  lemma QuietInput(s: KState, e: Event, r: KState)
    requires Healthy(s) && Step(s, e) == Running(r) && Shape(Awake(s)) && Requeues(s, e)
    requires !e.UartInterrupt? && !(e.SupervisorCall? && e.id == 2)
    ensures r.uart == s.uart && r.chars == s.chars
  {
    match e
    case TimerInterrupt =>
      TimerCycleExactly(s);
      TimerInput(s, r);
    case SupervisorCall(id) => QuietCall(s, id, r);
    case Fault =>
    case UnknownInterrupt =>
    case CodeRuns(_) =>
  }

  lemma SleepInput(s: KState, d: word, r: KState)
    requires Healthy(s) && OnSleep(s, d) == Running(r)
    ensures r.uart == s.uart && r.chars == s.chars
  {
    if d != 0 {
      BlockHealthy(s, SleepRing, Cycle(Parked(s, SleepRing)));
    }
  }

  lemma ForkInput(s: KState, func: word, args: word, argsSize: word, r: KState)
    requires Shape(s) && r == CreateProcess(s, func, args, argsSize)
    ensures r.uart == s.uart && r.chars == s.chars
  {
    if s.freeProcs != [] {
      var w := CreateProcessUnfold(s, func, args, argsSize);
    }
  }

  lemma QuietCall(s: KState, id: nat, r: KState)
    requires Healthy(s) && Syscall(s, id) == Running(r) && id != 2
    ensures r.uart == s.uart && r.chars == s.chars
  {
    var gr := s.frame.gr;
    if id == 4 {
      SleepInput(s, gr.r0, r);
    } else if id == 5 && ArgumentsOk(s) {
      ForkInput(s, gr.r0, gr.r1, gr.r2, r);
    }
  }

  /** Every interrupt keeps the log linear. */
  lemma StepLinear(s: KState, e: Event, r: KState, l: Log)
    requires Healthy(s) && Step(s, e) == Running(r) && Shape(Awake(s)) && Requeues(s, e)
    requires Linear(s, l) && Shape(r) && r.cfg == s.cfg && Input(r)
    ensures Linear(r, NextLog(s, e, r, l))
  {
    HaltsExactly(s, e);
    match e
    case UartInterrupt(received) =>
      if received.Some? && |s.uart| < s.cfg.uartSize {
        UartLinear(s, received.value, r, l);
      }
    case SupervisorCall(id) =>
      if id == 2 {
        GetCharLinear(s, r, l);
      } else {
        QuietInput(s, e, r);
      }
    case _ => QuietInput(s, e, r);
  }

  lemma UartLinear(s: KState, c: byte, r: KState, l: Log)
    requires Healthy(s) && r == UartIrq(s, Some(c)) && |s.uart| < s.cfg.uartSize && Linear(s, l)
    ensures Shape(r) && r.cfg == s.cfg && Linear(r, NextLog(s, UartInterrupt(Some(c)), r, l))
  {
    if s.chars != [] {
      assert s.chars[0] in s.chars;
      HeldOnce(s, s.chars[0]);
      assert ([] + [c])[1..] == [];
    }
    if s.chars != [] {
      Deliver(l.deliveries, Delivery(s.chars[0], R0(r, s.chars[0])));
      assert s.chars == [s.chars[0]] + s.chars[1..];
    }
  }

  lemma GetCharInput(s: KState, r: KState)
    requires Healthy(s) && GetChar(s) == Running(r)
    ensures Shape(r) && r.cfg == s.cfg
    ensures s.uart == [] ==> r.uart == [] && r.chars == s.chars + [s.running]
    ensures s.uart != [] ==> r.uart == s.uart[1..] && r.chars == s.chars && R0(r, s.running) == s.uart[0]
  {
    GetCharHealthy(s);
    if s.uart == [] {
      BlockHealthy(s, CharRing, Cycle(Parked(s, CharRing)));
    }
  }

  lemma GetCharLinear(s: KState, r: KState, l: Log)
    requires Healthy(s) && GetChar(s) == Running(r) && Linear(s, l)
    ensures Shape(r) && r.cfg == s.cfg && Linear(r, NextLog(s, SupervisorCall(2), r, l))
  {
    GetCharInput(s, r);
    if s.uart != [] {
      Deliver(l.deliveries, Delivery(s.running, R0(r, s.running)));
      assert s.uart == [s.uart[0]] + s.uart[1..];
    }
  }

  /** The log of a run. */
  function RunLog(s: KState, es: seq<Event>, l: Log): Log
    requires Shape(s)
    decreases |es|
  {
    if es == [] then l
    else
      StepShape(s, es[0]);
      StepKeepsConfig(s, es[0]);
      match Step(s, es[0])
      case Halted => l
      case Running(r) => RunLog(r, es[1..], NextLog(s, es[0], r, l))
  }

  lemma {:induction false} RunLinear(s: KState, es: seq<Event>, l: Log, r: KState)
    requires Healthy(s) && IndexSafe(s, es) && Linear(s, l) && Run(s, es) == Running(r)
    ensures Linear(r, RunLog(s, es, l))
    decreases |es|
  {
    if es != [] {
      var e := es[0];
      StepShape(s, e);
      var t := Step(s, e).s;
      SafeStep(s, es);
      StepLinear(s, e, t, l);
      RunLinear(t, es[1..], NextLog(s, e, t, l), r);
    }
  }

  /**
   * From power-on: the i-th delivery goes to the i-th request and carries the i-th accepted character,
   * whether the request had to wait or not; requests are left over only when every accepted character
   * has been delivered.
   */
  lemma RequestsInOrder(c: Config, f: Frame, es: seq<Event>, r: KState)
    requires BootRun(c, f, es, r)
    ensures var l := RunLog(Boot(c, f), es, NO_LOG);
            && |l.deliveries| <= |l.requests| && |l.deliveries| <= |l.accepted|
            && (forall i :: 0 <= i < |l.deliveries| ==> l.deliveries[i] == Delivery(l.requests[i], l.accepted[i]))
            && (|l.requests| > |l.deliveries| ==> |l.accepted| == |l.deliveries|)
  {
    var s := Boot(c, f);
    BootSafe(c, f, es);
    assert Linear(s, NO_LOG);
    RunLinear(s, es, NO_LOG, r);
  }

  /** A thread is never dropped for want of a character: whenever one is taken off the ring, it gets one. */
  lemma NoAccidentalIrq(s: KState, received: Option<byte>)
    requires Healthy(s)
    ensures var r := UartIrq(s, received);
            r.chars != s.chars ==>
              && received.Some? && s.chars != [] && r.chars == s.chars[1..] && r.ready == s.ready + [s.chars[0]]
              && r.threads[s.chars[0]].state == READY
  {
    UartHealthy(s, received);
    if received.Some? && s.chars != [] {
      WokenConsistent(s);
      assert s.chars[0] in s.chars;
      HeldIsAllocated(s, s.chars[0]);
    }
  }
}
