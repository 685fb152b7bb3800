/** The kernel object from power-on through whole runs: it does what `Run` says. */
module PowerOn {
  import opened Rings
  import opened Uart
  import opened KernelState
  import opened Safety
  import opened KernelObject

  /** The four index queues, over buffers of their own. */
  method StaticQueues(n: nat, np: nat)
    returns (ready: IndexQueue, sleep: IndexQueue, chars: IndexQueue, free: IndexQueue)
    ensures fresh({ready, sleep, chars, free}) && |{ready, sleep, chars, free}| == 4
    ensures fresh({ready.indices, sleep.indices, chars.indices, free.indices})
    ensures |{ready.indices, sleep.indices, chars.indices, free.indices}| == 4
    ensures ready.Valid() && sleep.Valid() && chars.Valid() && free.Valid()
    ensures ready.contents == sleep.contents == chars.contents == free.contents == []
    ensures ready.size == sleep.size == chars.size == n && free.size == np
  {
    ready := new IndexQueue(n);
    sleep := new IndexQueue(n);
    chars := new IndexQueue(n);
    free := new IndexQueue(np);
  }

  /** The static data, as the program image holds it. */
  method StaticKernel(c: Config, f: Frame) returns (k: Kernel)
    requires ValidConfig(c)
    ensures k.cfg == c && k.Blank(f) && fresh(Objects(k))
  {
    var ready, sleep, chars, free := StaticQueues(NThreads(c), c.np);
    var uart := new UartQueue(c.uartSize);
    k := new Kernel(c, f, ready, sleep, chars, free, uart);
  }

  ghost function Objects(k: Kernel): set<object>
  {
    {k, k.ready, k.sleep, k.chars, k.freeProcs, k.uart, k.threads, k.procs, k.l1,
     k.ready.indices, k.sleep.indices, k.chars.indices, k.freeProcs.indices, k.uart.chars}
  }

  /** A run of interrupts; `ok` is false when the kernel halts on the way. */
  method RunFrom(k: Kernel, es: seq<Event>) returns (ok: bool)
    requires k.Valid()
    modifies Objects(k)
    ensures ok == Run(old(k.View()), es).Running?
    ensures ok ==> k.Valid() && k.View() == Run(old(k.View()), es).s
  {
    var i := 0;
    assert es[0..] == es;
    while i < |es|
      invariant i <= |es| && k.Valid()
      invariant Run(k.View(), es[i..]) == Run(old(k.View()), es)
    {
      StepShape(k.View(), es[i]);
      assert es[i..][1..] == es[i + 1..];
      ok := k.Handle(es[i]);
      if !ok {
        return;
      }
      i := i + 1;
    }
    ok := true;
  }

  /** The kernel from power-on through a run of interrupts. */
  method RunKernel(c: Config, f: Frame, es: seq<Event>) returns (k: Kernel, ok: bool)
    requires ValidConfig(c)
    ensures Shape(Boot(c, f)) && ok == Run(Boot(c, f), es).Running?
    ensures ok ==> k.Valid() && k.View() == Run(Boot(c, f), es).s
  {
    k := StaticKernel(c, f);
    k.Start(f);
    ok := RunFrom(k, es);
  }
}
