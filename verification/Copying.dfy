/** Why the copy of the arguments of a new thread halts the kernel exactly for `CopyAborts`. */
module Copying {
  import opened Words
  import opened AddressSpace
  import opened KernelState
  import opened Calls
  import opened Isolation

  /** The kernel can read the byte `k` places above `args`, with the tables as the call finds them. */
  ghost predicate ByteReads(s: KState, args: word, k: nat)
    requires Shape(s)
  {
    SystemReads(WalkOf(s, (args + k) % WORD_LIMIT))
  }

  ghost predicate CopyFaults(s: KState, args: word, argsSize: word)
    requires Shape(s)
  {
    exists k: nat :: k < argsSize && !ByteReads(s, args, k)
  }

  /** The first address above the page of a stack. */
  lemma NextPage(c: Config, slot: nat, va: word)
    requires ValidConfig(c) && slot <= c.nt && va == StackBottom(c, slot) + 4096
    ensures va / 0x10_0000 == c.baseMb && PageOf(va) % 2 == 1
  {
    var l := va - c.baseMb * 0x10_0000;
    Remainder(va, 0x10_0000, c.baseMb, l);
    Remainder(l, 4096, StackEntry(slot) + 1, 0);
  }

  lemma NextPageFaults(s: KState, slot: nat, va: word)
    requires SystemOk(s) && slot <= s.cfg.nt && va == StackBottom(s.cfg, slot) + 4096
    ensures !SystemReads(WalkOf(s, va))
  {
    assert va / 0x10_0000 == s.cfg.baseMb && PageOf(va) % 2 == 1 by { NextPage(s.cfg, slot, va); }
    OddPageFaults(s, va);
  }

  lemma ByteAt(s: KState, args: word, k: nat, va: word)
    requires Shape(s) && va == args + k
    ensures ByteReads(s, args, k) <==> SystemReads(WalkOf(s, va))
  {
    assert (args + k) % WORD_LIMIT == va;
  }

  /** The rest of the page of a stack can be read. */
  lemma PageReads(s: KState, va: word)
    requires SystemOk(s) && InStackPage(s.cfg, s.threads[s.running].index, va)
    ensures SystemReads(WalkOf(s, va))
  {
    StackWalk(s, va);
  }

  lemma ByteOfPage(s: KState, args: word, k: nat, va: word)
    requires SystemOk(s) && va == args + k && InStackPage(s.cfg, s.threads[s.running].index, va)
    ensures ByteReads(s, args, k)
  {
    PageReads(s, va);
    ByteAt(s, args, k, va);
  }

  lemma StaysInPage(c: Config, slot: nat, args: word, k: nat)
    requires ValidConfig(c) && slot <= c.nt && InStack(c, slot, args) && k < THREAD_STACK_SIZE
    ensures args + k < WORD_LIMIT && InStackPage(c, slot, args + k)
  {
    StackBounds(c, slot);
  }

  lemma LongCopyFaults(s: KState, args: word, argsSize: word)
    requires SystemOk(s) && InStack(s.cfg, s.threads[s.running].index, args) && argsSize > 4096
    ensures CopyFaults(s, args, argsSize)
  {
    var slot := s.threads[s.running].index;
    assert slot <= s.cfg.nt by { RunningThread(s); }
    StackBounds(s.cfg, slot);
    var va := StackBottom(s.cfg, slot) + 4096;
    NextPageFaults(s, slot, va);
    ByteAt(s, args, va - args, va);
  }

  /** Accepted arguments lie in the stack of the caller, and are no longer than it or far longer than a page. */
  lemma AcceptedSizes(s: KState)
    requires Shape(s) && s.threads[s.running].index <= s.cfg.nt && ArgumentsOk(s)
    ensures InStack(s.cfg, s.threads[s.running].index, s.frame.gr.r1) && s.frame.gr.r1 != 0
    ensures s.frame.gr.r2 <= THREAD_STACK_SIZE || s.frame.gr.r2 > 4096
  {
    ArgumentsExactly(s);
    StackBounds(s.cfg, s.threads[s.running].index);
  }

  /**
   * For arguments that pass the checks, the copy meets an address that the kernel cannot read exactly when
   * it is longer than a stack: up to there it stays in the stack page of the caller, and the sizes above
   * that pass are all so large that it runs into the page that follows.
   */
  lemma CopyFaultsExactly(s: KState, args: word, argsSize: word)
    requires SystemOk(s) && ArgumentsOk(s) && args == s.frame.gr.r1 && argsSize == s.frame.gr.r2
    ensures CopyFaults(s, args, argsSize) <==> CopyAborts(args, argsSize)
  {
    assert s.threads[s.running].index <= s.cfg.nt by { RunningThread(s); }
    AcceptedSizes(s);
    if argsSize > THREAD_STACK_SIZE {
      LongCopyFaults(s, args, argsSize);
    } else {
      forall k: nat | k < argsSize
        ensures ByteReads(s, args, k)
      {
        StaysInPage(s.cfg, s.threads[s.running].index, args, k);
        ByteOfPage(s, args, k, args + k);
      }
    }
  }
}
