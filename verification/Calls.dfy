/** Which arguments `fork` and `create_thread` accept, and where they put the stack pointer of the new thread. */
module Calls {
  import opened Words
  import opened AddressSpace
  import opened KernelState
  import opened Context

  /** The lowest address of the stack of a slot. */
  function StackBottom(c: Config, slot: nat): nat
  {
    c.baseMb * 0x10_0000 + slot * 0x2000 + 0x2000
  }

  lemma StackBounds(c: Config, slot: nat)
    requires ValidConfig(c) && slot <= c.nt
    ensures MaxStackPointer(c.baseMb, c.nt, slot) == StackBottom(c, slot)
    ensures StackPointer(c.baseMb, c.nt, slot) == StackBottom(c, slot) + 0x400 < WORD_LIMIT
    ensures StackBottom(c, slot) % 4 == 0
  {
  }

  /** The block sizes that pass when the argument pointer is `up` bytes above the bottom of the caller's stack. */
  predicate SizePasses(up: nat, size: word)
  {
    size % 4 == 0 && (up + 4 - THREAD_STACK_SIZE < size <= up + 4 || size > WORD_LIMIT - (THREAD_STACK_SIZE - 4 - up))
  }

  lemma Wrapped(d: int)
    requires -WORD_LIMIT <= d < WORD_LIMIT
    ensures d % WORD_LIMIT == if d < 0 then d + WORD_LIMIT else d
  {
  }

  lemma MultipleOfFour(a: nat, size: nat, p: nat)
    requires a % 4 == 0 && (p == a - size || p == a - size + WORD_LIMIT)
    ensures p % 4 == 0 <==> size % 4 == 0
  {
    var q, r := size / 4, size % 4;
    var m := if p == a - size then a / 4 - q else a / 4 - q + WORD_LIMIT / 4;
    if r == 0 {
      Remainder(p, 4, m, 0);
    } else {
      Remainder(p, 4, m - 1, 4 - r);
    }
  }

  /** The second pointer check, as arithmetic. */
  lemma SizeCheck(bottom: nat, up: nat, size: word)
    requires bottom % 4 == 0 && up % 4 == 0 && up < THREAD_STACK_SIZE
    requires 4 <= bottom && bottom + THREAD_STACK_SIZE < WORD_LIMIT
    ensures var p := (bottom + up - (size - 4)) % WORD_LIMIT;
            p % 4 == 0 && bottom <= p < bottom + THREAD_STACK_SIZE <==> SizePasses(up, size)
  {
    var d := bottom + up - (size - 4);
    Wrapped(d);
    MultipleOfFour(bottom + up + 4, size, d % WORD_LIMIT);
  }

  /**
   * A call passes the checks exactly when the function is aligned, the pointer is aligned and in the
   * caller's stack, and the size is a multiple of four that reaches down at most to the bottom of that
   * stack (0 passes below the topmost word only), or one so large that the subtraction wraps back into it.
   */
  lemma ArgumentsExactly(s: KState)
    requires Shape(s) && s.threads[s.running].index <= s.cfg.nt
    ensures var gr := s.frame.gr;
            var bottom := StackBottom(s.cfg, s.threads[s.running].index);
            ArgumentsOk(s) <==>
              && gr.r0 % 4 == 0 && gr.r1 % 4 == 0
              && bottom <= gr.r1 < bottom + THREAD_STACK_SIZE && SizePasses(gr.r1 - bottom, gr.r2)
  {
    var bottom, gr := StackBottom(s.cfg, s.threads[s.running].index), s.frame.gr;
    StackBounds(s.cfg, s.threads[s.running].index);
    if gr.r1 % 4 == 0 && bottom <= gr.r1 < bottom + THREAD_STACK_SIZE {
      SizeCheck(bottom, gr.r1 - bottom, gr.r2);
    }
  }

  /** A thread that is created with arguments starts inside its stack exactly when they fit there. */
  lemma NewStackPointer(c: Config, slot: nat, func: word, args: word, argsSize: word)
    requires ValidConfig(c) && slot <= c.nt && args != 0 && argsSize != 0
    ensures var sp := InitialView(c, slot, func, args, argsSize).gr.sp;
            argsSize <= THREAD_STACK_SIZE <==>
              MaxStackPointer(c.baseMb, c.nt, slot) <= sp <= StackPointer(c.baseMb, c.nt, slot)
  {
    StackBounds(c, slot);
    var top := StackPointer(c.baseMb, c.nt, slot);
    if argsSize > top {
      assert (top - argsSize) % WORD_LIMIT == top - argsSize + WORD_LIMIT;
    }
  }
}
