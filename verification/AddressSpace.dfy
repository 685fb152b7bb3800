/** The translation tables that driver/mmu.c fills, the stacks of system/thread.c, and the page walk. */
module AddressSpace {
  import opened Words
  import opened Descriptors

  const N_L1_ENTRIES: nat := 4096
  const N_L2_ENTRIES: nat := 256
  const THREAD_STACK_SIZE: nat := 0x400

  function Zeros(n: nat): (z: seq<word>)
    ensures |z| == n && forall i :: 0 <= i < n ==> z[i] == 0
  {
    seq(n, (i: nat) => 0)
  }

  type L1Table = t: seq<word> | |t| == 4096 witness Zeros(4096)
  type L2Table = t: seq<word> | |t| == 256 witness Zeros(256)

  /** The entry of a page of user data or of a user stack: read-write for all, never executable. */
  function UserPage(mb: nat, page: nat): word
    requires page < N_L2_ENTRIES
  {
    (mb % 4096 * 256 + page) * 4096 + 51
  }

  /** That is what the builder returns, whose megabyte argument is a 32-bit sum. */
  lemma UserPageIsBuilt(mb: nat, page: nat)
    requires page < N_L2_ENTRIES
    ensures BuildL2Page(mb % WORD_LIMIT, page, PERM_SYS_USER_FULL, false) == UserPage(mb, page)
  {
    var q, r := mb / WORD_LIMIT, mb % WORD_LIMIT;
    Remainder(mb, 4096, q * 0x10_0000 + r / 4096, r % 4096);
    L2PageValue(mb % WORD_LIMIT, page, PERM_SYS_USER_FULL, false, (mb % WORD_LIMIT) % 4096 * 256 + page, 0, 3);
  }

  /** The table that `init_process_memory` leaves. */
  function ProcessTable(baseMb: nat, processIndex: nat): L2Table
  {
    Zeros(N_L2_ENTRIES)[0 := UserPage(baseMb + processIndex, 0)]
  }

  /** The position in the table of the stack page of a thread slot. */
  function StackEntry(slot: nat): nat
  {
    slot * 2 + 1 + 1
  }

  /** The table that `init_thread_memory` leaves. */
  function ThreadTable(table: L2Table, baseMb: nat, pid: nat, slot: nat): L2Table
    requires StackEntry(slot) < N_L2_ENTRIES
  {
    table[StackEntry(slot) := UserPage(baseMb + pid, slot + 1)]
  }

  /** `memset(table, 0, ...)`. */
  method Clear(table: array<word>)
    modifies table
    ensures table[..] == Zeros(table.Length)
    ensures forall i :: 0 <= i < table.Length ==> table[i] == 0
  {
    var i := 0;
    while i < table.Length
      invariant 0 <= i <= table.Length
      invariant forall j :: 0 <= j < i ==> table[j] == 0
    {
      table[i] := 0;
      i := i + 1;
    }
  }

  method InitProcessMemory(l2Table: array<word>, baseMb: nat, processIndex: nat)
    requires l2Table.Length == N_L2_ENTRIES
    modifies l2Table
    ensures l2Table[..] == ProcessTable(baseMb, processIndex)
  {
    Clear(l2Table);
    UserPageIsBuilt(baseMb + processIndex, 0);
    l2Table[0] := BuildL2Page((baseMb + processIndex) % WORD_LIMIT, 0, PERM_SYS_USER_FULL, false);
  }

  method InitThreadMemory(l2Table: array<word>, baseMb: nat, pid: nat, slot: nat)
    requires l2Table.Length == N_L2_ENTRIES && StackEntry(slot) < N_L2_ENTRIES
    modifies l2Table
    ensures l2Table[..] == ThreadTable(old(l2Table[..]), baseMb, pid, slot)
  {
    UserPageIsBuilt(baseMb + pid, slot + 1);
    var entry := BuildL2Page((baseMb + pid) % WORD_LIMIT, slot + 1, PERM_SYS_USER_FULL, false);
    var index := slot * 2 + 1 + 1;
    l2Table[index] := entry;
  }

  /** The entry of a megabyte after `init_l1`. */
  function BootEntry(mb: nat, baseMb: nat, initTable: word): word
  {
    if mb == 0x3F0 || mb == 0x3F2 || mb == 0x400 then BuildL1Section(mb, PERM_SYS_ONLY_FULL, false, false)
    else if mb == baseMb then BuildL1Pointer(initTable, false)
    else if mb == 0 || mb == 1 then BuildL1Section(mb, PERM_SYS_ONLY_READ_ONLY, true, true)
    else if mb == 2 || mb == 3 then BuildL1Section(mb, PERM_SYS_ONLY_FULL, false, false)
    else if mb == 4 then BuildL1Section(mb, PERM_SYS_USER_READ_ONLY, true, false)
    else 0
  }

  /** The L1 table after `init_l1`. */
  function BootL1(baseMb: nat, initTable: word): L1Table
  {
    seq(N_L1_ENTRIES, (mb: nat) => BootEntry(mb, baseMb, initTable))
  }

  /** The megabytes of the L1 table that `init_l1` gives to the kernel, user code and devices. */
  predicate FixedMegabyte(mb: nat)
  {
    mb <= 4 || mb == 0x3F0 || mb == 0x3F2 || mb == 0x400
  }

  method InitL1(l1: array<word>, baseMb: nat, initTable: word)
    requires l1.Length == N_L1_ENTRIES && 4 < baseMb < N_L1_ENTRIES
    modifies l1
    ensures l1[..] == BootL1(baseMb, initTable)
  {
    Clear(l1);
    l1[0] := BuildL1Section(0, PERM_SYS_ONLY_READ_ONLY, true, true);
    l1[1] := BuildL1Section(1, PERM_SYS_ONLY_READ_ONLY, true, true);
    l1[2] := BuildL1Section(2, PERM_SYS_ONLY_FULL, false, false);
    l1[3] := BuildL1Section(3, PERM_SYS_ONLY_FULL, false, false);
    l1[4] := BuildL1Section(4, PERM_SYS_USER_READ_ONLY, true, false);
    l1[baseMb] := BuildL1Pointer(initTable, false);
    l1[0x3F0] := BuildL1Section(0x3F0, PERM_SYS_ONLY_FULL, false, false);
    l1[0x3F2] := BuildL1Section(0x3F2, PERM_SYS_ONLY_FULL, false, false);
    l1[0x400] := BuildL1Section(0x400, PERM_SYS_ONLY_FULL, false, false);
    forall mb | 0 <= mb < N_L1_ENTRIES
      ensures l1[mb] == BootEntry(mb, baseMb, initTable)
    {
    }
  }

  /** `switch_memory`: only the user-data entry changes. */
  function SwitchedMemory(l1: L1Table, baseMb: nat, l2Table: word): L1Table
    requires baseMb < N_L1_ENTRIES
  {
    l1[baseMb := SwitchEntry(l1[baseMb], l2Table)]
  }

  method SwitchMemory(l1: array<word>, baseMb: nat, l2Table: word)
    requires l1.Length == N_L1_ENTRIES && baseMb < N_L1_ENTRIES
    modifies l1
    ensures l1[..] == SwitchedMemory(old(l1[..]), baseMb, l2Table)
  {
    SwitchEntryIsMaskAndOr(l1[baseMb], l2Table);
    l1[baseMb] := AndWord(l1[baseMb], 0x000000ff);
    l1[baseMb] := OrWord(l1[baseMb], AndWord(l2Table, 0xffffff00));
  }

  /** `get_stack_pointer`: the address just above the stack of a slot, or NULL. */
  function StackPointer(baseMb: nat, maxSlots: nat, slot: nat): nat
  {
    if slot > maxSlots then 0
    else if slot * THREAD_STACK_SIZE > baseMb * 0x10_0000 then 0
    else baseMb * 0x10_0000 + slot * 0x2000 + 0x1000 + 0x1000 + THREAD_STACK_SIZE
  }

  /** `get_max_stack_pointer`: the lowest address of the stack of a slot (32-bit address arithmetic). */
  function MaxStackPointer(baseMb: nat, maxSlots: nat, slot: nat): nat
  {
    (StackPointer(baseMb, maxSlots, slot) + WORD_LIMIT - THREAD_STACK_SIZE) % WORD_LIMIT
  }

  /** The outcome of a page walk for one virtual address. */
  datatype Walk =
    | TranslationFault
    | Mapped(frame: nat, ap: nat, xn: bool)
    | OtherFormat // large page, supersection, or a table outside the model

  /** The page walk: the table for VA[31:20], then for a pointer entry the table for VA[19:12]. */
  function Translate(l1: L1Table, tables: map<word, L2Table>, va: word): Walk
  {
    var page := va % 0x10_0000 / 4096;
    match DecodeL1(l1[va / 0x10_0000])
    case L1Fault => TranslationFault
    case Section(base, ap, xn, _) => Mapped(base * 256 + page, ap, xn)
    case Supersection => OtherFormat
    case L2Pointer(table, _) => if table in tables then SmallPageWalk(tables[table][page]) else OtherFormat
  }

  function SmallPageWalk(e: word): Walk
  {
    match DecodeL2(e)
    case L2Fault => TranslationFault
    case LargePage => OtherFormat
    case SmallPage(frame, ap, xn) => Mapped(frame, ap, xn)
  }

  /** What AP[2:0] grants to user mode. */
  predicate UserReads(w: Walk)
  {
    w.Mapped? && w.ap in {2, 3, 6, 7}
  }

  /** What it grants to the kernel. */
  predicate SystemReads(w: Walk)
  {
    w.Mapped? && w.ap in {1, 2, 3, 5, 6, 7}
  }

  predicate SystemWrites(w: Walk)
  {
    w.Mapped? && w.ap in {1, 2, 3}
  }

  predicate UserWrites(w: Walk)
  {
    w.Mapped? && w.ap == 3
  }

  predicate UserExecutes(w: Walk)
  {
    UserReads(w) && !w.xn
  }

  /** A user page walks to its frame, read-write for the user and never executable. */
  lemma UserPageWalk(mb: nat, page: nat)
    requires page < 256
    ensures SmallPageWalk(UserPage(mb, page)) == Mapped(mb % 4096 * 256 + page, 3, true)
  {
    SmallPageFields(UserPage(mb, page), mb % 4096 * 256 + page, 0, 3, true);
  }
}
