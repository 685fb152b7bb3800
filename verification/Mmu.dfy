/**
 * Descriptor builders of driver/mmu.c, and the reading of a descriptor by the hardware
 * (ARM Architecture Reference Manual ARMv7-A, DDI 0406C, section B3.5.1).
 */
module Descriptors {
  import opened Words
  import opened Bits

  const PERM_SYS_USER_FULL: word := 3
  const PERM_SYS_USER_READ_ONLY: word := 7
  const PERM_SYS_ONLY_READ_ONLY: word := 5
  const PERM_SYS_ONLY_FULL: word := 1

  const L1_ENTRY_TYPE_L2_POINTER: word := 1
  const ENTRY_TYPE_PAGE: word := 2

  function SetPageEntryType(entry: word, entryType: word): word
  {
    if entryType == ENTRY_TYPE_PAGE then SetBit(entry, 1) else SetField(entry, 0, entryType, 2)
  }

  function OrWord(x: word, y: word): word
  {
    OrIsWord(x, y);
    Or(x, y)
  }

  function AndWord(x: word, y: word): word
  {
    AndIsSmaller(x, y);
    And(x, y)
  }

  function SetL1AccessPermission(entry: word, permission: word): word
  {
    SetField(SetField(entry, 10, permission, 2), 15, permission / 4, 1)
  }

  function SetL1BaseAddressOfIndex(entry: word, index: word): word
  {
    OrWord(AndWord(entry, 0x000fffff), Shl(index, 20) % WORD_LIMIT)
  }

  function BuildL1Section(index: word, permission: word, allowExecute: bool, allowPrivilegedExecute: bool): word
  {
    var e0 := SetPageEntryType(0, ENTRY_TYPE_PAGE);
    var e1 := SetL1BaseAddressOfIndex(e0, index);
    var e2 := SetL1AccessPermission(e1, permission);
    var e3 := if allowExecute then e2 else SetBit(e2, 4);
    if allowPrivilegedExecute then e3 else SetBit(e3, 0)
  }

  function BuildL1Pointer(l2Table: word, allowPrivilegedExecute: bool): word
  {
    var e0 := SetPageEntryType(l2Table, L1_ENTRY_TYPE_L2_POINTER);
    if allowPrivilegedExecute then e0 else SetBit(e0, 2)
  }

  function SetL2AccessPermission(entry: word, permission: word): word
  {
    SetField(SetField(entry, 4, permission, 2), 10, permission / 4, 1)
  }

  function SetL2BaseAddressOfIndex(mb: word, index: word, entry: word): word
  {
    OrWord(OrWord(AndWord(entry, 0x00000fff), Shl(index, 12) % WORD_LIMIT), Shl(mb, 20) % WORD_LIMIT)
  }

  function BuildL2Page(mb: word, index: word, permission: word, allowExecute: bool): word
  {
    var e0 := SetPageEntryType(0, ENTRY_TYPE_PAGE);
    var e1 := SetL2BaseAddressOfIndex(mb, index, e0);
    var e2 := SetL2AccessPermission(e1, permission);
    if allowExecute then e2 else SetBit(e2, 0)
  }

  function Flag(b: bool): nat
  {
    if b then 1 else 0
  }

  lemma OrAt12(index: word, l: nat)
    requires index < 256 && l < 4096
    ensures Or(l, Shl(index, 12) % WORD_LIMIT) == index * 4096 + l
  {
    assert Shl(index, 12) % WORD_LIMIT == Shl(index, 12) == 4096 * index by {
      ShlValues(index);
      Remainder(4096 * index, WORD_LIMIT, 0, 4096 * index);
    }
    assert Pow2(12) == 4096 by { Pow2Values(); }
    OrField(12, index, l);
  }

  lemma OrAt20(mb: word, l: nat)
    requires l < 0x10_0000
    ensures Or(l, Shl(mb, 20) % WORD_LIMIT) == mb % 4096 * 0x10_0000 + l
  {
    assert Pow2(20) == 0x10_0000 by { Pow2Values(); }
    ShlValues(mb);
    ShlValues(mb % 4096);
    Remainder(0x10_0000 * mb, WORD_LIMIT, mb / 4096, mb % 4096 * 0x10_0000);
    OrField(20, mb % 4096, l);
  }

  lemma BitAt0(h: nat)
    requires h % 2 == 0 && h < WORD_LIMIT
    ensures SetBit(h, 0) == h + 1
  {
    SetClearBit(h, 0, 0);
  }

  lemma BitAtTwice(h: nat, z: word)
    requires z == 2 * h
    ensures SetBit(z, 0) == z + 1
  {
    BitAt0(z);
  }

  lemma L2PermissionLow(frame: nat, x: word, permission: word, lo: nat)
    requires frame < 0x10_0000 && x == frame * 4096 + 2 && permission % 4 == lo
    ensures SetField(x, 4, permission, 2) == x + lo * 16
  {
    Pow2Values();
    ShlValues(frame * 64);
    ShlValues(4 * frame * 64);
    ShlValues(4 * (frame * 64) + permission % 4);
    SetFieldValue(frame * 64, 0, 2, 4, permission, 2);
  }

  lemma L2PermissionValue(frame: nat, x: word, permission: word, hi: word, lo: word)
    requires frame < 0x10_0000 && x == frame * 4096 + 2 && permission == hi * 4 + lo && hi < 2 && lo < 4
    ensures SetL2AccessPermission(x, permission) == x + hi * 1024 + lo * 16
  {
    L2PermissionLow(frame, x, permission, lo);
    assert Pow2(10) == 1024 && Pow2(1) == 2 by { Pow2Values(); }
    ShlValues(frame * 2);
    ShlValues(2 * frame * 2);
    ShlValues(2 * (frame * 2) + hi % 2);
    SetFieldValue(frame * 2, 0, lo * 16 + 2, 10, hi, 1);
  }

  /** The fields of an L2 small-page entry, as arithmetic. */
  lemma L2PageValue(mb: word, index: word, permission: word, allowExecute: bool, frame: nat, hi: word, lo: word)
    requires index < 256 && permission == hi * 4 + lo && hi < 2 && lo < 4 && frame == mb % 4096 * 256 + index
    ensures BuildL2Page(mb, index, permission, allowExecute)
         == frame * 4096 + hi * 1024 + lo * 16 + 2 + Flag(!allowExecute)
  {
    var x: word := frame * 4096 + 2;
    var z: word := x + hi * 1024 + lo * 16;
    assert SetL2BaseAddressOfIndex(mb, index, 2) == x by {
      Pow2Values();
      MaskLow(2, 12);
      OrAt12(index, 2);
      OrAt20(mb, index * 4096 + 2);
    }
    assert SetL2AccessPermission(x, permission) == z by { L2PermissionValue(frame, x, permission, hi, lo); }
    assert SetBit(z, 0) == z + 1 by { BitAtTwice(frame * 2048 + hi * 512 + lo * 8 + 1, z); }
  }

  lemma L1PermissionHigh(mb: nat, y: word, l: nat, hi: word)
    requires mb < 4096 && hi < 2 && l < 0x8000 && y == mb * 0x10_0000 + l
    ensures SetField(y, 15, hi, 1) == y + hi * 0x8000
  {
    assert Pow2(15) == 0x8000 && Pow2(1) == 2 by { Pow2Values(); }
    ShlValues(mb * 16);
    ShlValues(2 * mb * 16);
    ShlValues(2 * (mb * 16) + hi % 2);
    SetFieldValue(mb * 16, 0, l, 15, hi, 1);
  }

  lemma L1PermissionValue(mb: nat, x: word, y: word, permission: word)
    requires mb < 4096 && permission < 8 && x == mb * 0x10_0000 + 2 && y == x + permission % 4 * 1024
    ensures SetL1AccessPermission(x, permission) == y + permission / 4 * 0x8000
  {
    assert Pow2(10) == 1024 && Pow2(2) == 4 by { Pow2Values(); }
    ShlValues(mb * 256);
    ShlValues(4 * mb * 256);
    ShlValues(4 * (mb * 256) + permission % 4);
    SetFieldValue(mb * 256, 0, 2, 10, permission, 2);
    L1PermissionHigh(mb, y, permission % 4 * 1024 + 2, permission / 4);
  }

  lemma BitAt4(h: nat, l: nat)
    requires l < 16 && h * 32 + l + 16 < WORD_LIMIT
    ensures SetBit(h * 32 + l, 4) == h * 32 + 16 + l
  {
    assert Pow2(4) == 16 by { Pow2Values(); }
    assert Shl(2 * h, 4) == 32 * h by { ShlValues(2 * h); }
    assert Shl(2 * h + 1, 4) == 32 * h + 16 by { ShlValues(2 * h + 1); }
    SetClearBit(2 * h, l, 4);
  }

  lemma ExecuteBits(h: nat, x: word)
    requires x == h * 32 + 2 && x + 17 < WORD_LIMIT
    ensures SetBit(x, 4) == x + 16 && SetBit(x, 0) == x + 1 && SetBit(x + 16, 0) == x + 17
  {
    assert SetBit(x, 4) == x + 16 by { BitAt4(h, 2); }
    assert SetBit(x, 0) == x + 1 by { BitAtTwice(h * 16 + 1, x); }
    assert SetBit(x + 16, 0) == x + 17 by { BitAtTwice(h * 16 + 9, x + 16); }
  }

  /** The fields of an L1 section entry, as arithmetic. */
  lemma L1SectionValue(index: word, permission: word, allowExecute: bool, allowPrivilegedExecute: bool)
    requires permission < 8
    ensures BuildL1Section(index, permission, allowExecute, allowPrivilegedExecute)
         == index % 4096 * 0x10_0000 + permission / 4 * 0x8000 + permission % 4 * 1024
            + Flag(!allowExecute) * 16 + 2 + Flag(!allowPrivilegedExecute)
  {
    var mb := index % 4096;
    var x: word := mb * 0x10_0000 + 2;
    var y: word := x + permission % 4 * 1024;
    var z: word := y + permission / 4 * 0x8000;
    assert SetPageEntryType(0, ENTRY_TYPE_PAGE) == 2;
    assert SetL1BaseAddressOfIndex(2, index) == x by {
      Pow2Values();
      MaskLow(2, 20);
      OrAt20(index, 2);
    }
    assert SetL1AccessPermission(x, permission) == z by { L1PermissionValue(mb, x, y, permission); }
    ExecuteBits(mb * 0x8000 + permission % 4 * 32 + permission / 4 * 1024, z);
  }

  lemma BitAt2(h: nat, l: nat)
    requires l < 4 && h * 8 + l + 4 < WORD_LIMIT
    ensures SetBit(h * 8 + l, 2) == h * 8 + 4 + l
  {
    assert Pow2(2) == 4 by { Pow2Values(); }
    ShlValues(2 * h);
    ShlValues(2 * h + 1);
    SetClearBit(2 * h, l, 2);
  }

  /** The fields of an L1 entry that points to an aligned L2 table, as arithmetic. */
  lemma L1PointerValue(l2Table: word, allowPrivilegedExecute: bool)
    requires l2Table % 1024 == 0
    ensures BuildL1Pointer(l2Table, allowPrivilegedExecute) == l2Table + 1 + 4 * Flag(!allowPrivilegedExecute)
  {
    var h := l2Table / 1024;
    assert Pow2(2) == 4 by { Pow2Values(); }
    ShlValues(h * 256);
    SetFieldValue(h * 256, 0, 0, 0, 1, 2);
    BitAt2(h * 128, 1);
  }

  /** What the hardware reads in a first-level descriptor. */
  datatype L1Descriptor =
    | L1Fault
    | L2Pointer(table: word, pxn: bool)
    | Section(base: nat, ap: nat, xn: bool, pxn: bool)
    | Supersection

  function DecodeL1(e: word): L1Descriptor
  {
    if e % 4 == 0 then L1Fault
    else if e % 4 == 1 then L2Pointer(e - e % 1024, e / 4 % 2 == 1)
    else if e / 0x40000 % 2 == 1 then Supersection
    else Section(e / 0x10_0000, e / 0x8000 % 2 * 4 + e / 1024 % 4, e / 16 % 2 == 1, e % 2 == 1)
  }

  /** What the hardware reads in a second-level descriptor. */
  datatype L2Descriptor =
    | L2Fault
    | LargePage
    | SmallPage(frame: nat, ap: nat, xn: bool)

  function DecodeL2(e: word): L2Descriptor
  {
    if e % 4 == 0 then L2Fault
    else if e % 4 == 1 then LargePage
    else SmallPage(e / 4096, e / 512 % 2 * 4 + e / 16 % 4, e % 2 == 1)
  }

  lemma SectionFields(e: word, mb: nat, hi: nat, lo: nat, xn: bool, pxn: bool)
    requires mb < 4096 && hi < 2 && lo < 4
    requires e == mb * 0x10_0000 + hi * 0x8000 + lo * 1024 + Flag(xn) * 16 + 2 + Flag(pxn)
    ensures DecodeL1(e) == Section(mb, hi * 4 + lo, xn, pxn)
  {
    var l := Flag(xn) * 16 + 2 + Flag(pxn);
    Remainder(e, 4, mb * 0x4_0000 + hi * 0x2000 + lo * 256 + Flag(xn) * 4, 2 + Flag(pxn));
    Remainder(e, 2, mb * 0x8_0000 + hi * 0x4000 + lo * 512 + Flag(xn) * 8 + 1, Flag(pxn));
    Remainder(e, 0x10_0000, mb, hi * 0x8000 + lo * 1024 + l);
    Remainder(e, 0x4_0000, mb * 4, hi * 0x8000 + lo * 1024 + l);
    Remainder(e, 0x8000, mb * 32 + hi, lo * 1024 + l);
    Remainder(mb * 32 + hi, 2, mb * 16, hi);
    Remainder(e, 1024, mb * 1024 + hi * 32 + lo, l);
    Remainder(mb * 1024 + hi * 32 + lo, 4, mb * 256 + hi * 8, lo);
    Remainder(e, 16, mb * 0x1_0000 + hi * 0x800 + lo * 64 + Flag(xn), 2 + Flag(pxn));
    Remainder(mb * 0x1_0000 + hi * 0x800 + lo * 64 + Flag(xn), 2, mb * 0x8000 + hi * 0x400 + lo * 32, Flag(xn));
  }

  /** Decoding a section entry gives back the arguments of its builder. */
  lemma SectionRoundTrip(index: word, permission: word, allowExecute: bool, allowPrivilegedExecute: bool)
    requires permission < 8
    ensures DecodeL1(BuildL1Section(index, permission, allowExecute, allowPrivilegedExecute))
         == Section(index % 4096, permission, !allowExecute, !allowPrivilegedExecute)
  {
    var e := BuildL1Section(index, permission, allowExecute, allowPrivilegedExecute);
    L1SectionValue(index, permission, allowExecute, allowPrivilegedExecute);
    SectionFields(e, index % 4096, permission / 4, permission % 4, !allowExecute, !allowPrivilegedExecute);
  }

  /** Decoding a pointer entry gives back the table and the execute flag of its builder. */
  lemma PointerRoundTrip(l2Table: word, allowPrivilegedExecute: bool)
    requires l2Table % 1024 == 0
    ensures DecodeL1(BuildL1Pointer(l2Table, allowPrivilegedExecute)) == L2Pointer(l2Table, !allowPrivilegedExecute)
  {
    var h, f := l2Table / 1024, Flag(!allowPrivilegedExecute);
    var e := BuildL1Pointer(l2Table, allowPrivilegedExecute);
    L1PointerValue(l2Table, allowPrivilegedExecute);
    Remainder(e, 4, h * 256 + f, 1);
    Remainder(e, 1024, h, 1 + 4 * f);
    Remainder(h * 256 + f, 2, h * 128, f);
  }

  lemma SmallPageFields(e: word, frame: nat, hi: nat, lo: nat, xn: bool)
    requires frame < 0x10_0000 && hi < 2 && lo < 4
    requires e == frame * 4096 + hi * 1024 + lo * 16 + 2 + Flag(xn)
    ensures DecodeL2(e) == SmallPage(frame, lo, xn)
    ensures e / 1024 % 2 == hi && e / 16 % 4 == lo
  {
    var l := lo * 16 + 2 + Flag(xn);
    Remainder(e, 4, frame * 1024 + hi * 256 + lo * 4, 2 + Flag(xn));
    Remainder(e, 2, frame * 2048 + hi * 512 + lo * 8 + 1, Flag(xn));
    Remainder(e, 4096, frame, hi * 1024 + l);
    Remainder(e, 1024, frame * 4 + hi, l);
    Remainder(frame * 4 + hi, 2, frame * 2, hi);
    Remainder(e, 512, frame * 8 + hi * 2, l);
    Remainder(frame * 8 + hi * 2, 2, frame * 4 + hi, 0);
    Remainder(e, 16, frame * 256 + hi * 64 + lo, 2 + Flag(xn));
    Remainder(frame * 256 + hi * 64 + lo, 4, frame * 64 + hi * 16, lo);
  }

  /** The permission as the builder lays it out, with bit 2 at position 10. */
  function BuiltPermission(e: word): nat
  {
    e / 1024 % 2 * 4 + e / 16 % 4
  }

  /**
   * Decoding a small-page entry gives back frame and execute flag. The builder stores bit 2 of the
   * permission at position 10, which section B3.5.1 gives to the shareable flag; the hardware reads
   * the permission that was asked for exactly when that bit is 0.
   */
  lemma SmallPageRoundTrip(mb: word, index: word, permission: word, allowExecute: bool)
    requires index < 256 && permission < 8
    ensures DecodeL2(BuildL2Page(mb, index, permission, allowExecute))
         == SmallPage(mb % 4096 * 256 + index, permission % 4, !allowExecute)
    ensures BuiltPermission(BuildL2Page(mb, index, permission, allowExecute)) == permission
    ensures DecodeL2(BuildL2Page(mb, index, permission, allowExecute)).ap == permission <==> permission < 4
  {
    var e := BuildL2Page(mb, index, permission, allowExecute);
    L2PageValue(mb, index, permission, allowExecute, mb % 4096 * 256 + index, permission / 4, permission % 4);
    SmallPageFields(e, mb % 4096 * 256 + index, permission / 4, permission % 4, !allowExecute);
  }

  /** An entry after `switch_memory`: the low byte of the old entry under the address of the new table. */
  function SwitchEntry(entry: word, l2Table: word): word
  {
    l2Table - l2Table % 256 + entry % 256
  }

  /** The mask-and-or of `switch_memory` computes just that. */
  lemma SwitchEntryIsMaskAndOr(entry: word, l2Table: word)
    ensures SwitchEntry(entry, l2Table) == OrWord(AndWord(entry, 0x000000ff), AndWord(l2Table, 0xffffff00))
  {
    assert Pow2(8) == 256 by { Pow2Values(); }
    MaskLow(entry, 8);
    MaskHigh24(l2Table);
    ShlFour(l2Table / 256, 0);
    ShlFour(l2Table / 256, 4);
    OrField(8, l2Table / 256, entry % 256);
  }

  /** For aligned tables, repointing an entry equals building the entry of the new table. */
  lemma SwitchIsFreshBuild(from: word, to: word, px: bool)
    requires from % 1024 == 0 && to % 1024 == 0
    ensures SwitchEntry(BuildL1Pointer(from, px), to) == BuildL1Pointer(to, px)
  {
    var l := 1 + 4 * Flag(!px);
    L1PointerValue(from, px);
    L1PointerValue(to, px);
    SwitchValue(from + l, from / 1024 * 4, to, l);
  }

  lemma SwitchValue(e: word, q: nat, to: word, l: nat)
    requires to % 1024 == 0 && l < 256 && e == q * 256 + l
    ensures SwitchEntry(e, to) == to + l
  {
    Remainder(e, 256, q, l);
    Remainder(to, 256, to / 1024 * 4, 0);
  }
}
