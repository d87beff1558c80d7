/** The register file: seventeen `i32` slots r0..r12, sp, lr, pc and apsr, addressed by a
  * numeric `u16` index or by a Capstone `RegId`. Slot `k` of the model is the field that
  * numeric index `k` selects. */
module Registers {
  import opened Faults
  import opened Words
  import opened Capstone

  const SP: nat := 13
  const LR: nat := 14
  const PC: nat := 15
  const STATUS: nat := 16

  /** The seventeen slots in field order. */
  type File = s: seq<I32> | |s| == 17 witness seq(17, _ => 0)

  /** `Index<u16>` and `IndexMut<u16>` share this mapping: index `k` in 0..16 selects slot
    * `k` (r0..r12, then sp, lr, pc, apsr); any other index panics. */
  function IndexSlot(index: U16): (r: Result<nat>)
    ensures r.Ok? <==> index <= 16
    ensures r.Ok? ==> r.value == index
    ensures r.Panic? ==> r.fault == IndexOutOfBounds
  {
    if index <= 16 then Ok(index) else Panic(IndexOutOfBounds)
  }

  /** Whether `Index<&RegId>` accepts the register. */
  predicate Addressable(c: Ids, id: RegId) {
    c.InGeneralRange(id.raw) || id.raw in {c.r13, c.r14, c.r15, c.apsr}
  }

  /** The `RegId` mapping, in match order: R0..R12 go through the numeric index
    * `id - R0`, then R13, R14, R15 and APSR name sp, lr, pc and apsr; anything else,
    * SPSR included, panics. */
  function IdSlot(c: Ids, id: RegId): (r: Result<nat>)
    ensures r.Ok? <==> Addressable(c, id)
    ensures r.Ok? ==> r.value <= 16
    ensures r.Panic? ==> r.fault == IndexOutOfBounds
  {
    var reg := id.raw;
    if c.r0 <= reg && reg <= c.r12 then IndexSlot(reg - c.r0)
    else if reg == c.r13 then Ok(SP)
    else if reg == c.r14 then Ok(LR)
    else if reg == c.r15 then Ok(PC)
    else if reg == c.apsr then Ok(STATUS)
    else Panic(IndexOutOfBounds)
  }

  /** The register that names slot `k`: the inverse of `IdSlot`. */
  function SlotId(c: Ids, k: nat): RegId
    requires k <= 16
  {
    if k <= 12 then General(c, k) else if k == SP then Sp(c) else if k == LR then Lr(c)
    else if k == PC then Pc(c) else ApsrId(c)
  }

  /** Every slot has exactly one register naming it. */
  lemma IdSlotBijective(c: Ids, id: RegId, k: nat)
    requires k <= 16
    ensures IdSlot(c, SlotId(c, k)) == Ok(k)
    ensures IdSlot(c, id) == Ok(k) ==> id == SlotId(c, k)
  {
  }

  /** SPSR has no slot, so reading or writing it through its `RegId` panics. */
  lemma SpsrHasNoSlot(c: Ids)
    ensures IdSlot(c, SpsrId(c)) == Panic(IndexOutOfBounds)
  {
  }

  /** Two files that differ in at most one slot. */
  predicate AtMostOneSlotChanged(s: File, t: File) {
    forall i, j | 0 <= i < j < 17 :: s[i] == t[i] || s[j] == t[j]
  }

  /** `regs[index]` on a file. */
  function ReadIndex(s: File, index: U16): (r: Result<I32>)
    ensures r.Ok? <==> index <= 16
    ensures r.Ok? ==> r.value == s[index]
  {
    var k :- IndexSlot(index);
    Ok(s[k])
  }

  /** `regs[index] = v` on a file. */
  function WriteIndex(s: File, index: U16, v: I32): (r: Result<File>)
    ensures r.Ok? <==> index <= 16
    ensures r.Ok? ==> r.value == s[index := v]
    ensures r.Ok? ==> AtMostOneSlotChanged(s, r.value)
  {
    var k :- IndexSlot(index);
    Ok(s[k := v])
  }

  /** `regs[&id]` on a file. */
  function ReadId(c: Ids, s: File, id: RegId): (r: Result<I32>)
    ensures r.Ok? <==> Addressable(c, id)
    ensures r.Panic? ==> r.fault == IndexOutOfBounds
    ensures r.Ok? ==> r.value == s[IdSlot(c, id).value]
  {
    var k :- IdSlot(c, id);
    Ok(s[k])
  }

  /** `regs[&id] = v` on a file. */
  function WriteId(c: Ids, s: File, id: RegId, v: I32): (r: Result<File>)
    ensures r.Ok? <==> Addressable(c, id)
    ensures r.Panic? ==> r.fault == IndexOutOfBounds
    ensures r.Ok? ==> r.value == s[IdSlot(c, id).value := v]
    ensures r.Ok? ==> AtMostOneSlotChanged(s, r.value)
  {
    var k :- IdSlot(c, id);
    Ok(s[k := v])
  }

  /** After a numeric write, that index reads the new value and every other index reads
    * what it read before. */
  lemma ReadAfterWriteIndex(s: File, i: U16, j: U16, v: I32)
    requires i <= 16
    ensures ReadIndex(WriteIndex(s, i, v).value, i) == Ok(v)
    ensures j != i ==> ReadIndex(WriteIndex(s, i, v).value, j) == ReadIndex(s, j)
  {
  }

  /** After a write through a `RegId`, that register reads the new value, every other
    * register reads what it read before, and the one slot written is the one `IdSlot`
    * names: the read and write mappings agree. */
  lemma ReadAfterWriteId(c: Ids, s: File, id: RegId, other: RegId, v: I32)
    requires Addressable(c, id)
    ensures ReadId(c, WriteId(c, s, id, v).value, id) == Ok(v)
    ensures other != id ==> ReadId(c, WriteId(c, s, id, v).value, other) == ReadId(c, s, other)
    ensures WriteId(c, s, id, v).value == s[IdSlot(c, id).value := v]
  {
    IdSlotBijective(c, id, IdSlot(c, id).value);
    if other != id && Addressable(c, other) {
      IdSlotBijective(c, other, IdSlot(c, other).value);
    }
  }

  /** The `Registers` struct: seventeen mutable `i32` fields, held as an array. */
  class Registers {
    const slots: array<I32>

    ghost predicate Valid() { slots.Length == 17 }

    /** `Registers::new()`: every register is zero. */
    constructor ()
      ensures Valid() && fresh(slots)
      ensures Contents() == seq(17, _ => 0)
    {
      slots := new I32[17](_ => 0);
    }

    function Contents(): File
      reads slots
      requires Valid()
    {
      slots[..]
    }

    /** `Index<u16>`. */
    function Index(index: U16): (r: Result<I32>)
      reads slots
      requires Valid()
      ensures r == ReadIndex(Contents(), index)
    {
      var k :- IndexSlot(index);
      Ok(slots[k])
    }

    /** `Index<&RegId>`. */
    function IndexId(c: Ids, id: RegId): (r: Result<I32>)
      reads slots
      requires Valid()
      ensures r == ReadId(c, Contents(), id)
    {
      var k :- IdSlot(c, id);
      Ok(slots[k])
    }

    /** `regs[index] = v` through `IndexMut<u16>`: on success exactly that slot changes; on
      * a panic nothing does. */
    method SetIndex(index: U16, v: I32) returns (r: Result<()>)
      requires Valid()
      modifies slots
      ensures r.Ok? <==> WriteIndex(old(Contents()), index, v).Ok?
      ensures r.Ok? ==> Contents() == WriteIndex(old(Contents()), index, v).value
      ensures r.Panic? ==> r.fault == IndexOutOfBounds && Contents() == old(Contents())
    {
      var k :- IndexSlot(index);
      slots[k] := v;
      return Ok(());
    }

    /** `regs[&id] = v` through `IndexMut<&RegId>`. */
    method SetId(c: Ids, id: RegId, v: I32) returns (r: Result<()>)
      requires Valid()
      modifies slots
      ensures r.Ok? <==> WriteId(c, old(Contents()), id, v).Ok?
      ensures r.Ok? ==> Contents() == WriteId(c, old(Contents()), id, v).value
      ensures r.Panic? ==> r.fault == IndexOutOfBounds && Contents() == old(Contents())
    {
      var k :- IdSlot(c, id);
      slots[k] := v;
      return Ok(());
    }
  }
}
