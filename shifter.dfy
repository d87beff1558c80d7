/** The shifter operand of ARM data-processing instructions (Addressing Mode 1, section A5.1
  * of the ARM Architecture Reference Manual, DDI 0100) as `value_of` and `apply_shift`
  * evaluate it: an immediate as it is, or a register's value put through its shift. */
module Shifter {
  import opened Faults
  import opened Words
  import opened Capstone
  import opened Registers

  /** `apply_shift(registers, num, shift)`. Immediate amounts are `u32`; register amounts
    * are the register's `i32` value, which Rust's shift operators check (a debug build
    * panics when the value read as `u32` is 32 or more, so on every negative amount) or
    * mask to five bits; a register rotation uses the value `as u32`. `Lsr` is the same
    * arithmetic shift as `Asr`, and `Rrx` a rotation by one that ignores the carry. */
  function ApplyShift(c: Ids, b: Build, s: File, num: I32, shift: Shift): (r: Result<I32>)
    ensures shift.Invalid? ==> r == Ok(num)
    ensures shift.Lsl? ==> r == ShiftLeft(b, num, shift.amount)
    ensures shift.Lsr? || shift.Asr? ==> r == ShiftRight(b, num, shift.amount)
    ensures shift.Ror? ==> r == Ok(RotateRight(num, shift.amount))
    ensures shift.Rrx? || shift.RrxReg? ==> r == Ok(RotateRight(num, 1))
    ensures shift.LslReg? || shift.LsrReg? || shift.AsrReg? || shift.RorReg? ==>
      (r.Ok? ==> ReadId(c, s, shift.reg).Ok?) &&
      (ReadId(c, s, shift.reg).Panic? ==> r == Panic(IndexOutOfBounds))
    ensures shift.LslReg? && ReadId(c, s, shift.reg).Ok? ==>
      r == ShiftLeft(b, num, AsU32(ReadId(c, s, shift.reg).value))
    ensures (shift.LsrReg? || shift.AsrReg?) && ReadId(c, s, shift.reg).Ok? ==>
      r == ShiftRight(b, num, AsU32(ReadId(c, s, shift.reg).value))
    ensures shift.RorReg? && ReadId(c, s, shift.reg).Ok? ==>
      r == Ok(RotateRight(num, AsU32(ReadId(c, s, shift.reg).value)))
  {
    match shift
    case Lsl(amount) => ShiftLeft(b, num, amount)
    case Lsr(amount) => ShiftRight(b, num, amount)
    case Asr(amount) => ShiftRight(b, num, amount)
    case Ror(amount) => Ok(RotateRight(num, amount))
    case LslReg(reg) => var amount :- ReadId(c, s, reg); ShiftLeft(b, num, AsU32(amount))
    case LsrReg(reg) => var amount :- ReadId(c, s, reg); ShiftRight(b, num, AsU32(amount))
    case AsrReg(reg) => var amount :- ReadId(c, s, reg); ShiftRight(b, num, AsU32(amount))
    case RorReg(reg) => var amount :- ReadId(c, s, reg); Ok(RotateRight(num, AsU32(amount)))
    case Rrx(_) => Ok(RotateRight(num, 1))
    case RrxReg(_) => Ok(RotateRight(num, 1))
    case Invalid => Ok(num)
  }

  /** `value_of(operand, registers)`: an immediate is its value; a register is read through
    * its `RegId` and shifted; any other operand panics. */
  function ValueOf(c: Ids, b: Build, s: File, op: Operand): (r: Result<I32>)
    ensures op.opType.Imm? ==> r == Ok(op.opType.value)
    ensures op.opType.Other? ==> r == Panic(InvalidOperand)
    ensures op.opType.Reg? && op.shift.Invalid? ==> r == ReadId(c, s, op.opType.id)
    ensures op.opType.Reg? && !Addressable(c, op.opType.id) ==> r == Panic(IndexOutOfBounds)
    ensures op.opType.Reg? && Addressable(c, op.opType.id) ==>
      r == ApplyShift(c, b, s, ReadId(c, s, op.opType.id).value, op.shift)
  {
    match op.opType
    case Reg(id) => var num :- ReadId(c, s, id); ApplyShift(c, b, s, num, op.shift)
    case Imm(n) => Ok(n)
    case Other => Panic(InvalidOperand)
  }

  /** A register shift amount is read as `u32`: in a debug build every negative amount
    * panics, and in a release build it is taken modulo 32. */
  lemma RegisterAmount(c: Ids, b: Build, s: File, num: I32, reg: RegId)
    requires Addressable(c, reg)
    ensures var a := ReadId(c, s, reg).value;
      var r := ApplyShift(c, b, s, num, LslReg(reg));
      (b == Debug && a < 0 ==> r == Panic(ShiftOverflow)) &&
      (b == Release ==> r == Ok(Wrap(num * Pow2(a % 32))))
  {
    var a := ReadId(c, s, reg).value;
    assert AsU32(a) % 32 == a % 32;
  }

  /** `Lsr` sign-extends: shifting a negative value right keeps it negative, where ARM's
    * logical shift would clear the top bit. */
  lemma LogicalShiftSignExtends(c: Ids, b: Build, s: File, num: I32, amount: U32)
    requires num < 0 && !ShiftOverflows(b, amount)
    ensures var r := ApplyShift(c, b, s, num, Lsr(amount)); r.Ok? && r.value < 0
  {
  }
}
