/** Capstone's decoded ARM instructions, as the engine receives them: a mnemonic, and a
  * list of operands, each a register, an immediate or something else, with a shift. */
module Capstone {
  import opened Words

  /** `capstone::RegId`: a register number. */
  datatype RegId = RegId(raw: U16)

  /** The numeric values of Capstone's ARM register constants (`ARM_REG_R0`, `ARM_REG_R12`,
    * `ARM_REG_R13`..`ARM_REG_R15`, `ARM_REG_APSR`, `ARM_REG_SPSR`). Their values are not
    * part of this model, so they are a parameter; `Valid` states what the engine relies on:
    * R0..R12 are numbered consecutively, and the other five constants are distinct from
    * each other and from that range. */
  datatype RegConstants = RegConstants(r0: U16, r12: U16, r13: U16, r14: U16, r15: U16, apsr: U16, spsr: U16)
  {
    predicate InGeneralRange(n: int) { r0 <= n <= r12 }

    predicate Valid() {
      r12 == r0 + 12 &&
      !InGeneralRange(r13) && !InGeneralRange(r14) && !InGeneralRange(r15) &&
      !InGeneralRange(apsr) && !InGeneralRange(spsr) &&
      r13 != r14 && r13 != r15 && r13 != apsr && r13 != spsr &&
      r14 != r15 && r14 != apsr && r14 != spsr &&
      r15 != apsr && r15 != spsr &&
      apsr != spsr
    }
  }

  /** Register constants that satisfy `Valid`. */
  type Ids = c: RegConstants | c.Valid() witness RegConstants(0, 12, 13, 14, 15, 16, 17)

  /** The register `rn` for `n` in 0..12. */
  function General(c: Ids, n: nat): (r: RegId)
    requires n <= 12
    ensures c.InGeneralRange(r.raw) && r.raw - c.r0 == n
  {
    RegId(c.r0 + n)
  }

  function Sp(c: Ids): RegId { RegId(c.r13) }
  function Lr(c: Ids): RegId { RegId(c.r14) }
  function Pc(c: Ids): RegId { RegId(c.r15) }
  function ApsrId(c: Ids): RegId { RegId(c.apsr) }
  function SpsrId(c: Ids): RegId { RegId(c.spsr) }

  /** `ArmShift`: the shift Capstone attaches to an operand. `Invalid` means no shift. */
  datatype Shift =
    | Invalid
    | Asr(amount: U32)
    | Lsl(amount: U32)
    | Lsr(amount: U32)
    | Ror(amount: U32)
    | Rrx(amount: U32)
    | AsrReg(reg: RegId)
    | LslReg(reg: RegId)
    | LsrReg(reg: RegId)
    | RorReg(reg: RegId)
    | RrxReg(reg: RegId)

  /** `ArmOperandType`: a register, an immediate, or any other kind (memory, floating
    * point, system register, invalid), which the engine does not evaluate. */
  datatype OperandType = Reg(id: RegId) | Imm(value: I32) | Other

  /** `ArmOperand`: its type and its shift. */
  datatype Operand = Operand(opType: OperandType, shift: Shift)

  /** A decoded instruction: Capstone's mnemonic and the operand list of its detail. */
  datatype Insn = Insn(mnemonic: string, operands: seq<Operand>)

  /** The operand types alone, as the code collects them into `op_types`. */
  function OpTypes(ops: seq<Operand>): (r: seq<OperandType>)
    ensures |r| == |ops|
    ensures forall i | 0 <= i < |ops| :: r[i] == ops[i].opType
  {
    if ops == [] then [] else [ops[0].opType] + OpTypes(ops[1..])
  }

  /** An operand without a shift, as the lemmas write them. */
  function R(id: RegId): Operand { Operand(Reg(id), Invalid) }
  function I(n: I32): Operand { Operand(Imm(n), Invalid) }
}
