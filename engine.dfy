/** The library's dispatcher, `execute` in `lib.rs`: one decoded instruction, named by the
  * full mnemonic `extract_condition` returned, updates the register file. Each arm of its
  * `match` is a function on the file (`DataProcessing`, `Multiply`, ...), `Step` is the
  * whole `match`; the methods of the `Executor` module perform the same arms in place on
  * a `Registers` object. Every arm reads what it needs and writes at most one slot, last, so an arm that
  * panics has changed nothing. */
module Engine {
  import opened Faults
  import opened Words
  import opened Capstone
  import opened Registers
  import opened Status
  import opened Shifter
  import opened Mnemonics

  /** The functions `binary_op` hands out: `ops::Add::add`, `ops::Sub::sub`,
    * `ops::BitAnd::bitand`, `ops::BitXor::bitxor`, `ops::BitOr::bitor`. */
  datatype BinaryFn = Add | Sub | BitAnd | BitXor | BitOr

  /** `binary_op(mnemonic)`: `add`, `sub`, `and`, `eor` and `orr` have an operator; any other
    * mnemonic, `bic` included, panics. */
  function BinaryOp(mn: string): (r: Result<BinaryFn>)
    ensures r.Ok? <==> mn in {"add", "sub", "and", "eor", "orr"}
    ensures r.Panic? ==> r.fault == UnsupportedBinaryOp
  {
    if mn == "add" then Ok(Add)
    else if mn == "sub" then Ok(Sub)
    else if mn == "and" then Ok(BitAnd)
    else if mn == "eor" then Ok(BitXor)
    else if mn == "orr" then Ok(BitOr)
    else Panic(UnsupportedBinaryOp)
  }

  /** Calling the function: `+` and `-` are checked in a debug build, the bitwise
    * operators never panic. */
  function ApplyBinary(b: Build, f: BinaryFn, x: I32, y: I32): (r: Result<I32>)
    ensures f.BitAnd? || f.BitXor? || f.BitOr? ==> r.Ok?
    ensures b == Release ==> r.Ok?
  {
    match f
    case Add => Plus(b, x, y)
    case Sub => Minus(b, x, y)
    case BitAnd => Ok(And(x, y))
    case BitXor => Ok(Xor(x, y))
    case BitOr => Ok(Or(x, y))
  }

  /** The flags `cmp` computes from the register value `x` and the operand `v`: N and Z
    * from the wrapped difference, C when the unsigned subtraction does not borrow, V on
    * signed overflow. */
  function CmpFlags(x: I32, v: I32): (f: StatusFlags)
    ensures f.negative <==> Wrap(x - v) < 0
    ensures f.zero <==> x == v
    ensures f.carry <==> AsU32(x) >= AsU32(v)
    ensures f.overflow <==> !InI32(x - v)
    ensures f.processorMode == User
  {
    var diff := OverflowingSub(x, v);
    StatusFlags(diff.0 < 0, diff.0 == 0, !OverflowingSubU32(AsU32(x), AsU32(v)).1, diff.1, User)
  }

  /** The flags `cmn` computes: N and Z from the wrapped sum, C as the unsigned carry out,
    * V on signed overflow. */
  function CmnFlags(x: I32, v: I32): (f: StatusFlags)
    ensures f.negative <==> Wrap(x + v) < 0
    ensures f.zero <==> (x + v) % 0x1_0000_0000 == 0
    ensures f.carry <==> AsU32(x) + AsU32(v) >= 0x1_0000_0000
    ensures f.overflow <==> !InI32(x + v)
    ensures f.processorMode == User
  {
    var sum := OverflowingAdd(x, v);
    StatusFlags(sum.0 < 0, sum.0 == 0, OverflowingAddU32(AsU32(x), AsU32(v)).1, sum.1, User)
  }

  /** After `cmp`, the ARM conditions mean what the manual says: EQ is equality, GE
    * (N == V) is signed greater-or-equal, HS (C) unsigned greater-or-equal, HI (C and not
    * Z) unsigned greater. */
  lemma CmpConditions(x: I32, v: I32)
    ensures CmpFlags(x, v).zero <==> x == v
    ensures CmpFlags(x, v).negative == CmpFlags(x, v).overflow <==> x >= v
    ensures CmpFlags(x, v).carry <==> AsU32(x) >= AsU32(v)
    ensures CmpFlags(x, v).carry && !CmpFlags(x, v).zero <==> AsU32(x) > AsU32(v)
  {
    assert AsU32(x) == AsU32(v) ==> x == v by {
      assert Wrap(AsU32(x)) == x && Wrap(AsU32(v)) == v;
    }
  }

  /** After `cmn`, N == V exactly when the exact sum is not negative: `cmn x, v` compares
    * `x` with `-v`. */
  lemma CmnConditions(x: I32, v: I32)
    ensures CmnFlags(x, v).negative == CmnFlags(x, v).overflow <==> x + v >= 0
    ensures CmnFlags(x, v).zero <==> x + v == 0 || x + v == -0x1_0000_0000
  {
  }

  // ---------------------------------------------------------------------------------
  // The arms of `execute`, on a register file.

  /** `add`, `sub`, `and`, `bic`, `eor`, `orr`: exactly three operands, or a panic. When the
    * first two are registers, `rd := rn op value_of(op3)`, evaluated in the source's order
    * (the operator, then `rn`, then the operand); otherwise nothing happens. */
  function DataProcessing(c: Ids, b: Build, mn: string, ops: seq<Operand>, s: File): (r: Result<File>)
    ensures |ops| != 3 ==> r == Panic(OperandMismatch)
    ensures |ops| == 3 && !(ops[0].opType.Reg? && ops[1].opType.Reg?) ==> r == Ok(s)
    ensures |ops| == 3 && ops[0].opType.Reg? && ops[1].opType.Reg? && mn !in {"add", "sub", "and", "eor", "orr"} ==>
      r == Panic(UnsupportedBinaryOp)
    ensures r.Ok? ==> AtMostOneSlotChanged(s, r.value)
  {
    if |ops| != 3 then Panic(OperandMismatch)
    else if ops[0].opType.Reg? && ops[1].opType.Reg? then
      var f :- BinaryOp(mn);
      var x :- ReadId(c, s, ops[1].opType.id);
      var y :- ValueOf(c, b, s, ops[2]);
      var v :- ApplyBinary(b, f, x, y);
      WriteId(c, s, ops[0].opType.id, v)
    else Ok(s)
  }

  /** `mul`: the operand types must be three registers; `rd := rm * rn`. */
  function Multiply(c: Ids, b: Build, ops: seq<Operand>, s: File): (r: Result<File>)
    ensures !(|ops| == 3 && ops[0].opType.Reg? && ops[1].opType.Reg? && ops[2].opType.Reg?) ==>
      r == Panic(OperandMismatch)
    ensures (b == Release && |ops| == 3 &&
      forall k | 0 <= k < 3 :: ops[k].opType.Reg? && Addressable(c, ops[k].opType.id)) ==> r.Ok?
    ensures r.Ok? ==> AtMostOneSlotChanged(s, r.value)
  {
    var t := OpTypes(ops);
    if |t| == 3 && t[0].Reg? && t[1].Reg? && t[2].Reg? then
      var m :- ReadId(c, s, t[1].id);
      var n :- ReadId(c, s, t[2].id);
      var v :- Times(b, m, n);
      WriteId(c, s, t[0].id, v)
    else Panic(OperandMismatch)
  }

  /** `mla`: the operand types must be four registers; `rd := rm * rs + rn`. */
  function MultiplyAccumulate(c: Ids, b: Build, ops: seq<Operand>, s: File): (r: Result<File>)
    ensures !(|ops| == 4 && ops[0].opType.Reg? && ops[1].opType.Reg? && ops[2].opType.Reg? && ops[3].opType.Reg?) ==>
      r == Panic(OperandMismatch)
    ensures (b == Release && |ops| == 4 &&
      forall k | 0 <= k < 4 :: ops[k].opType.Reg? && Addressable(c, ops[k].opType.id)) ==> r.Ok?
    ensures r.Ok? ==> AtMostOneSlotChanged(s, r.value)
  {
    var t := OpTypes(ops);
    if |t| == 4 && t[0].Reg? && t[1].Reg? && t[2].Reg? && t[3].Reg? then
      var m :- ReadId(c, s, t[1].id);
      var sv :- ReadId(c, s, t[2].id);
      var p :- Times(b, m, sv);
      var n :- ReadId(c, s, t[3].id);
      var v :- Plus(b, p, n);
      WriteId(c, s, t[0].id, v)
    else Panic(OperandMismatch)
  }

  /** The shift the three-register form applies, chosen by mnemonic. `rrx` and `mov` have
    * none (the arm spells the rotation `Rrx`), so they panic. */
  function RegisterShift(mn: string, rn: RegId): (r: Result<Shift>)
    ensures r.Ok? <==> mn in {"lsl", "lsr", "asr", "ror", "Rrx"}
    ensures mn == "lsl" ==> r == Ok(LslReg(rn))
    ensures mn == "lsr" ==> r == Ok(LsrReg(rn))
    ensures mn == "asr" ==> r == Ok(AsrReg(rn))
    ensures mn == "ror" ==> r == Ok(RorReg(rn))
    ensures mn == "Rrx" ==> r == Ok(RrxReg(rn))
  {
    if mn == "lsl" then Ok(LslReg(rn))
    else if mn == "lsr" then Ok(LsrReg(rn))
    else if mn == "asr" then Ok(AsrReg(rn))
    else if mn == "ror" then Ok(RorReg(rn))
    else if mn == "Rrx" then Ok(RrxReg(rn))
    else Panic(NoRegisterShift)
  }

  /** `lsl`, `lsr`, `asr`, `ror`, `rrx`, `mov`. With two operands, `rd := value_of(op2)` when
    * the first is a register. With three registers, `rd := rm` shifted by the value of
    * `rn`; with three operands that are not all registers nothing happens; any other count
    * panics. */
  function Move(c: Ids, b: Build, mn: string, ops: seq<Operand>, s: File): (r: Result<File>)
    ensures |ops| != 2 && |ops| != 3 ==> r == Panic(OperandMismatch)
    ensures |ops| == 2 && !ops[0].opType.Reg? ==> r == Ok(s)
    ensures |ops| == 3 && !(ops[0].opType.Reg? && ops[1].opType.Reg? && ops[2].opType.Reg?) ==> r == Ok(s)
    ensures (|ops| == 3 && ops[0].opType.Reg? && ops[1].opType.Reg? && ops[2].opType.Reg? &&
      mn !in {"lsl", "lsr", "asr", "ror", "Rrx"}) ==> r == Panic(NoRegisterShift)
    ensures r.Ok? ==> AtMostOneSlotChanged(s, r.value)
  {
    if |ops| == 2 then
      if ops[0].opType.Reg? then
        var v :- ValueOf(c, b, s, ops[1]);
        WriteId(c, s, ops[0].opType.id, v)
      else Ok(s)
    else if |ops| == 3 then
      if ops[0].opType.Reg? && ops[1].opType.Reg? && ops[2].opType.Reg? then
        var shift :- RegisterShift(mn, ops[2].opType.id);
        var x :- ReadId(c, s, ops[1].opType.id);
        var v :- ApplyShift(c, b, s, x, shift);
        WriteId(c, s, ops[0].opType.id, v)
      else Ok(s)
    else Panic(OperandMismatch)
  }

  /** `mvn`: exactly two operands; `rd := !value_of(op2)` when the first is a register. */
  function MoveNot(c: Ids, b: Build, ops: seq<Operand>, s: File): (r: Result<File>)
    ensures |ops| != 2 ==> r == Panic(OperandMismatch)
    ensures |ops| == 2 && !ops[0].opType.Reg? ==> r == Ok(s)
    ensures |ops| == 2 && ops[0].opType.Reg? && Addressable(c, ops[0].opType.id) ==>
      (r.Ok? <==> ValueOf(c, b, s, ops[1]).Ok?)
    ensures r.Ok? ==> AtMostOneSlotChanged(s, r.value)
  {
    if |ops| != 2 then Panic(OperandMismatch)
    else if ops[0].opType.Reg? then
      var v :- ValueOf(c, b, s, ops[1]);
      WriteId(c, s, ops[0].opType.id, Not(v))
    else Ok(s)
  }

  /** `cmp` and `cmn`: exactly two operands. When the first is a register, the operand is
    * evaluated, then the register read, and the packed flags are stored through the
    * numeric index `ARM_REG_APSR as u16`, which is the status slot only when that
    * constant is 16. */
  function Compare(c: Ids, b: Build, negated: bool, ops: seq<Operand>, s: File): (r: Result<File>)
    ensures |ops| != 2 ==> r == Panic(OperandMismatch)
    ensures |ops| == 2 && !ops[0].opType.Reg? ==> r == Ok(s)
    ensures |ops| == 2 && ops[0].opType.Reg? && c.apsr > 16 ==> r.Panic?
    ensures r.Ok? ==> forall k | 0 <= k < 17 && k != c.apsr :: r.value[k] == s[k]
    ensures r.Ok? ==> AtMostOneSlotChanged(s, r.value)
  {
    if |ops| != 2 then Panic(OperandMismatch)
    else if ops[0].opType.Reg? then
      var v :- ValueOf(c, b, s, ops[1]);
      var x :- ReadId(c, s, ops[0].opType.id);
      var flags := if negated then CmnFlags(x, v) else CmpFlags(x, v);
      WriteIndex(s, c.apsr, Pack(flags))
    else Ok(s)
  }

  /** `mrs`: the operand types must be two registers, and the source must be numbered like
    * APSR or SPSR, or it panics. The copy reads the source through its `RegId`. */
  function StatusRead(c: Ids, ops: seq<Operand>, s: File): (r: Result<File>)
    ensures !(|ops| == 2 && ops[0].opType.Reg? && ops[1].opType.Reg?) ==> r == Panic(OperandMismatch)
    ensures (|ops| == 2 && ops[0].opType.Reg? && ops[1].opType.Reg? &&
      ops[1].opType.id.raw != c.apsr && ops[1].opType.id.raw != c.spsr) ==> r == Panic(NotStatusRegister)
    ensures |ops| == 2 && ops[0].opType.Reg? && ops[1].opType == Reg(SpsrId(c)) ==> r == Panic(IndexOutOfBounds)
    ensures r.Ok? ==> AtMostOneSlotChanged(s, r.value)
  {
    var t := OpTypes(ops);
    if |t| == 2 && t[0].Reg? && t[1].Reg? then
      if t[1].id.raw == c.apsr || t[1].id.raw == c.spsr then
        var v :- ReadId(c, s, t[1].id);
        WriteId(c, s, t[0].id, v)
      else Panic(NotStatusRegister)
    else Panic(OperandMismatch)
  }

  /** The mnemonics of the data-processing arm. */
  const DataProcessingMnemonics: set<string> := {"add", "sub", "and", "bic", "eor", "orr"}

  /** The mnemonics of the shift and move arm. */
  const MoveMnemonics: set<string> := {"lsl", "lsr", "asr", "ror", "rrx", "mov"}

  /** `execute` on a register file: the arm the mnemonic selects; an unknown mnemonic
    * panics. */
  function Step(c: Ids, b: Build, mn: string, ops: seq<Operand>, s: File): (r: Result<File>)
    ensures mn !in DataProcessingMnemonics + MoveMnemonics + {"mul", "mla", "mvn", "cmp", "cmn", "mrs"} ==>
      r == Panic(UnrecognisedMnemonic)
    ensures r.Ok? ==> AtMostOneSlotChanged(s, r.value)
  {
    if mn in DataProcessingMnemonics then DataProcessing(c, b, mn, ops, s)
    else if mn == "mul" then Multiply(c, b, ops, s)
    else if mn == "mla" then MultiplyAccumulate(c, b, ops, s)
    else if mn in MoveMnemonics then Move(c, b, mn, ops, s)
    else if mn == "mvn" then MoveNot(c, b, ops, s)
    else if mn == "cmp" then Compare(c, b, false, ops, s)
    else if mn == "cmn" then Compare(c, b, true, ops, s)
    else if mn == "mrs" then StatusRead(c, ops, s)
    else Panic(UnrecognisedMnemonic)
  }

  /** The loop of `run_program`: each decoded instruction is split by `extract_condition`
    * and executed; the first panic ends the run. */
  function Run(c: Ids, b: Build, prog: seq<Insn>, s: File): (r: Result<File>)
    ensures prog == [] ==> r == Ok(s)
    ensures r.Ok? ==> forall k | 0 <= k < |prog| :: LibSplit(prog[k].mnemonic).Ok?
    decreases |prog|
  {
    if prog == [] then Ok(s)
    else
      assert forall k | 1 <= k < |prog| :: prog[k] == prog[1..][k - 1];
      var split :- LibSplit(prog[0].mnemonic);
      var t :- Step(c, b, split.mnemonic, prog[0].operands, s);
      Run(c, b, prog[1..], t)
  }

  /** The register file a run leaves behind: after every instruction when it completes, and
    * otherwise as the instructions before the one that panicked left it (a panicking step
    * writes nothing). */
  function Reached(c: Ids, b: Build, prog: seq<Insn>, s: File): (r: File)
    ensures Run(c, b, prog, s).Ok? ==> r == Run(c, b, prog, s).value
    decreases |prog|
  {
    if prog == [] then s
    else
      var split := LibSplit(prog[0].mnemonic);
      if split.Panic? then s
      else
        var t := Step(c, b, split.value.mnemonic, prog[0].operands, s);
        if t.Panic? then s else Reached(c, b, prog[1..], t.value)
  }

  // ---------------------------------------------------------------------------------
  // What the arms do.

  /** Every instruction that completes changes at most one of the seventeen slots. */
  lemma StepChangesAtMostOneSlot(c: Ids, b: Build, mn: string, ops: seq<Operand>, s: File)
    requires Step(c, b, mn, ops, s).Ok?
    ensures AtMostOneSlotChanged(s, Step(c, b, mn, ops, s).value)
  {
  }

  /** The slot a register names. */
  function SlotOf(c: Ids, id: RegId): nat
    requires Addressable(c, id)
  {
    IdSlot(c, id).value
  }

  /** What ARM's data-processing instructions compute, modulo 2^32. */
  function AluReference(mn: string, x: I32, y: I32): I32
  {
    if mn == "add" then Wrap(x + y) else if mn == "sub" then Wrap(x - y)
    else if mn == "and" then And(x, y) else if mn == "eor" then Xor(x, y) else Or(x, y)
  }

  /** Whether the exact result of `add` or `sub` leaves the `i32` range. */
  predicate AluOverflows(mn: string, x: I32, y: I32) {
    (mn == "add" && !InI32(x + y)) || (mn == "sub" && !InI32(x - y))
  }

  /** `add`, `sub`, `and`, `eor`, `orr` with register destination and first source: `rd`
    * receives ARM's result on `rn` and the shifter operand, and nothing else changes; the
    * shifts attached to the first two operands are ignored. Only a debug build, and only
    * on overflow of `add` or `sub`, panics instead. */
  lemma DataProcessingEffect(c: Ids, b: Build, mn: string, rd: RegId, rn: RegId, sh0: Shift, sh1: Shift, op3: Operand, s: File)
    requires mn in {"add", "sub", "and", "eor", "orr"}
    requires Addressable(c, rd) && Addressable(c, rn) && ValueOf(c, b, s, op3).Ok?
    ensures var x, y := ReadId(c, s, rn).value, ValueOf(c, b, s, op3).value;
      Step(c, b, mn, [Operand(Reg(rd), sh0), Operand(Reg(rn), sh1), op3], s) ==
        if b == Debug && AluOverflows(mn, x, y) then Panic(ArithmeticOverflow)
        else Ok(s[SlotOf(c, rd) := AluReference(mn, x, y)])
  {
  }

  /** The data-processing arm does nothing unless its first two operands are registers. */
  lemma DataProcessingNeedsRegisters(c: Ids, b: Build, mn: string, ops: seq<Operand>, s: File)
    requires mn in DataProcessingMnemonics && |ops| == 3
    requires !ops[0].opType.Reg? || !ops[1].opType.Reg?
    ensures Step(c, b, mn, ops, s) == Ok(s)
  {
  }

  /** `bic` is dispatched to the data-processing arm but `binary_op` has no operator for
    * it, so with register operands it always panics. */
  lemma BicPanics(c: Ids, b: Build, ops: seq<Operand>, s: File)
    requires |ops| == 3 && ops[0].opType.Reg? && ops[1].opType.Reg?
    ensures Step(c, b, "bic", ops, s) == Panic(UnsupportedBinaryOp)
  {
  }

  /** `mul rd, rm, rn`: `rd := rm * rn`, wrapped in a release build and checked in a
    * debug build; operand shifts play no part. */
  lemma MultiplyEffect(c: Ids, b: Build, rd: RegId, rm: RegId, rn: RegId, sh: seq<Shift>, s: File)
    requires Addressable(c, rd) && Addressable(c, rm) && Addressable(c, rn) && |sh| == 3
    ensures var m, n := ReadId(c, s, rm).value, ReadId(c, s, rn).value;
      Step(c, b, "mul", [Operand(Reg(rd), sh[0]), Operand(Reg(rm), sh[1]), Operand(Reg(rn), sh[2])], s) ==
        if b == Debug && !InI32(m * n) then Panic(ArithmeticOverflow)
        else Ok(s[SlotOf(c, rd) := Wrap(m * n)])
  {
  }

  /** `mla rd, rm, rs, rn` in a release build: `rd := rm * rs + rn` modulo 2^32. */
  lemma MultiplyAccumulateRelease(c: Ids, rd: RegId, rm: RegId, rs: RegId, rn: RegId, s: File)
    requires Addressable(c, rd) && Addressable(c, rm) && Addressable(c, rs) && Addressable(c, rn)
    ensures var m, sv, n := ReadId(c, s, rm).value, ReadId(c, s, rs).value, ReadId(c, s, rn).value;
      Step(c, Release, "mla", [R(rd), R(rm), R(rs), R(rn)], s) == Ok(s[SlotOf(c, rd) := Wrap(m * sv + n)])
  {
    var m, sv, n := ReadId(c, s, rm).value, ReadId(c, s, rs).value, ReadId(c, s, rn).value;
    WrapOfWrappedSum((m as int) * sv, n);
  }

  /** `mla` in a debug build completes exactly when the product and the sum both fit. */
  lemma MultiplyAccumulateDebug(c: Ids, rd: RegId, rm: RegId, rs: RegId, rn: RegId, s: File)
    requires Addressable(c, rd) && Addressable(c, rm) && Addressable(c, rs) && Addressable(c, rn)
    ensures var m, sv, n := ReadId(c, s, rm).value, ReadId(c, s, rs).value, ReadId(c, s, rn).value;
      Step(c, Debug, "mla", [R(rd), R(rm), R(rs), R(rn)], s) ==
        if InI32(m * sv) && InI32(m * sv + n) then Ok(s[SlotOf(c, rd) := m * sv + n])
        else Panic(ArithmeticOverflow)
  {
  }

  /** `mov rd, #n` (and any two-operand shift alias with an immediate): `rd := n`. */
  lemma MoveImmediate(c: Ids, b: Build, mn: string, rd: RegId, sh0: Shift, n: I32, sh1: Shift, s: File)
    requires mn in MoveMnemonics && Addressable(c, rd)
    ensures Step(c, b, mn, [Operand(Reg(rd), sh0), Operand(Imm(n), sh1)], s) == Ok(s[SlotOf(c, rd) := n])
  {
  }

  /** `mov rd, rm, <shift>` and the two-operand shift aliases: `rd` receives `rm` put
    * through the operand's shift, whatever the mnemonic says. */
  lemma MoveShifted(c: Ids, b: Build, mn: string, rd: RegId, sh0: Shift, rm: RegId, shift: Shift, s: File)
    requires mn in MoveMnemonics && Addressable(c, rd) && Addressable(c, rm)
    requires ApplyShift(c, b, s, ReadId(c, s, rm).value, shift).Ok?
    ensures Step(c, b, mn, [Operand(Reg(rd), sh0), Operand(Reg(rm), shift)], s) ==
      Ok(s[SlotOf(c, rd) := ApplyShift(c, b, s, ReadId(c, s, rm).value, shift).value])
  {
  }

  /** `ror rd, rm, rn`: `rd := rm` rotated right by the value of `rn` modulo 32. */
  lemma RotateByRegister(c: Ids, b: Build, rd: RegId, rm: RegId, rn: RegId, s: File)
    requires Addressable(c, rd) && Addressable(c, rm) && Addressable(c, rn)
    ensures var x, a := ReadId(c, s, rm).value, ReadId(c, s, rn).value;
      Step(c, b, "ror", [R(rd), R(rm), R(rn)], s) == Ok(s[SlotOf(c, rd) := RotateRight(x, AsU32(a))])
  {
  }

  /** `lsl rd, rm, rn`, `lsr rd, rm, rn` and `asr rd, rm, rn`: `rd := rm` shifted by the
    * value of `rn` read as `u32`, left for `lsl` and arithmetically right for the other two.
    * The instruction panics exactly when that shift does, which only a debug build can. */
  lemma ShiftByRegister(c: Ids, b: Build, mn: string, rd: RegId, rm: RegId, rn: RegId, s: File)
    requires mn in {"lsl", "lsr", "asr"}
    requires Addressable(c, rd) && Addressable(c, rm) && Addressable(c, rn)
    ensures var x, a := ReadId(c, s, rm).value, ReadId(c, s, rn).value;
      var v := if mn == "lsl" then ShiftLeft(b, x, AsU32(a)) else ShiftRight(b, x, AsU32(a));
      Step(c, b, mn, [R(rd), R(rm), R(rn)], s) == if v.Ok? then Ok(s[SlotOf(c, rd) := v.value]) else Panic(v.fault)
  {
  }

  /** `lsr rd, rm, rn` in a release build: the arithmetic shift of `rm` by `rn` modulo 32,
    * so a negative `rm` stays negative. */
  lemma ShiftRightByRegister(c: Ids, rd: RegId, rm: RegId, rn: RegId, s: File)
    requires Addressable(c, rd) && Addressable(c, rm) && Addressable(c, rn)
    ensures var x, a := ReadId(c, s, rm).value, ReadId(c, s, rn).value;
      Step(c, Release, "lsr", [R(rd), R(rm), R(rn)], s) == Ok(s[SlotOf(c, rd) := ArithmeticShift(x, a % 32)])
  {
    var a := ReadId(c, s, rn).value;
    assert AsU32(a) % 32 == a % 32;
  }

  /** The three-register forms of `rrx` and `mov` panic: the arm knows no register shift
    * for them. */
  lemma ThreeRegisterRrxPanics(c: Ids, b: Build, mn: string, rd: RegId, rm: RegId, rn: RegId, s: File)
    requires mn == "rrx" || mn == "mov"
    ensures Step(c, b, mn, [R(rd), R(rm), R(rn)], s) == Panic(NoRegisterShift)
  {
  }

  /** `mvn rd, op`: `rd := !op`, every bit of the operand flipped. */
  lemma MoveNotEffect(c: Ids, b: Build, rd: RegId, sh: Shift, op: Operand, s: File)
    requires Addressable(c, rd) && ValueOf(c, b, s, op).Ok?
    ensures var v := ValueOf(c, b, s, op).value;
      Step(c, b, "mvn", [Operand(Reg(rd), sh), op], s) == Ok(s[SlotOf(c, rd) := Not(v)]) &&
      AsU32(Not(v)) == 0xFFFF_FFFF - AsU32(v)
  {
  }

  /** `cmp rn, op` and `cmn rn, op`: the packed flags go to the slot with the numeric index
    * of APSR, or the instruction panics when that index is past the file. Nothing else is
    * written. */
  lemma CompareEffect(c: Ids, b: Build, negated: bool, rn: RegId, sh: Shift, op: Operand, s: File)
    requires Addressable(c, rn) && ValueOf(c, b, s, op).Ok?
    ensures var x, v := ReadId(c, s, rn).value, ValueOf(c, b, s, op).value;
      var flags := if negated then CmnFlags(x, v) else CmpFlags(x, v);
      Step(c, b, if negated then "cmn" else "cmp", [Operand(Reg(rn), sh), op], s) ==
        if c.apsr <= 16 then Ok(s[c.apsr := Pack(flags)]) else Panic(IndexOutOfBounds)
  {
  }

  /** Only when APSR's constant is 16 can the flags `cmp` stores be read back through
    * APSR's `RegId`; otherwise that read still sees the old status word. */
  lemma CompareVisibleThroughApsr(c: Ids, b: Build, rn: RegId, op: Operand, s: File)
    requires Addressable(c, rn) && ValueOf(c, b, s, op).Ok? && c.apsr <= 16
    ensures var t := Step(c, b, "cmp", [Operand(Reg(rn), Invalid), op], s).value;
      var flags := CmpFlags(ReadId(c, s, rn).value, ValueOf(c, b, s, op).value);
      (c.apsr == STATUS ==> ReadId(c, t, ApsrId(c)) == Ok(Pack(flags))) &&
      (c.apsr != STATUS ==> ReadId(c, t, ApsrId(c)) == ReadId(c, s, ApsrId(c)))
  {
    CompareEffect(c, b, false, rn, Invalid, op, s);
  }

  /** `mrs rd, apsr` copies the status slot into `rd`. */
  lemma StatusReadApsr(c: Ids, rd: RegId, sh: Shift, s: File)
    requires Addressable(c, rd)
    ensures Step(c, Debug, "mrs", [R(rd), Operand(Reg(ApsrId(c)), sh)], s) == Ok(s[SlotOf(c, rd) := s[STATUS]])
    ensures Step(c, Release, "mrs", [R(rd), Operand(Reg(ApsrId(c)), sh)], s) == Ok(s[SlotOf(c, rd) := s[STATUS]])
  {
  }

  /** `mrs rd, spsr` passes the status-register check but SPSR has no slot, so the read
    * panics; any other source fails the check. */
  lemma StatusReadOthers(c: Ids, b: Build, rd: RegId, rn: RegId, s: File)
    ensures Step(c, b, "mrs", [R(rd), R(SpsrId(c))], s) == Panic(IndexOutOfBounds)
    ensures rn.raw != c.apsr && rn.raw != c.spsr ==> Step(c, b, "mrs", [R(rd), R(rn)], s) == Panic(NotStatusRegister)
  {
  }

  /** Because `extract_condition` keeps the full mnemonic, an instruction with a real
    * condition code reaches no arm of `execute` and panics. */
  lemma ConditionalInstructionPanics(c: Ids, b: Build, base: string, cond: string, ops: seq<Operand>, s: File)
    requires base in LibMnemonics && cond in Conditions && cond != ""
    ensures Run(c, b, [Insn(base + cond, ops)], s) == Panic(UnrecognisedMnemonic)
  {
    ListsUnambiguous();
    ExtractBaseAndCondition(LibMnemonics, base, cond, Panic(UnrecognisedMnemonic));
    assert |base + cond| == 5;
  }

  /** Running two programs one after the other is running their concatenation. */
  lemma {:induction false} RunAppend(c: Ids, b: Build, p: seq<Insn>, q: seq<Insn>, s: File)
    ensures Run(c, b, p + q, s) == match Run(c, b, p, s) case Ok(t) => Run(c, b, q, t) case Panic(f) => Panic(f)
    decreases |p|
  {
    if p == [] {
      assert p + q == q;
    } else {
      assert (p + q)[0] == p[0] && (p + q)[1..] == p[1..] + q;
      var split := LibSplit(p[0].mnemonic);
      if split.Ok? {
        var t := Step(c, b, split.value.mnemonic, p[0].operands, s);
        if t.Ok? {
          RunAppend(c, b, p[1..], q, t.value);
        }
      }
    }
  }
}
