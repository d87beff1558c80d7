/** The command-line interpreter's own dispatcher, `execute` in `main.rs`: an `if`/`else`
  * chain over the full mnemonic that looks only at the operand types, so operand shifts
  * are ignored. Its `mul` and `mla` arms match the library's exactly and are shared with
  * `Engine`; `bic` computes the same as `and`; `clz` is supported; anything else panics. */
module Cli {
  import opened Faults
  import opened Words
  import opened Capstone
  import opened Registers
  import opened Mnemonics
  import opened Engine
  import opened Executor

  /** The mnemonics the chain handles. */
  const CliHandled: set<string> := {"add", "sub", "mul", "and", "bic", "clz", "eor", "mla", "mov"}

  /** The second source of a three-operand arm: an immediate or a register. */
  function Source(c: Ids, s: File, t: OperandType): (r: Result<I32>)
    requires t.Imm? || t.Reg?
    ensures t.Imm? ==> r == Ok(t.value)
    ensures t.Reg? ==> r == ReadId(c, s, t.id)
  {
    if t.Imm? then Ok(t.value) else ReadId(c, s, t.id)
  }

  /** `add`, `sub`, `and`, `bic`, `eor`: operand types `Reg, Reg, Imm` or `Reg, Reg, Reg`,
    * and `rd := rn op x`; any other shape panics. */
  function CliBinary(c: Ids, b: Build, f: BinaryFn, t: seq<OperandType>, s: File): (r: Result<File>)
    ensures !(|t| == 3 && t[0].Reg? && t[1].Reg? && (t[2].Imm? || t[2].Reg?)) ==> r == Panic(OperandMismatch)
    ensures r.Ok? ==> AtMostOneSlotChanged(s, r.value)
  {
    if |t| == 3 && t[0].Reg? && t[1].Reg? && (t[2].Imm? || t[2].Reg?) then
      var x :- ReadId(c, s, t[1].id);
      var y :- Source(c, s, t[2]);
      var v :- ApplyBinary(b, f, x, y);
      WriteId(c, s, t[0].id, v)
    else Panic(OperandMismatch)
  }

  /** `clz`: operand types `Reg, Reg`; `rd := leading_zeros(rm)`. */
  function CountLeadingZeros(c: Ids, t: seq<OperandType>, s: File): (r: Result<File>)
    ensures !(|t| == 2 && t[0].Reg? && t[1].Reg?) ==> r == Panic(OperandMismatch)
    ensures (|t| == 2 && t[0].Reg? && t[1].Reg? && Addressable(c, t[0].id) && Addressable(c, t[1].id)) ==>
      r.Ok? && r.value[SlotOf(c, t[0].id)] <= 32 &&
      (r.value[SlotOf(c, t[0].id)] == 32 <==> s[SlotOf(c, t[1].id)] == 0)
    ensures r.Ok? ==> AtMostOneSlotChanged(s, r.value)
  {
    if |t| == 2 && t[0].Reg? && t[1].Reg? then
      var x :- ReadId(c, s, t[1].id);
      WriteId(c, s, t[0].id, LeadingZeros(x))
    else Panic(OperandMismatch)
  }

  /** `mov`: operand types `Reg, Imm` (`rd := n`) or `Reg, Reg` (`rd := rn`). */
  function CliMove(c: Ids, t: seq<OperandType>, s: File): (r: Result<File>)
    ensures !(|t| == 2 && t[0].Reg? && (t[1].Imm? || t[1].Reg?)) ==> r == Panic(OperandMismatch)
    ensures (|t| == 2 && t[0].Reg? && t[1].Imm? && Addressable(c, t[0].id)) ==>
      r.Ok? && r.value[SlotOf(c, t[0].id)] == t[1].value
    ensures r.Ok? ==> AtMostOneSlotChanged(s, r.value)
  {
    if |t| == 2 && t[0].Reg? && (t[1].Imm? || t[1].Reg?) then
      var v :- Source(c, s, t[1]);
      WriteId(c, s, t[0].id, v)
    else Panic(OperandMismatch)
  }

  /** `execute` of `main.rs` on a register file. */
  function CliStep(c: Ids, b: Build, mn: string, ops: seq<Operand>, s: File): (r: Result<File>)
    ensures mn !in CliHandled ==> r == Panic(UnrecognisedInstruction)
    ensures r.Ok? ==> AtMostOneSlotChanged(s, r.value)
  {
    var t := OpTypes(ops);
    if mn == "add" then CliBinary(c, b, Add, t, s)
    else if mn == "sub" then CliBinary(c, b, Sub, t, s)
    else if mn == "mul" then Multiply(c, b, ops, s)
    else if mn == "and" then CliBinary(c, b, BitAnd, t, s)
    else if mn == "bic" then CliBinary(c, b, BitAnd, t, s)
    else if mn == "clz" then CountLeadingZeros(c, t, s)
    else if mn == "eor" then CliBinary(c, b, BitXor, t, s)
    else if mn == "mla" then MultiplyAccumulate(c, b, ops, s)
    else if mn == "mov" then CliMove(c, t, s)
    else Panic(UnrecognisedInstruction)
  }

  /** The loop of `main`: split each instruction with the command line's
    * `extract_condition`, execute it, stop at the first panic. */
  function CliRun(c: Ids, b: Build, prog: seq<Insn>, s: File): (r: Result<File>)
    ensures prog == [] ==> r == Ok(s)
    ensures r.Ok? ==> forall k | 0 <= k < |prog| :: CliSplit(prog[k].mnemonic).Ok? && CliSplit(prog[k].mnemonic).value.mnemonic in CliHandled
    decreases |prog|
  {
    if prog == [] then Ok(s)
    else
      assert forall k | 1 <= k < |prog| :: prog[k] == prog[1..][k - 1];
      var split :- CliSplit(prog[0].mnemonic);
      var t :- CliStep(c, b, split.mnemonic, prog[0].operands, s);
      CliRun(c, b, prog[1..], t)
  }

  // ---------------------------------------------------------------------------------
  // In place.

  /** A three-operand arm of the chain. */
  method CliBinaryInPlace(c: Ids, b: Build, f: BinaryFn, t: seq<OperandType>, regs: Registers) returns (r: Result<()>)
    requires regs.Valid()
    modifies regs.slots
    ensures Reflects(r, old(regs.Contents()), regs.Contents(), CliBinary(c, b, f, t, old(regs.Contents())))
  {
    if |t| == 3 && t[0].Reg? && t[1].Reg? && (t[2].Imm? || t[2].Reg?) {
      var x :- regs.IndexId(c, t[1].id);
      var y: I32;
      if t[2].Imm? {
        y := t[2].value;
      } else {
        y :- regs.IndexId(c, t[2].id);
      }
      var v :- ApplyBinary(b, f, x, y);
      r := regs.SetId(c, t[0].id, v);
    } else {
      r := Panic(OperandMismatch);
    }
  }

  /** The `clz` arm. */
  method CountLeadingZerosInPlace(c: Ids, t: seq<OperandType>, regs: Registers) returns (r: Result<()>)
    requires regs.Valid()
    modifies regs.slots
    ensures Reflects(r, old(regs.Contents()), regs.Contents(), CountLeadingZeros(c, t, old(regs.Contents())))
  {
    if |t| == 2 && t[0].Reg? && t[1].Reg? {
      var x :- regs.IndexId(c, t[1].id);
      r := regs.SetId(c, t[0].id, LeadingZeros(x));
    } else {
      r := Panic(OperandMismatch);
    }
  }

  /** The `mov` arm. */
  method CliMoveInPlace(c: Ids, t: seq<OperandType>, regs: Registers) returns (r: Result<()>)
    requires regs.Valid()
    modifies regs.slots
    ensures Reflects(r, old(regs.Contents()), regs.Contents(), CliMove(c, t, old(regs.Contents())))
  {
    if |t| == 2 && t[0].Reg? && t[1].Imm? {
      r := regs.SetId(c, t[0].id, t[1].value);
    } else if |t| == 2 && t[0].Reg? && t[1].Reg? {
      var v :- regs.IndexId(c, t[1].id);
      r := regs.SetId(c, t[0].id, v);
    } else {
      r := Panic(OperandMismatch);
    }
  }

  /** `execute` of `main.rs`, in place. */
  method CliExecute(c: Ids, b: Build, mn: string, condition: string, ops: seq<Operand>, regs: Registers) returns (r: Result<()>)
    requires regs.Valid()
    modifies regs.slots
    ensures Reflects(r, old(regs.Contents()), regs.Contents(), CliStep(c, b, mn, ops, old(regs.Contents())))
  {
    var t := OpTypes(ops);
    if mn == "add" {
      r := CliBinaryInPlace(c, b, Add, t, regs);
    } else if mn == "sub" {
      r := CliBinaryInPlace(c, b, Sub, t, regs);
    } else if mn == "mul" {
      r := MultiplyInPlace(c, b, ops, regs);
    } else if mn == "and" {
      r := CliBinaryInPlace(c, b, BitAnd, t, regs);
    } else if mn == "bic" {
      r := CliBinaryInPlace(c, b, BitAnd, t, regs);
    } else if mn == "clz" {
      r := CountLeadingZerosInPlace(c, t, regs);
    } else if mn == "eor" {
      r := CliBinaryInPlace(c, b, BitXor, t, regs);
    } else if mn == "mla" {
      r := MultiplyAccumulateInPlace(c, b, ops, regs);
    } else if mn == "mov" {
      r := CliMoveInPlace(c, t, regs);
    } else {
      r := Panic(UnrecognisedInstruction);
    }
  }

  /** The instruction loop of `main`, on a fresh register file; on completion the result
    * is the file `main` prints. */
  method CliMain(c: Ids, b: Build, prog: seq<Insn>) returns (r: Result<File>)
    ensures r == CliRun(c, b, prog, seq(17, _ => 0))
  {
    var regs := new Registers();
    for i := 0 to |prog|
      invariant regs.Valid()
      invariant CliRun(c, b, prog, seq(17, _ => 0)) == CliRun(c, b, prog[i..], regs.Contents())
    {
      assert prog[i..][1..] == prog[i + 1..];
      var split :- CliExtractCondition(prog[i].mnemonic);
      var done := CliExecute(c, b, split.mnemonic, split.condition, prog[i].operands, regs);
      if done.Panic? {
        return Panic(done.fault);
      }
    }
    return Ok(regs.Contents());
  }

  // ---------------------------------------------------------------------------------
  // Properties.

  /** The chain reads only the operand types: two operand lists that differ only in their
    * shifts execute alike. */
  lemma CliIgnoresShifts(c: Ids, b: Build, mn: string, ops: seq<Operand>, others: seq<Operand>, s: File)
    requires OpTypes(ops) == OpTypes(others)
    ensures CliStep(c, b, mn, ops, s) == CliStep(c, b, mn, others, s)
  {
    MultiplyUsesOperandTypes(c, b, ops, others, s);
  }

  /** `mul` and `mla` match on the operands' types alone, so their shifts never matter. */
  lemma MultiplyUsesOperandTypes(c: Ids, b: Build, ops: seq<Operand>, others: seq<Operand>, s: File)
    requires OpTypes(ops) == OpTypes(others)
    ensures Multiply(c, b, ops, s) == Multiply(c, b, others, s)
    ensures MultiplyAccumulate(c, b, ops, s) == MultiplyAccumulate(c, b, others, s)
  {
  }

  /** `bic` computes `rn & x`, the same as `and`, rather than ARM's `rn & !x`. */
  lemma CliBicIsAnd(c: Ids, b: Build, ops: seq<Operand>, s: File)
    ensures CliStep(c, b, "bic", ops, s) == CliStep(c, b, "and", ops, s)
  {
  }

  /** The three-operand arms: `rd` receives ARM's result on `rn` and the second source
    * (with `bic` as `and`), unless a debug build overflows on `add` or `sub`. */
  lemma CliBinaryEffect(c: Ids, b: Build, mn: string, rd: RegId, rn: RegId, src: Operand, s: File)
    requires mn in {"add", "sub", "and", "eor"}
    requires Addressable(c, rd) && Addressable(c, rn)
    requires src.opType.Imm? || (src.opType.Reg? && Addressable(c, src.opType.id))
    ensures var x, y := ReadId(c, s, rn).value, Source(c, s, src.opType).value;
      CliStep(c, b, mn, [R(rd), R(rn), src], s) ==
        if b == Debug && AluOverflows(mn, x, y) then Panic(ArithmeticOverflow)
        else Ok(s[SlotOf(c, rd) := AluReference(mn, x, y)])
  {
  }

  /** On unshifted register and immediate operands, the two dispatchers agree on the
    * three-operand instructions they share. */
  lemma DispatchersAgree(c: Ids, b: Build, mn: string, rd: RegId, rn: RegId, src: Operand, s: File)
    requires mn in {"add", "sub", "and", "eor"}
    requires (src.opType.Imm? && src == I(src.opType.value)) || (src.opType.Reg? && src == R(src.opType.id))
    ensures CliStep(c, b, mn, [R(rd), R(rn), src], s) == Step(c, b, mn, [R(rd), R(rn), src], s)
  {
  }

  /** `mul` and `mla` compute on the command line exactly what the library computes, so
    * `Engine.MultiplyEffect`, `Engine.MultiplyAccumulateRelease` and
    * `Engine.MultiplyAccumulateDebug` describe both. */
  lemma CliMultiplyAsLibrary(c: Ids, b: Build, ops: seq<Operand>, s: File)
    ensures CliStep(c, b, "mul", ops, s) == Step(c, b, "mul", ops, s)
    ensures CliStep(c, b, "mla", ops, s) == Step(c, b, "mla", ops, s)
  {
  }

  /** `clz rd, rm`: `rd` receives the number of leading zero bits of `rm`, 32 for zero. */
  lemma CliClzEffect(c: Ids, b: Build, rd: RegId, rm: RegId, s: File)
    requires Addressable(c, rd) && Addressable(c, rm)
    ensures var x := ReadId(c, s, rm).value;
      CliStep(c, b, "clz", [R(rd), R(rm)], s) == Ok(s[SlotOf(c, rd) := LeadingZeros(x)]) &&
      (x == 0 <==> LeadingZeros(x) == 32)
  {
  }

  /** `mov rd, #n` sets `rd` to `n`; `mov rd, rn` copies `rn`, ignoring any shift on it. */
  lemma CliMoveEffect(c: Ids, b: Build, rd: RegId, n: I32, rn: RegId, sh: Shift, s: File)
    requires Addressable(c, rd) && Addressable(c, rn)
    ensures CliStep(c, b, "mov", [R(rd), I(n)], s) == Ok(s[SlotOf(c, rd) := n])
    ensures CliStep(c, b, "mov", [R(rd), Operand(Reg(rn), sh)], s) == Ok(s[SlotOf(c, rd) := s[SlotOf(c, rn)]])
  {
  }

  /** Anything the chain does not handle panics: the two empty strings of a failed split,
    * `mrs` (which the split accepts), and every mnemonic with a condition suffix. */
  lemma CliUnhandledPanics(c: Ids, b: Build, mn: string, ops: seq<Operand>, s: File)
    requires mn !in CliHandled
    ensures CliStep(c, b, mn, ops, s) == Panic(UnrecognisedInstruction)
  {
  }

  /** An instruction whose mnemonic no entry of the command line's list begins, such as
    * `orr` or `cmp`, is split into empty strings and then panics. */
  lemma CliUnknownMnemonicPanics(c: Ids, b: Build, mn: string, ops: seq<Operand>, s: File)
    requires |mn| < 3 || mn[..3] !in CliMnemonics
    ensures CliRun(c, b, [Insn(mn, ops)], s) == Panic(UnrecognisedInstruction)
  {
    ListsUnambiguous();
    NoPrefixMatches(CliMnemonics, mn);
    assert CliSplit(mn) == Ok(Split("", ""));
  }
}
