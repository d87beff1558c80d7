/** `execute` and the loop of `run_program` as the source runs them: in place, on a
  * `Registers` object, through `Index<&RegId>`, `IndexMut<&RegId>` and `IndexMut<u16>`.
  * Each method is proved to have the effect the matching function of `Engine` describes. */
module Executor {
  import opened Faults
  import opened Words
  import opened Capstone
  import opened Registers
  import opened Status
  import opened Shifter
  import opened Mnemonics
  import opened Engine

  /** The method's outcome `r` and the file it leaves (`after`, from `before`) agree with
    * the specification `spec`; a panic leaves the file as it was. */
  predicate Reflects(r: Result<()>, before: File, after: File, spec: Result<File>) {
    (spec.Ok? ==> r.Ok? && after == spec.value) &&
    (spec.Panic? ==> r == Panic(spec.fault) && after == before)
  }

  /** The `add`/`sub`/`and`/`bic`/`eor`/`orr` arm. */
  method DataProcessingInPlace(c: Ids, b: Build, mn: string, ops: seq<Operand>, regs: Registers) returns (r: Result<()>)
    requires regs.Valid()
    modifies regs.slots
    ensures Reflects(r, old(regs.Contents()), regs.Contents(), DataProcessing(c, b, mn, ops, old(regs.Contents())))
  {
    if |ops| != 3 {
      return Panic(OperandMismatch);
    }
    if ops[0].opType.Reg? && ops[1].opType.Reg? {
      var f :- BinaryOp(mn);
      var x :- regs.IndexId(c, ops[1].opType.id);
      var y :- ValueOf(c, b, regs.Contents(), ops[2]);
      var v :- ApplyBinary(b, f, x, y);
      r := regs.SetId(c, ops[0].opType.id, v);
    } else {
      r := Ok(());
    }
  }

  /** The `mul` arm. */
  method MultiplyInPlace(c: Ids, b: Build, ops: seq<Operand>, regs: Registers) returns (r: Result<()>)
    requires regs.Valid()
    modifies regs.slots
    ensures Reflects(r, old(regs.Contents()), regs.Contents(), Multiply(c, b, ops, old(regs.Contents())))
  {
    var t := OpTypes(ops);
    if |t| == 3 && t[0].Reg? && t[1].Reg? && t[2].Reg? {
      var m :- regs.IndexId(c, t[1].id);
      var n :- regs.IndexId(c, t[2].id);
      var v :- Times(b, m, n);
      r := regs.SetId(c, t[0].id, v);
    } else {
      r := Panic(OperandMismatch);
    }
  }

  /** The `mla` arm. */
  method MultiplyAccumulateInPlace(c: Ids, b: Build, ops: seq<Operand>, regs: Registers) returns (r: Result<()>)
    requires regs.Valid()
    modifies regs.slots
    ensures Reflects(r, old(regs.Contents()), regs.Contents(), MultiplyAccumulate(c, b, ops, old(regs.Contents())))
  {
    var t := OpTypes(ops);
    if |t| == 4 && t[0].Reg? && t[1].Reg? && t[2].Reg? && t[3].Reg? {
      var m :- regs.IndexId(c, t[1].id);
      var sv :- regs.IndexId(c, t[2].id);
      var p :- Times(b, m, sv);
      var n :- regs.IndexId(c, t[3].id);
      var v :- Plus(b, p, n);
      r := regs.SetId(c, t[0].id, v);
    } else {
      r := Panic(OperandMismatch);
    }
  }

  /** The shift and `mov` arm. */
  method MoveInPlace(c: Ids, b: Build, mn: string, ops: seq<Operand>, regs: Registers) returns (r: Result<()>)
    requires regs.Valid()
    modifies regs.slots
    ensures Reflects(r, old(regs.Contents()), regs.Contents(), Move(c, b, mn, ops, old(regs.Contents())))
  {
    if |ops| == 2 {
      if ops[0].opType.Reg? {
        var v :- ValueOf(c, b, regs.Contents(), ops[1]);
        r := regs.SetId(c, ops[0].opType.id, v);
      } else {
        r := Ok(());
      }
    } else if |ops| == 3 {
      if ops[0].opType.Reg? && ops[1].opType.Reg? && ops[2].opType.Reg? {
        var shift :- RegisterShift(mn, ops[2].opType.id);
        var x :- regs.IndexId(c, ops[1].opType.id);
        var v :- ApplyShift(c, b, regs.Contents(), x, shift);
        r := regs.SetId(c, ops[0].opType.id, v);
      } else {
        r := Ok(());
      }
    } else {
      r := Panic(OperandMismatch);
    }
  }

  /** The `mvn` arm. */
  method MoveNotInPlace(c: Ids, b: Build, ops: seq<Operand>, regs: Registers) returns (r: Result<()>)
    requires regs.Valid()
    modifies regs.slots
    ensures Reflects(r, old(regs.Contents()), regs.Contents(), MoveNot(c, b, ops, old(regs.Contents())))
  {
    if |ops| != 2 {
      return Panic(OperandMismatch);
    }
    if ops[0].opType.Reg? {
      var v :- ValueOf(c, b, regs.Contents(), ops[1]);
      r := regs.SetId(c, ops[0].opType.id, Not(v));
    } else {
      r := Ok(());
    }
  }

  /** The `cmp` and `cmn` arms: a fresh `StatusFlags` filled in one flag at a time, packed,
    * and stored through the numeric index of APSR. */
  method CompareInPlace(c: Ids, b: Build, negated: bool, ops: seq<Operand>, regs: Registers) returns (r: Result<()>)
    requires regs.Valid()
    modifies regs.slots
    ensures Reflects(r, old(regs.Contents()), regs.Contents(), Compare(c, b, negated, ops, old(regs.Contents())))
  {
    if |ops| != 2 {
      return Panic(OperandMismatch);
    }
    if ops[0].opType.Reg? {
      var v :- ValueOf(c, b, regs.Contents(), ops[1]);
      var flags := NewFlags();
      var x :- regs.IndexId(c, ops[0].opType.id);
      if negated {
        var (aluOut, overflow) := OverflowingAdd(x, v);
        flags := flags.(negative := aluOut < 0);
        flags := flags.(zero := aluOut == 0);
        flags := flags.(carry := OverflowingAddU32(AsU32(x), AsU32(v)).1);
        flags := flags.(overflow := overflow);
      } else {
        var (aluOut, overflow) := OverflowingSub(x, v);
        flags := flags.(negative := aluOut < 0);
        flags := flags.(zero := aluOut == 0);
        flags := flags.(carry := !OverflowingSubU32(AsU32(x), AsU32(v)).1);
        flags := flags.(overflow := overflow);
      }
      var word := ToWord(flags);
      r := regs.SetIndex(c.apsr, word);
    } else {
      r := Ok(());
    }
  }

  /** The `mrs` arm. */
  method StatusReadInPlace(c: Ids, ops: seq<Operand>, regs: Registers) returns (r: Result<()>)
    requires regs.Valid()
    modifies regs.slots
    ensures Reflects(r, old(regs.Contents()), regs.Contents(), StatusRead(c, ops, old(regs.Contents())))
  {
    var t := OpTypes(ops);
    if |t| == 2 && t[0].Reg? && t[1].Reg? {
      if t[1].id.raw == c.apsr || t[1].id.raw == c.spsr {
        var v :- regs.IndexId(c, t[1].id);
        r := regs.SetId(c, t[0].id, v);
      } else {
        r := Panic(NotStatusRegister);
      }
    } else {
      r := Panic(OperandMismatch);
    }
  }

  /** `execute(cs, insn, mnemonic, condition, regs)`; the condition is not used. */
  method Execute(c: Ids, b: Build, mn: string, condition: string, ops: seq<Operand>, regs: Registers) returns (r: Result<()>)
    requires regs.Valid()
    modifies regs.slots
    ensures Reflects(r, old(regs.Contents()), regs.Contents(), Step(c, b, mn, ops, old(regs.Contents())))
  {
    if mn in DataProcessingMnemonics {
      r := DataProcessingInPlace(c, b, mn, ops, regs);
    } else if mn == "mul" {
      r := MultiplyInPlace(c, b, ops, regs);
    } else if mn == "mla" {
      r := MultiplyAccumulateInPlace(c, b, ops, regs);
    } else if mn in MoveMnemonics {
      r := MoveInPlace(c, b, mn, ops, regs);
    } else if mn == "mvn" {
      r := MoveNotInPlace(c, b, ops, regs);
    } else if mn == "cmp" {
      r := CompareInPlace(c, b, false, ops, regs);
    } else if mn == "cmn" {
      r := CompareInPlace(c, b, true, ops, regs);
    } else if mn == "mrs" {
      r := StatusReadInPlace(c, ops, regs);
    } else {
      r := Panic(UnrecognisedMnemonic);
    }
  }

  /** The loop of `run_program` over the disassembled instructions. A panic stops the run
    * with the registers as the instructions before it left them. */
  method RunProgram(c: Ids, b: Build, prog: seq<Insn>, regs: Registers) returns (r: Result<()>)
    requires regs.Valid()
    modifies regs.slots
    ensures Run(c, b, prog, old(regs.Contents())).Ok? ==>
      r == Ok(()) && regs.Contents() == Run(c, b, prog, old(regs.Contents())).value
    ensures Run(c, b, prog, old(regs.Contents())).Panic? ==>
      r == Panic(Run(c, b, prog, old(regs.Contents())).fault)
    ensures regs.Contents() == Reached(c, b, prog, old(regs.Contents()))
  {
    for i := 0 to |prog|
      invariant regs.Valid()
      invariant Run(c, b, prog, old(regs.Contents())) == Run(c, b, prog[i..], regs.Contents())
      invariant Reached(c, b, prog, old(regs.Contents())) == Reached(c, b, prog[i..], regs.Contents())
    {
      assert prog[i..][1..] == prog[i + 1..];
      var split :- ExtractCondition(prog[i].mnemonic);
      var done := Execute(c, b, split.mnemonic, split.condition, prog[i].operands, regs);
      if done.Panic? {
        return done;
      }
    }
    return Ok(());
  }
}
