/** The interpreter's integration tests restated as facts about the model: the values the
  * tests expect follow from the definitions, for any consistent numbering of the
  * registers. */
module Scenarios {
  import opened Faults
  import opened Words
  import opened Capstone
  import opened Registers
  import opened Status
  import opened Mnemonics
  import opened Shifter
  import opened Engine

  // ---------------------------------------------------------------------------------
  // Status words written by `cmp` and `cmn`.

  lemma CmpEqualZeros()
    ensures Pack(CmpFlags(0, 0)) == 0x6000_0010
  {
  }

  lemma CmpZeroWithOne()
    ensures Pack(CmpFlags(0, 1)) == Wrap(0x8000_0010)
  {
  }

  lemma CmpOneWithMinimum()
    ensures Pack(CmpFlags(1, -0x8000_0000)) == Wrap(0x9000_0010)
  {
  }

  lemma CmpMinimumWithOne()
    ensures Pack(CmpFlags(-0x8000_0000, 1)) == 0x3000_0010
  {
  }

  lemma CmpOneWithMinusTwo()
    ensures Pack(CmpFlags(1, -2)) == 0x10
  {
  }

  lemma CmpTwoWithOne()
    ensures Pack(CmpFlags(2, 1)) == 0x2000_0010
  {
  }

  lemma CmnZeros()
    ensures Pack(CmnFlags(0, 0)) == 0x4000_0010
  {
  }

  lemma CmnZeroAndOne()
    ensures Pack(CmnFlags(0, 1)) == 0x10
  {
  }

  lemma CmnZeroAndMinusOne()
    ensures Pack(CmnFlags(0, -1)) == Wrap(0x8000_0010)
  {
  }

  lemma CmnMaximumAndOne()
    ensures Pack(CmnFlags(0x7FFF_FFFF, 1)) == Wrap(0x9000_0010)
  {
  }

  lemma CmnMinimumAndMinusOne()
    ensures Pack(CmnFlags(-0x8000_0000, -1)) == 0x3000_0010
  {
  }

  // ---------------------------------------------------------------------------------
  // The shifted moves.

  /** `lsl` of 4 by an immediate 2. */
  lemma ShiftLeftByTwo(b: Build)
    ensures ShiftLeft(b, 4, 2) == Ok(16)
  {
    assert Pow2(1) == 2 && Pow2(2) == 4;
    assert 4 * Pow2(2 % 32) == 16;
  }

  /** `lsl` of 4 by 1, the amount `mov r3, r0, LSL r1` reads from r1. */
  lemma ShiftLeftByOne(b: Build)
    ensures ShiftLeft(b, 4, 1) == Ok(8)
  {
    assert Pow2(1) == 2;
  }

  /** `lsr` and `asr` of 4. */
  lemma ShiftRightExamples(b: Build)
    ensures ShiftRight(b, 4, 2) == Ok(1) && ShiftRight(b, 4, 1) == Ok(2)
  {
  }

  /** `ror` of 1 by 2 and by 1, and the carry-less `rrx` of 1. */
  lemma RotateExamples()
    ensures RotateRight(1, 2) == 0x4000_0000
    ensures RotateRight(1, 1) == -0x8000_0000
  {
    assert Halve(1, 2) == 0 && LowBits(1, 2) == 1 && Pow2(30) == 0x4000_0000;
    assert Halve(1, 1) == 0 && LowBits(1, 1) == 1 && Pow2(31) == 0x8000_0000;
  }

  /** `mvn` of 0 and of 0xf. */
  lemma NotExamples()
    ensures Not(0) == -1 && Not(0xF) == -16
  {
  }

  // ---------------------------------------------------------------------------------
  // A whole program.

  /** A program of plain mnemonics runs one instruction after another. */
  lemma RunPlain(c: Ids, b: Build, i: Insn, rest: seq<Insn>, s: File)
    requires i.mnemonic in LibMnemonics
    ensures var step := Step(c, b, i.mnemonic, i.operands, s);
      Run(c, b, [i] + rest, s) == if step.Ok? then Run(c, b, rest, step.value) else Panic(step.fault)
  {
    ListsUnambiguous();
    assert i.mnemonic + "" == i.mnemonic;
    ExtractBaseAndCondition(LibMnemonics, i.mnemonic, "", Panic(UnrecognisedMnemonic));
    assert ([i] + rest)[0] == i && ([i] + rest)[1..] == rest;
  }

  /** A program of plain mnemonics whose every instruction completes runs through the given
    * sequence of register files and ends in the last. */
  lemma {:induction false} RunSteps(c: Ids, b: Build, p: seq<Insn>, states: seq<File>)
    requires |states| == |p| + 1
    requires forall k | 0 <= k < |p| :: p[k].mnemonic in LibMnemonics
    requires forall k | 0 <= k < |p| :: Step(c, b, p[k].mnemonic, p[k].operands, states[k]) == Ok(states[k + 1])
    ensures Run(c, b, p, states[0]) == Ok(states[|p|])
    decreases |p|
  {
    if p != [] {
      RunSteps(c, b, p[1..], states[1..]);
      RunPlain(c, b, p[0], p[1..], states[0]);
      assert p == [p[0]] + p[1..];
    }
  }

  /** A program of `mov rk, #vals[k]` for the first registers. */
  function Moves(c: Ids, vals: seq<I32>): (p: seq<Insn>)
    requires |vals| <= 13
    ensures |p| == |vals|
    ensures forall k | 0 <= k < |vals| :: p[k] == Insn("mov", [R(General(c, k)), I(vals[k])])
  {
    seq(|vals|, k requires 0 <= k < |vals| => Insn("mov", [R(General(c, k)), I(vals[k])]))
  }

  /** `s` with the first `|vals|` slots replaced by `vals`. */
  function Filled(s: File, vals: seq<I32>): (t: File)
    requires |vals| <= 13
    ensures forall k | 0 <= k < 17 :: t[k] == if k < |vals| then vals[k] else s[k]
  {
    seq(17, k requires 0 <= k < 17 => if k < |vals| then vals[k] else s[k])
  }

  /** Writing the next value into slot `k` extends the filled prefix by one. */
  lemma FilledExtend(s: File, vals: seq<I32>, k: nat)
    requires k < |vals| <= 13
    ensures Filled(s, vals[..k])[k := vals[k]] == Filled(s, vals[..k + 1])
  {
    var t, u := Filled(s, vals[..k])[k := vals[k]], Filled(s, vals[..k + 1]);
    forall i | 0 <= i < 17
      ensures t[i] == u[i]
    {
    }
  }

  /** One move of a prefix-filling program. */
  lemma MoveFills(c: Ids, b: Build, mn: string, op: Operand, vals: seq<I32>, s: File, k: nat)
    requires k < |vals| <= 13 && mn in MoveMnemonics
    requires ValueOf(c, b, Filled(s, vals[..k]), op) == Ok(vals[k])
    ensures Step(c, b, mn, [R(General(c, k)), op], Filled(s, vals[..k])) == Ok(Filled(s, vals[..k + 1]))
  {
    FilledExtend(s, vals, k);
  }

  /** A program whose `k`-th instruction writes `vals[k]` into slot `k` leaves the first
    * `|vals|` slots filled with `vals`. */
  lemma FillsRun(c: Ids, b: Build, p: seq<Insn>, vals: seq<I32>, s: File)
    requires |p| == |vals| <= 13
    requires forall k | 0 <= k < |p| :: p[k].mnemonic in LibMnemonics
    requires forall k | 0 <= k < |p| ::
      Step(c, b, p[k].mnemonic, p[k].operands, Filled(s, vals[..k])) == Ok(Filled(s, vals[..k + 1]))
    ensures Run(c, b, p, s) == Ok(Filled(s, vals))
  {
    var states := seq(|vals| + 1, k requires 0 <= k <= |vals| => Filled(s, vals[..k]));
    assert states[0] == s by {
      assert vals[..0] == [];
      assert forall i | 0 <= i < 17 :: states[0][i] == s[i];
    }
    assert states[|p|] == Filled(s, vals) by {
      assert vals[..|vals|] == vals;
    }
    RunSteps(c, b, p, states);
  }

  /** A run of immediate moves leaves each value in its register and the other slots as
    * they were. */
  lemma MovesRun(c: Ids, b: Build, vals: seq<I32>, s: File)
    requires |vals| <= 13
    ensures Run(c, b, Moves(c, vals), s) == Ok(Filled(s, vals))
  {
    var p := Moves(c, vals);
    forall k | 0 <= k < |p|
      ensures Step(c, b, p[k].mnemonic, p[k].operands, Filled(s, vals[..k])) == Ok(Filled(s, vals[..k + 1]))
    {
      MoveFills(c, b, "mov", I(vals[k]), vals, s, k);
    }
    FillsRun(c, b, p, vals, s);
  }

  /** The `add` test's program: `mov r0, #1; add r1, r0, #2; add r2, r0, r1; mvn r3, #0;
    * add r4, r3, r3`. */
  function AddTest(c: Ids): seq<Insn>
  {
    var r0, r1, r2, r3, r4 := General(c, 0), General(c, 1), General(c, 2), General(c, 3), General(c, 4);
    [Insn("mov", [R(r0), I(1)]), Insn("add", [R(r1), R(r0), I(2)]), Insn("add", [R(r2), R(r0), R(r1)]),
     Insn("mvn", [R(r3), I(0)]), Insn("add", [R(r4), R(r3), R(r3)])]
  }

  /** What the `add` test leaves in r0..r4. */
  const AddValues: seq<I32> := [1, 3, 4, -1, -2]

  /** Instruction `k` of the `add` test writes its expected value. */
  lemma AddTestStep(c: Ids, b: Build, s: File, k: nat)
    requires k < 5
    ensures var p := AddTest(c);
      Step(c, b, p[k].mnemonic, p[k].operands, Filled(s, AddValues[..k])) == Ok(Filled(s, AddValues[..k + 1]))
  {
    var t := Filled(s, AddValues[..k]);
    var r0, r1, r3 := General(c, 0), General(c, 1), General(c, 3);
    FilledExtend(s, AddValues, k);
    if k == 0 {
      MoveImmediate(c, b, "mov", r0, Invalid, 1, Invalid, t);
    } else if k == 1 {
      DataProcessingEffect(c, b, "add", General(c, 1), r0, Invalid, Invalid, I(2), t);
    } else if k == 2 {
      DataProcessingEffect(c, b, "add", General(c, 2), r0, Invalid, Invalid, R(r1), t);
    } else if k == 3 {
      MoveNotEffect(c, b, r3, Invalid, I(0), t);
    } else {
      DataProcessingEffect(c, b, "add", General(c, 4), r3, Invalid, Invalid, R(r3), t);
    }
  }

  /** The `add` test leaves 1 in r0, 3 in r1, 4 in r2, -1 in r3 and -2 in r4, and nothing
    * else changes. */
  lemma AddProgram(c: Ids, b: Build, s: File)
    ensures Run(c, b, AddTest(c), s) == Ok(Filled(s, AddValues))
  {
    forall k | 0 <= k < 5
      ensures Step(c, b, AddTest(c)[k].mnemonic, AddTest(c)[k].operands, Filled(s, AddValues[..k])) ==
        Ok(Filled(s, AddValues[..k + 1]))
    {
      AddTestStep(c, b, s, k);
    }
    FillsRun(c, b, AddTest(c), AddValues, s);
  }

  /** The `sub` test's program: `mov r0, #3; sub r1, r0, #1; sub r2, r0, r1; mov r3, #0;
    * sub r4, r3, #1`. */
  function SubTest(c: Ids): seq<Insn>
  {
    var r0, r1, r2, r3, r4 := General(c, 0), General(c, 1), General(c, 2), General(c, 3), General(c, 4);
    [Insn("mov", [R(r0), I(3)]), Insn("sub", [R(r1), R(r0), I(1)]), Insn("sub", [R(r2), R(r0), R(r1)]),
     Insn("mov", [R(r3), I(0)]), Insn("sub", [R(r4), R(r3), I(1)])]
  }

  /** What the `sub` test leaves in r0..r4. */
  const SubValues: seq<I32> := [3, 2, 1, 0, -1]

  /** Instruction `k` of the `sub` test writes its expected value. */
  lemma SubTestStep(c: Ids, b: Build, s: File, k: nat)
    requires k < 5
    ensures var p := SubTest(c);
      Step(c, b, p[k].mnemonic, p[k].operands, Filled(s, SubValues[..k])) == Ok(Filled(s, SubValues[..k + 1]))
  {
    var t := Filled(s, SubValues[..k]);
    var r0, r1, r3 := General(c, 0), General(c, 1), General(c, 3);
    FilledExtend(s, SubValues, k);
    if k == 0 {
      MoveImmediate(c, b, "mov", r0, Invalid, 3, Invalid, t);
    } else if k == 1 {
      DataProcessingEffect(c, b, "sub", r1, r0, Invalid, Invalid, I(1), t);
    } else if k == 2 {
      DataProcessingEffect(c, b, "sub", General(c, 2), r0, Invalid, Invalid, R(r1), t);
    } else if k == 3 {
      MoveImmediate(c, b, "mov", r3, Invalid, 0, Invalid, t);
    } else {
      DataProcessingEffect(c, b, "sub", General(c, 4), r3, Invalid, Invalid, I(1), t);
    }
  }

  /** The `sub` test leaves 3 in r0, 2 in r1, 1 in r2, 0 in r3 and -1 in r4, and nothing
    * else changes. */
  lemma SubProgram(c: Ids, b: Build, s: File)
    ensures Run(c, b, SubTest(c), s) == Ok(Filled(s, SubValues))
  {
    forall k | 0 <= k < 5
      ensures Step(c, b, SubTest(c)[k].mnemonic, SubTest(c)[k].operands, Filled(s, SubValues[..k])) ==
        Ok(Filled(s, SubValues[..k + 1]))
    {
      SubTestStep(c, b, s, k);
    }
    FillsRun(c, b, SubTest(c), SubValues, s);
  }

  /** The `sub` test reads its results with the numeric index `ARM_REG_R1 as u16` and so
    * on, which names slot `ARM_REG_R1` and not the register r1: the read panics once that
    * number is past the seventeen slots, and gives the expected 2, 1 and -1 only when
    * `ARM_REG_R0` is 0. */
  lemma SubTestReadsByNumber(c: Ids, b: Build, s: File)
    ensures var r := Run(c, b, SubTest(c), s);
      r.Ok? &&
      (ReadIndex(r.value, c.r0 + 1).Ok? <==> c.r0 + 1 <= 16) &&
      (c.r0 == 0 ==> ReadIndex(r.value, 1) == Ok(2) && ReadIndex(r.value, 2) == Ok(1) && ReadIndex(r.value, 4) == Ok(-1))
  {
    SubProgram(c, b, s);
  }

  /** The immediates of the `mov` test: `#0`, `#1`, `#'a'`, `#0b1010`, and the rotated
    * eight-bit constants `#0xff` .. `#0xf000000f`, the last two read as `i32`. */
  const MovTestValues: seq<I32> := [0, 1, 97, 10, 0xFF, 0x104, 0xFF0, 0xFF00, 0xFF000, -0x100_0000, -0x0FFF_FFF1]

  /** The `mov` test leaves each immediate in r0..r10. */
  lemma MovProgram(c: Ids, b: Build, s: File)
    ensures var r := Run(c, b, Moves(c, MovTestValues), s);
      r.Ok? && forall k | 0 <= k < 11 :: ReadId(c, r.value, General(c, k)) == Ok(MovTestValues[k])
  {
    MovesRun(c, b, MovTestValues, s);
  }

  /** The `mvn` test's program: `mvn r0, #0; mvn r1, #0xf`. */
  function MvnTest(c: Ids): seq<Insn>
  {
    [Insn("mvn", [R(General(c, 0)), I(0)]), Insn("mvn", [R(General(c, 1)), I(0xF)])]
  }

  /** The values the `mvn` test expects in r0 and r1. */
  const MvnValues: seq<I32> := [-1, -16]

  /** The `mvn` test leaves -1 and -16 in r0 and r1 and the other slots as they were. */
  lemma MvnProgram(c: Ids, b: Build, s: File)
    ensures Run(c, b, MvnTest(c), s) == Ok(Filled(s, MvnValues))
  {
    var p := MvnTest(c);
    NotExamples();
    forall k | 0 <= k < 2
      ensures Step(c, b, p[k].mnemonic, p[k].operands, Filled(s, MvnValues[..k])) ==
        Ok(Filled(s, MvnValues[..k + 1]))
    {
      FilledExtend(s, MvnValues, k);
    }
    FillsRun(c, b, p, MvnValues, s);
  }

  /** The `mov_shift` test's program. Capstone reports the shifted moves under their shift
    * aliases (`lsl r2, r0, #2` and so on); they are spelled `mov` here because, with two
    * operands, every mnemonic of the move arm takes the same path, so the run is the same
    * for either spelling. */
  function MovShiftTest(c: Ids): seq<Insn>
  {
    var r0, r1 := General(c, 0), General(c, 1);
    [Insn("mov", [R(r0), I(4)]), Insn("mov", [R(r1), I(1)]),
     Insn("mov", [R(General(c, 2)), Operand(Reg(r0), Lsl(2))]), Insn("mov", [R(General(c, 3)), Operand(Reg(r0), LslReg(r1))]),
     Insn("mov", [R(General(c, 4)), Operand(Reg(r0), Lsr(2))]), Insn("mov", [R(General(c, 5)), Operand(Reg(r0), LsrReg(r1))]),
     Insn("mov", [R(General(c, 6)), Operand(Reg(r0), Asr(2))]), Insn("mov", [R(General(c, 7)), Operand(Reg(r0), AsrReg(r1))]),
     Insn("mov", [R(General(c, 8)), Operand(Reg(r1), Ror(2))]), Insn("mov", [R(General(c, 9)), Operand(Reg(r1), RorReg(r1))]),
     Insn("mov", [R(General(c, 10)), Operand(Reg(r1), Rrx(0))])]
  }

  /** The values the `mov_shift` test expects in r0..r10. */
  const MovShiftValues: seq<I32> := [4, 1, 16, 8, 1, 2, 1, 2, 0x4000_0000, -0x8000_0000, -0x8000_0000]

  /** Once r0 holds 4 and r1 holds 1, each shifted operand of the `mov_shift` test has the
    * expected value. */
  lemma MovShiftOperands(c: Ids, b: Build, s: File, k: nat)
    requires 2 <= k < 11 && s[0] == 4 && s[1] == 1
    ensures ValueOf(c, b, s, MovShiftTest(c)[k].operands[1]) == Ok(MovShiftValues[k])
  {
    ShiftLeftByTwo(b);
    ShiftLeftByOne(b);
    ShiftRightExamples(b);
    RotateExamples();
  }

  /** The `mov_shift` test leaves 4, 1, 16, 8, 1, 2, 1, 2, 2^30, -2^31 and -2^31 in
    * r0..r10. */
  lemma MovShiftProgram(c: Ids, b: Build, s: File)
    ensures Run(c, b, MovShiftTest(c), s) == Ok(Filled(s, MovShiftValues))
  {
    var p := MovShiftTest(c);
    forall k | 0 <= k < 11
      ensures Step(c, b, p[k].mnemonic, p[k].operands, Filled(s, MovShiftValues[..k])) ==
        Ok(Filled(s, MovShiftValues[..k + 1]))
    {
      if k >= 2 {
        MovShiftOperands(c, b, Filled(s, MovShiftValues[..k]), k);
      }
      MoveFills(c, b, "mov", p[k].operands[1], MovShiftValues, s, k);
    }
    FillsRun(c, b, p, MovShiftValues, s);
  }

  /** The first `cmp` test, `mov r0, #0; cmp r0, #0`: the packed word `0x6000_0010` (Z and C
    * set, User mode) lands in the slot numbered like APSR. */
  lemma CompareProgram(c: Ids, b: Build, s: File)
    requires c.apsr <= 16
    ensures var r0 := General(c, 0);
      Run(c, b, [Insn("mov", [R(r0), I(0)]), Insn("cmp", [R(r0), I(0)])], s) == Ok(s[0 := 0][c.apsr := 0x6000_0010])
  {
    var r0 := General(c, 0);
    var i0, i1 := Insn("mov", [R(r0), I(0)]), Insn("cmp", [R(r0), I(0)]);
    MoveImmediate(c, b, "mov", r0, Invalid, 0, Invalid, s);
    CompareEffect(c, b, false, r0, Invalid, I(0), s[0 := 0]);
    CmpEqualZeros();
    RunPlain(c, b, i1, [], s[0 := 0]);
    RunPlain(c, b, i0, [i1], s);
    assert [i0, i1] == [i0] + [i1] && [i1] == [i1] + [];
  }
}
