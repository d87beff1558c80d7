# komodo: a verified model of the ARMv4 user-mode execution engine

komodo interprets ARM assembly. The assembler and the Capstone disassembler turn a program
into decoded instructions. The engine then executes those instructions, one at a time, on a
register file of seventeen `i32` slots: r0 to r12, sp, lr, pc and apsr. This project models
that engine in Dafny:

- the register file and its two ways of addressing a slot: a numeric `u16` index, or a
  Capstone `RegId`;
- the status word: N, Z, C and V in bits 31 to 28, and the User mode `0b10000` below them;
- the splitting of a mnemonic into its base operation and its condition code, following
  section A3.2.1 of the ARM Architecture Reference Manual (DDI 0100);
- the shifter operand, Addressing Mode 1 of that manual (section A5.1), exactly as
  `value_of` and `apply_shift` evaluate it;
- the library dispatcher `execute` of `src/lib.rs`, and the older `if`/`else` dispatcher
  of `src/main.rs` that the command-line binary runs.

Files (modules):

- `faults.dfy` (`Faults`): the reasons a run can panic, and the `Result` type that carries
  them.
- `words.dfy` (`Words`): Rust `i32` and `u32` arithmetic as the source uses it.
  - Two's-complement wrap.
  - Bit patterns, and `&`, `|`, `^` and `!` defined bit by bit.
  - `overflowing_add` and `overflowing_sub`.
  - Shifts, rotation and `leading_zeros`.
- `status.dfy` (`Status`): `StatusFlags`, `ProcessorMode` and both `From` conversions.
- `capstone.dfy` (`Capstone`): the decoded instruction as the engine sees it.
  - Register ids.
  - Operands: a register, an immediate or something else, each with a shift.
  - The numeric register constants, as a parameter.
- `registers.dfy` (`Registers`): the register file.
  - As a value: slot mapping, reads and writes.
  - As a class over a 17-element array: `Index` and `IndexMut`.
- `mnemonics.dfy` (`Mnemonics`): both `extract_condition`s, each a loop with early returns,
  proved against a specification.
- `shifter.dfy` (`Shifter`): `apply_shift` and `value_of`.
- `engine.dfy` (`Engine`): every arm of the library's `execute`, and the `run_program`
  loop, each as a function on a register file, with lemmas stating what each instruction
  does.
- `executor.dfy` (`Executor`): the same arms in place, on a `Registers` object, each proved
  to reach the state the function describes.
- `cli.dfy` (`Cli`): the command-line dispatcher and its loop, as functions and in place.
- `scenarios.dfy` (`Scenarios`): the integration tests of `tests/test.rs` restated as
  facts about the model.
  - The `mov`, `mov_shift`, `mvn`, `add` and `sub` programs, run from any register file (`mov_shift` spelled with `mov` throughout; see `MovShiftTest`).
  - The first `cmp` program, and the status word each `cmp` and `cmn` test expects.
  - The `mov_panic` tests are left out (see below).

Conventions:

- **Register values.** A register value is an `int` in the `i32` range (`I32`). `Wrap` is
  two's-complement wrap-around. `AsU32` is `as u32`. Bit `k` of `x` is bit `k` of
  `AsU32(x)`.
- **Build mode.** Rust's overflow behaviour depends on the build, so it is a parameter `b`:
  - `Debug` turns an overflowing `+`, `-` or `*` into a panic, and likewise a shift whose
    amount, read as `u32`, is 32 or more;
  - `Release` wraps the result and masks the shift amount to five bits.
- **Capstone constants.** Capstone's numeric register constants (`ARM_REG_R0` … `ARM_REG_R15`,
  `ARM_REG_APSR`, `ARM_REG_SPSR`) are not part of this model. They are the record `c: Ids`.
  Its only assumptions are the ones the code relies on:
  - R0..R12 are consecutive;
  - R13, R14, R15, APSR and SPSR are distinct from each other and lie outside that range.

  Nothing is claimed about their values. So the model keeps the two ways the status word
  is reached apart:
  - `cmp` and `cmn` write through the numeric index `ARM_REG_APSR as u16`;
  - a `RegId` of APSR reaches slot 16 through `Index<&RegId>`.
- **Panics.** A panic is `Panic(fault)`. Every arm writes its destination last, after
  evaluating the right-hand side, as Rust does for an indexed assignment. So a panicking
  instruction leaves the register file as it was, and a run stops at the first panic.

Where the code departs from the ARM Architecture Reference Manual (DDI 0100), the model
follows the code:

- **BIC.** Chapter A4 of the manual defines BIC as `Rn AND NOT shifter_operand`.
  - In `src/lib.rs`, `bic` is dispatched to the data-processing arm, but it is in neither
    the mnemonic list nor `binary_op`'s table. So it panics in `extract_condition`, and it
    would panic in `binary_op` if it got that far.
  - On the command line, `bic` computes `rn & x`, the same as `and`.
- **LSR.** In section A5.1 of the manual, LSR is a logical shift: the vacated bits are
  zero. The code shifts an `i32` with `>>`, so it sign-extends.
- **Register shift amounts.** In the manual, a shift by a register uses only the least
  significant byte of that register. The code uses the whole register value:
  - `<<` and `>>` check the amount (debug build) or mask it to five bits (release build);
  - a rotation uses the value `as u32`.
- **RRX.** In the manual, RRX shifts right by one and moves the C flag into bit 31. The
  code rotates right by one and ignores the carry.
- **Returned mnemonic.** The split returns the whole mnemonic, condition included, not its
  base. So neither dispatcher recognises an instruction with a condition code.

Every entry of both mnemonic lists has three letters, and the entries are distinct. So the
first entry that is a prefix of a mnemonic is also the only one.

## Model

| member | source | states |
|---|---|---|
| Status.FromWord | src/lib.rs:46-56 | N is the sign; Z, C and V are set exactly when the pattern, with the bits above theirs cleared, reaches 2^30, 2^29 and 2^28; the mode is always User |
| Status.NewFlags | src/lib.rs:35-43 | defined as the record with all four flags clear and the mode User (a definition; it has no contract of its own) |
| Status.Pack | src/lib.rs:58-76 | bit 31 is N, bit 30 is Z, bit 29 is C, bit 28 is V, and the remaining 28 bits are exactly 0x10 |
| Status.ToWord | src/lib.rs:58-76 | the `ans \|= …` accumulation yields the packed word |
| Status.UnpackPack | src/lib.rs:46-76 | packing and then unpacking returns the same flags |
| Status.PackUnpack | src/lib.rs:46-76 | unpacking and then packing gives `(n & 0xF000_0000) \| 0x10` |
| Capstone.OpTypes | src/lib.rs:254-263 | the operand types are the operands' types, in order |
| Registers.IndexSlot | src/registers.rs:36-92 | index k in 0..16 selects slot k in field order; any other index panics |
| Registers.IdSlot | src/registers.rs:94-132 | R0..R12 go to slot `id - R0`; R13, R14, R15 and APSR go to sp, lr, pc and apsr; anything else panics |
| Registers.IdSlotBijective | src/registers.rs:94-132 | every slot is named by exactly one register id |
| Registers.SpsrHasNoSlot | src/registers.rs:106-109 | SPSR has no slot, so reading or writing it panics |
| Registers.ReadIndex | src/registers.rs:36-64 | a numeric read succeeds exactly on 0..16, and returns that slot |
| Registers.WriteIndex | src/registers.rs:66-92 | a numeric write succeeds exactly on 0..16, replaces that slot and no other |
| Registers.ReadId | src/registers.rs:94-112 | a read through a `RegId` succeeds exactly on addressable ids and returns the slot `IdSlot` names; otherwise it panics with index out of bounds |
| Registers.WriteId | src/registers.rs:114-132 | a write through a `RegId` changes exactly the slot `IdSlot` names, or panics |
| Registers.ReadAfterWriteIndex | src/registers.rs:36-92 | after `regs[i] = v`, index i reads v and every other index reads what it read before |
| Registers.ReadAfterWriteId | src/registers.rs:94-132 | after `regs[&id] = v`, id reads v and every other id reads as before: the read and write mappings agree |
| Registers.Registers.constructor | src/registers.rs:30-34 | `Registers::new()` has all seventeen slots zero |
| Registers.Registers.Index | src/registers.rs:36-64 | the array read agrees with the value-level numeric read |
| Registers.Registers.IndexId | src/registers.rs:94-112 | the array read agrees with the value-level `RegId` read |
| Registers.Registers.SetIndex | src/registers.rs:66-92 | the in-place numeric write leaves the array equal to the value-level write, or unchanged on a panic |
| Registers.Registers.SetId | src/registers.rs:114-132 | the in-place `RegId` write leaves the array equal to the value-level write, or unchanged on a panic |
| Mnemonics.FirstPrefix | src/lib.rs:224-225 | the scan finds the first list entry that is a prefix; when it finds none, no entry is a prefix |
| Mnemonics.LibSplit | src/lib.rs:200-238 | the library's split panics when no entry matches; a success is the whole mnemonic, a list entry and a legal condition that ends it |
| Mnemonics.CliSplit | src/main.rs:99-127 | the command line's split gives two empty strings when no entry matches; a success through an entry is the whole mnemonic, a list entry and a legal condition that ends it |
| Mnemonics.Scan | src/lib.rs:224-237 | the loop with early returns computes the specified split |
| Mnemonics.ExtractCondition | src/lib.rs:200-238 | the library's `extract_condition` is the split over its 17-entry list, which panics when nothing matches |
| Mnemonics.CliExtractCondition | src/main.rs:99-127 | the command line's `extract_condition` is the split over its 10-entry list, which returns two empty strings when nothing matches |
| Mnemonics.ListsUnambiguous | src/lib.rs:203-206 | both lists hold distinct three-letter entries |
| Mnemonics.AtMostOnePrefix | src/lib.rs:224-225 | in such a list the first prefix is also the only one |
| Mnemonics.ExtractBaseAndCondition | src/lib.rs:224-233 | a known base followed by a condition code splits into the whole mnemonic and that code |
| Mnemonics.IllegalConditionPanics | src/lib.rs:228-231 | a known base followed by anything that is not a condition code panics with an unknown condition |
| Mnemonics.SplitShape | src/lib.rs:224-237 | with no matching entry the scan gives the fallback; a successful split through an entry returns the whole mnemonic, a legal condition that ends it, and a list entry before that condition; with a panicking fallback, success needs a matching entry |
| Mnemonics.UnknownMnemonic | src/lib.rs:237 | a mnemonic that no entry begins panics in the library and yields `["", ""]` on the command line |
| Mnemonics.SplitKeepsSuffix | src/lib.rs:233 | `addne` splits into `addne` and `ne`: the full mnemonic, not the base |
| Mnemonics.SetFlagsSuffixRejected | src/lib.rs:227-231 | `adds` panics: `s` is not a condition code, and the check on it does nothing |
| Mnemonics.LibraryRejectsBic | src/lib.rs:203-206 | the library panics on `bic` |
| Mnemonics.CommandLineAcceptsBic | src/main.rs:101-103 | the command line accepts `bic` |
| Mnemonics.LibraryAcceptsOrr | src/lib.rs:203-206 | the library accepts `orr` |
| Mnemonics.CommandLineIgnoresOrr | src/main.rs:114-126 | the command line splits `orr` into two empty strings |
| Words.Wrap | src/lib.rs:381-382 | the wrapped value is the `i32` congruent to the exact result modulo 2^32, and equals it when it fits |
| Words.AsU32 | src/lib.rs:332-333 | `as u32` reads the same bit pattern as unsigned, and converts back |
| Words.And | src/lib.rs:383 | bit k of `x & y` is set exactly when bit k is set in both |
| Words.Or | src/lib.rs:385 | bit k of `x \| y` is set exactly when bit k is set in either |
| Words.Xor | src/lib.rs:384 | bit k of `x ^ y` is set exactly when the bits differ |
| Words.OverflowingAdd | src/lib.rs:349-350 | the result is the wrapped sum, and the flag is set exactly when the exact sum leaves the `i32` range |
| Words.OverflowingSub | src/lib.rs:328-329 | the result is the wrapped difference, and the flag is set exactly when the exact difference leaves the `i32` range |
| Words.OverflowingAddU32 | src/lib.rs:353-355 | the unsigned carry is set exactly when the sum reaches 2^32 |
| Words.OverflowingSubU32 | src/lib.rs:332-334 | the unsigned borrow is set exactly when the first operand is smaller |
| Words.Plus | src/lib.rs:381 | a release build wraps; a debug build panics exactly on overflow |
| Words.Minus | src/lib.rs:382 | a release build wraps; a debug build panics exactly on overflow |
| Words.Times | src/lib.rs:278 | a release build wraps; a debug build panics exactly on overflow |
| Words.Not | src/lib.rs:316 | `!x` flips every bit: its pattern is `0xFFFF_FFFF` minus that of x |
| Words.ShiftLeft | src/lib.rs:400 | `<<` panics exactly on a debug build with an amount of 32 or more; otherwise the result is congruent to `x * 2^(amount mod 32)` |
| Words.ArithmeticShift | src/lib.rs:401-402 | the shift keeps the sign and moves the value towards zero |
| Words.ArithmeticShiftAdd | src/lib.rs:401-402 | shifting by a and then by c is shifting by a + c |
| Words.ArithmeticShiftSignFill | src/lib.rs:401-402 | shifting by 31 leaves -1 for a negative value and 0 otherwise |
| Words.ShiftRight | src/lib.rs:401-402 | `>>` on `i32` is the arithmetic shift by the masked amount, or panics on a debug build |
| Words.RotateRightDigits | src/lib.rs:403 | bit j of the rotated pattern is bit `(j + n) mod 32` of the original |
| Words.RotateRight | src/lib.rs:403-408 | `rotate_right` by n: bit j of the result is bit `(j + n mod 32) mod 32` of the original, for every j |
| Words.LeadingZeros | src/main.rs:216 | the count is 32 exactly for zero; otherwise the top set bit is bit `31 - count` |
| Shifter.ApplyShift | src/lib.rs:398-411 | per shift kind: unchanged, `<<`, `>>` (for both LSR and ASR), rotate by the amount, or rotate by one for RRX; a register amount is the register's value read as `u32`, and a failed read panics |
| Shifter.ValueOf | src/lib.rs:390-396 | an immediate is its value; an addressable register is read and put through its shift; an unaddressable one panics; any other operand panics |
| Shifter.RegisterAmount | src/lib.rs:404 | a negative register amount panics on a debug build; a release build shifts by it modulo 32 |
| Shifter.LogicalShiftSignExtends | src/lib.rs:401 | LSR of a negative value stays negative: it sign-extends |
| Engine.BinaryOp | src/lib.rs:379-388 | `binary_op` succeeds exactly on `add`, `sub`, `and`, `eor` and `orr` |
| Engine.ApplyBinary | src/lib.rs:379-388 | the bitwise operators never panic, and nothing panics in a release build |
| Engine.CmpFlags | src/lib.rs:322-336 | N is the sign of the wrapped difference, Z is equality, C is unsigned `rn >= op`, V is signed overflow |
| Engine.CmnFlags | src/lib.rs:343-357 | N and Z come from the wrapped sum, C is the unsigned carry out, V is signed overflow |
| Engine.CmpConditions | src/lib.rs:322-336 | after `cmp`, EQ is equality, GE is signed `>=`, HS is unsigned `>=`, and HI is unsigned `>` |
| Engine.CmnConditions | src/lib.rs:343-357 | after `cmn`, GE holds exactly when the exact sum is not negative |
| Engine.RegisterShift | src/lib.rs:297-304 | the three-register form finds a register shift exactly for `lsl`, `lsr`, `asr`, `ror` and the spelling `Rrx`, and each picks its own register-amount shift of rn (`lsl` the left shift, `lsr` and `asr` the right shifts, `ror` the rotation, `Rrx` the register RRX) |
| Engine.DataProcessing | src/lib.rs:266-275 | not three operands panics; unless the first two are registers nothing changes; a mnemonic without an operator panics; a result changes at most one slot |
| Engine.Multiply | src/lib.rs:277-280 | anything but three registers panics; in a release build three addressable registers never panic; a result changes at most one slot |
| Engine.MultiplyAccumulate | src/lib.rs:282-285 | anything but four registers panics; in a release build four addressable registers never panic; a result changes at most one slot |
| Engine.Move | src/lib.rs:287-311 | two or three operands or a panic; a non-register destination (or, with three, any non-register) changes nothing; three registers panic unless the mnemonic has a register shift; a result changes at most one slot |
| Engine.MoveNot | src/lib.rs:313-320 | not two operands panics; a non-register destination changes nothing; with an addressable destination it completes exactly when the operand evaluates |
| Engine.Compare | src/lib.rs:322-362 | not two operands panics; a non-register first operand changes nothing; with `ARM_REG_APSR` past the file it panics; a result differs only in slot `ARM_REG_APSR` |
| Engine.StatusRead | src/lib.rs:364-373 | anything but two registers panics; a source not numbered like APSR or SPSR panics; SPSR panics on the read; a result changes at most one slot |
| Engine.Step | src/lib.rs:240-377 | a mnemonic outside the nine arms panics as unrecognised; a completed instruction changes at most one slot |
| Engine.Run | src/lib.rs:115-118 | the empty program leaves the file; a completed run split every mnemonic successfully |
| Engine.Reached | src/lib.rs:115-118 | after a completed run the registers are its result |
| Engine.StepChangesAtMostOneSlot | src/lib.rs:265-376 | every instruction that completes changes at most one slot |
| Engine.DataProcessingEffect | src/lib.rs:266-275 | `add`, `sub`, `and`, `eor`, `orr`: rd receives ARM's result on rn and the shifter operand, and nothing else changes; only a debug build panics, on add or sub overflow |
| Engine.DataProcessingNeedsRegisters | src/lib.rs:267-273 | with three operands of which the first two are not both registers, nothing changes |
| Engine.BicPanics | src/lib.rs:379-388 | `bic` with register operands always panics in `binary_op` |
| Engine.MultiplyEffect | src/lib.rs:277-280 | `mul` sets rd to `rm * rn`, wrapped or checked by build, whatever the shifts |
| Engine.MultiplyAccumulateRelease | src/lib.rs:282-285 | in a release build `mla` sets rd to `rm * rs + rn` modulo 2^32 |
| Engine.MultiplyAccumulateDebug | src/lib.rs:282-285 | in a debug build `mla` completes exactly when the product and the sum both fit in `i32` |
| Engine.MoveImmediate | src/lib.rs:288-292 | `mov rd, #n` and the two-operand shift aliases set rd to n |
| Engine.MoveShifted | src/lib.rs:288-292 | `mov rd, rm, shift` sets rd to rm put through the operand's shift, whatever the mnemonic |
| Engine.ShiftByRegister | src/lib.rs:293-306 | `lsl`, `lsr` and `asr rd, rm, rn` set rd to rm shifted (left, or arithmetically right) by rn read as `u32` on either build, and panic exactly when that shift panics |
| Engine.RotateByRegister | src/lib.rs:293-306 | `ror rd, rm, rn` rotates rm right by rn read as `u32` |
| Engine.ShiftRightByRegister | src/lib.rs:293-306 | in a release build `lsr rd, rm, rn` is the arithmetic shift of rm by rn modulo 32 |
| Engine.ThreeRegisterRrxPanics | src/lib.rs:297-304 | the three-register forms of `rrx` and `mov` panic |
| Engine.MoveNotEffect | src/lib.rs:313-320 | `mvn` sets rd to the complement of the operand |
| Engine.CompareEffect | src/lib.rs:322-362 | `cmp` and `cmn` store the packed flags in the slot numbered `ARM_REG_APSR`, or panic when that number is past the file; nothing else changes |
| Engine.CompareVisibleThroughApsr | src/lib.rs:337 | the status word written by `cmp` reads back through the APSR `RegId` exactly when the two paths name the same slot |
| Engine.StatusReadApsr | src/lib.rs:364-367 | `mrs rd, apsr` copies the status slot into rd |
| Engine.StatusReadOthers | src/lib.rs:364-373 | `mrs` from SPSR panics on the read; from any other register it panics |
| Engine.ConditionalInstructionPanics | src/lib.rs:375 | a mnemonic with a condition suffix splits, and then `execute` does not recognise it |
| Engine.RunAppend | src/lib.rs:115-118 | running two programs in turn is running their concatenation; a panic stops the run |
| Executor.DataProcessingInPlace | src/lib.rs:266-275 | the in-place arm reaches the state `Engine` specifies, or stops unchanged on the same panic |
| Executor.MultiplyInPlace | src/lib.rs:277-280 | as above for `mul` |
| Executor.MultiplyAccumulateInPlace | src/lib.rs:282-285 | as above for `mla` |
| Executor.MoveInPlace | src/lib.rs:287-311 | as above for `mov` and the shift aliases |
| Executor.MoveNotInPlace | src/lib.rs:313-320 | as above for `mvn` |
| Executor.CompareInPlace | src/lib.rs:322-362 | building the flags field by field, packing them and storing them reaches the specified state |
| Executor.StatusReadInPlace | src/lib.rs:364-373 | as above for `mrs` |
| Executor.Execute | src/lib.rs:240-377 | the in-place dispatcher reaches the state `Engine.Step` specifies |
| Executor.RunProgram | src/lib.rs:115-118 | the instruction loop returns what `Engine.Run` gives and leaves the registers as `Engine.Reached` says, also when it stops at a panic |
| Cli.Source | src/main.rs:150-159 | the second source is the immediate, or the register read |
| Cli.CliBinary | src/main.rs:148-233 | operand types other than `Reg, Reg, Imm` or `Reg, Reg, Reg` panic; a result changes at most one slot |
| Cli.CountLeadingZeros | src/main.rs:213-219 | operand types other than `Reg, Reg` panic; with addressable registers rd gets a count of at most 32, which is 32 exactly when rm is zero |
| Cli.CliMove | src/main.rs:244-249 | operand types other than `Reg, Imm` or `Reg, Reg` panic; `mov rd, #n` puts n in rd; a result changes at most one slot |
| Cli.CliStep | src/main.rs:129-253 | a mnemonic outside the nine handled ones panics; a completed instruction changes at most one slot |
| Cli.CliRun | src/main.rs:54-57 | the empty program leaves the file; in a completed run every split mnemonic is one the chain handles |
| Cli.CliBinaryInPlace | src/main.rs:148-175 | an in-place three-operand arm reaches the state its specification gives |
| Cli.CountLeadingZerosInPlace | src/main.rs:213-219 | as above for `clz` |
| Cli.CliMoveInPlace | src/main.rs:244-249 | as above for `mov` |
| Cli.CliExecute | src/main.rs:129-253 | the `if`/`else` chain reaches the state `Cli.CliStep` specifies |
| Cli.CliMain | src/main.rs:52-59 | starting from zeroed registers, the loop returns the file `Cli.CliRun` specifies |
| Cli.CliIgnoresShifts | src/main.rs:137-146 | two operand lists with the same types execute alike: shifts are ignored |
| Cli.CliBicIsAnd | src/main.rs:199-212 | `bic` computes exactly what `and` computes |
| Cli.CliBinaryEffect | src/main.rs:148-233 | `add`, `sub`, `and`, `eor` with an immediate or register source set rd to ARM's result, changing nothing else; only a debug build panics, on overflow |
| Cli.DispatchersAgree | src/main.rs:148-175 | on unshifted operands the two dispatchers agree on `add`, `sub`, `and` and `eor` |
| Cli.MultiplyUsesOperandTypes | src/lib.rs:277-285 | `mul` and `mla` depend on their operands' types only, not on their shifts, so operand lists with equal types give equal results |
| Cli.CliMultiplyAsLibrary | src/main.rs:176-243 | `mul` and `mla` compute on the command line what they compute in the library |
| Cli.CliClzEffect | src/main.rs:213-219 | `clz` sets rd to the leading-zero count of rm, which is 32 exactly for zero |
| Cli.CliMoveEffect | src/main.rs:244-249 | `mov rd, #n` sets rd to n; `mov rd, rn` copies rn, ignoring its shift |
| Cli.CliUnhandledPanics | src/main.rs:250-252 | any mnemonic outside the nine handled ones panics, including `""` and `mrs` |
| Cli.CliUnknownMnemonicPanics | src/main.rs:250-252 | an instruction whose first three letters are not on the command line's list, such as `orr` or `cmp`, panics after the empty split |
| Scenarios.CmpEqualZeros | tests/test.rs:188-196 | `cmp 0, #0` packs to `0x60000010` |
| Scenarios.CmpZeroWithOne | tests/test.rs:198-206 | `cmp 0, #1` packs to `0x80000010` |
| Scenarios.CmpOneWithMinimum | tests/test.rs:208-216 | `cmp 1, #0x80000000` packs to `0x90000010` |
| Scenarios.CmpMinimumWithOne | tests/test.rs:218-226 | `cmp 0x80000000, #1` packs to `0x30000010` |
| Scenarios.CmpOneWithMinusTwo | tests/test.rs:228-237 | `cmp 1, -2` packs to `0x10` |
| Scenarios.CmpTwoWithOne | tests/test.rs:239-247 | `cmp 2, #1` packs to `0x20000010` |
| Scenarios.CmnZeros | tests/test.rs:249-257 | `cmn 0, #0` packs to `0x40000010` |
| Scenarios.CmnZeroAndOne | tests/test.rs:259-267 | `cmn 0, #1` packs to `0x10` |
| Scenarios.CmnZeroAndMinusOne | tests/test.rs:269-278 | `cmn 0, -1` packs to `0x80000010` |
| Scenarios.CmnMaximumAndOne | tests/test.rs:280-288 | `cmn 0x7fffffff, #1` packs to `0x90000010` |
| Scenarios.CmnMinimumAndMinusOne | tests/test.rs:290-299 | `cmn 0x80000000, -1` packs to `0x30000010` |
| Scenarios.ShiftLeftByTwo | tests/test.rs:68 | 4 LSL 2 is 16 |
| Scenarios.ShiftLeftByOne | tests/test.rs:69 | 4 LSL 1 is 8 |
| Scenarios.ShiftRightExamples | tests/test.rs:71-75 | 4 LSR (and ASR) 2 is 1, and by 1 is 2 |
| Scenarios.RotateExamples | tests/test.rs:77-80 | 1 ROR 2 is `0x40000000`; 1 ROR 1, and 1 RRX, is -2^31 |
| Scenarios.NotExamples | tests/test.rs:140-149 | `mvn` of 0 and 0xf gives -1 and -16 |
| Scenarios.RunPlain | src/lib.rs:115-118 | an unsuffixed instruction is split unchanged and executed, and the run continues after it |
| Scenarios.RunSteps | src/lib.rs:115-118 | a program of plain mnemonics whose steps go from each given file to the next ends in the last |
| Scenarios.FillsRun | src/lib.rs:115-118 | a program whose k-th instruction writes the k-th value into slot k leaves those values in the first slots |
| Scenarios.MovesRun | tests/test.rs:31-59 | a run of `mov rk, #v` leaves each value in its register and the rest unchanged |
| Scenarios.MvnProgram | tests/test.rs:140-149 | the mvn test `mvn r0, #0; mvn r1, #0xf` leaves -1 and -16 in r0 and r1 from any register file, with the other slots unchanged |
| Scenarios.MovProgram | tests/test.rs:31-59 | the mov test leaves `0`, `1`, `'a'`, `0b1010` and the seven rotated constants in r0..r10 |
| Scenarios.MovShiftOperands | tests/test.rs:65-80 | with 4 in r0 and 1 in r1, each shifted operand of the mov_shift test has its expected value |
| Scenarios.MovShiftProgram | tests/test.rs:61-102 | the mov_shift test leaves 4, 1, 16, 8, 1, 2, 1, 2, 2^30, -2^31 and -2^31 in r0..r10 |
| Scenarios.AddTestStep | tests/test.rs:151-166 | each instruction of the add test writes its expected value into the next register |
| Scenarios.AddProgram | tests/test.rs:151-166 | the add test's program leaves 1, 3, 4, -1 and -2 in r0..r4 and changes nothing else |
| Scenarios.SubTestStep | tests/test.rs:168-186 | each instruction of the sub test writes its expected value into the next register |
| Scenarios.SubProgram | tests/test.rs:168-186 | the sub test's program leaves 3, 2, 1, 0 and -1 in r0..r4 and changes nothing else |
| Scenarios.SubTestReadsByNumber | tests/test.rs:182-185 | the sub test's numeric reads name slots, not registers: reading `ARM_REG_R1 as u16` panics once that number is past 16, and gives 2, 1, -1 only when `ARM_REG_R0` is 0 |
| Scenarios.CompareProgram | tests/test.rs:188-196 | the first cmp test's program stores `0x60000010` in the slot numbered like APSR |

## Left out

- Assembling the input with GNU as, finding the assembler, reading the input path from
  argv or stdin, and temporary files: these are process and file I/O.
- Extracting the `.text` section with goblin, and Capstone's setup, disassembly and
  `insn_detail`. The model starts from decoded instructions: a mnemonic, and operands that
  are a register, an immediate or something else, each with a shift. An operand that is not
  an ARM operand (the source's `panic!()` inside the `op_types` map) cannot be represented.
- Debug printing, and `main`'s final `println!` of the register file. `Cli.CliMain` returns
  the file. This is output.
- The test cases that expect the assembler to reject an immediate it cannot encode. The
  assembler is not part of this model.
- The value of Capstone's register constants. As explained above, they are a parameter,
  and only their distinctness is assumed.
- The `rest.starts_with("s")` test in the library's `extract_condition`. It has an empty
  body and no effect, and `Mnemonics.SetFlagsSuffixRejected` shows the consequence.
- The condition code. Both dispatchers receive it and ignore it, so the model does not
  evaluate conditions.
- Words.ShiftLeft: states the result modulo 2^32 rather than bit by bit. The bit-level form
  is not proved for left shifts.
- Words.ArithmeticShift: states sign and magnitude (and composition and sign fill) rather
  than the exact floor of `x / 2^k`.
- Words.RotateRight: the rotation's inverse (rotating back by `32 - n`) is not proved. Only
  the bit-level description is.
