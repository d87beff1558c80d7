/** Panics of the interpreter, and the result type that carries them.
  * Every `panic!` (including Rust's own index and overflow checks) becomes a `Panic`
  * value; a computation that does not panic yields `Ok`. */
module Faults {

  /** Why an instruction stopped the interpreter. */
  datatype Fault =
    | UnknownCondition       // the text after the base mnemonic is not a condition code
    | UnrecognisedMnemonic   // no known base mnemonic is a prefix, or execute has no arm for it
    | OperandMismatch        // the operand list does not have the shape the arm matches
    | NoRegisterShift        // a three-register shift whose mnemonic has no register form
    | UnsupportedBinaryOp    // binary_op was asked for an operation it does not know
    | InvalidOperand         // value_of met an operand that is neither register nor immediate
    | IndexOutOfBounds       // a register index that names no slot of the register file
    | NotStatusRegister      // mrs read a register other than APSR or SPSR
    | ArithmeticOverflow     // i32 +, -, * overflowed under overflow checks
    | ShiftOverflow          // a shift amount of 32 or more under overflow checks
    | UnrecognisedInstruction // the command-line interpreter's final else

  datatype Option<+T> = None | Some(value: T)

  datatype Result<+T> = Ok(value: T) | Panic(fault: Fault) {
    predicate IsFailure() { Panic? }

    function PropagateFailure<U>(): Result<U>
      requires Panic?
    { Panic(fault) }

    function Extract(): T
      requires Ok?
    { value }
  }
}
