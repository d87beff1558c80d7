/** The status word: the N, Z, C and V flags in bits 31..28 of an `i32`, and the processor
  * mode in its low five bits. */
module Status {
  import opened Words

  /** `ProcessorMode`: only User (`0b10000`) is defined. */
  datatype ProcessorMode = User

  /** `StatusFlags`. */
  datatype StatusFlags = StatusFlags(negative: bool, zero: bool, carry: bool, overflow: bool, processorMode: ProcessorMode)

  /** `StatusFlags::new()`: all flags clear, User mode. */
  function NewFlags(): StatusFlags
  {
    StatusFlags(false, false, false, false, User)
  }

  /** `From<i32>`: each flag is one of the top four bits; the mode is always User. N is the
    * sign, and Z, C, V are set when the pattern, with the bits above theirs cleared,
    * reaches their place value. */
  function FromWord(n: I32): (f: StatusFlags)
    ensures f.negative <==> n < 0
    ensures f.zero <==> AsU32(n) % 0x8000_0000 >= 0x4000_0000
    ensures f.carry <==> AsU32(n) % 0x4000_0000 >= 0x2000_0000
    ensures f.overflow <==> AsU32(n) % 0x2000_0000 >= 0x1000_0000
    ensures f.processorMode == User
  {
    assert Pow2(31) == 0x8000_0000 && Pow2(30) == 0x4000_0000;
    assert Pow2(29) == 0x2000_0000 && Pow2(28) == 0x1000_0000;
    DigitAsRemainder(AsU32(n), 0x4000_0000);
    DigitAsRemainder(AsU32(n), 0x2000_0000);
    DigitAsRemainder(AsU32(n), 0x1000_0000);
    StatusFlags(Bit(n, 31), Bit(n, 30), Bit(n, 29), Bit(n, 28), User)
  }

  /** The value of `From<StatusFlags> for i32`: N, Z, C, V at bits 31, 30, 29, 28 and the
    * mode's value 0x10 below them; every other bit is zero. */
  function Pack(f: StatusFlags): (r: I32)
    ensures Bit(r, 31) == f.negative && Bit(r, 30) == f.zero
    ensures Bit(r, 29) == f.carry && Bit(r, 28) == f.overflow
    ensures AsU32(r) % 0x1000_0000 == 0x10
  {
    assert Pow2(31) == 0x8000_0000 && Pow2(30) == 0x4000_0000;
    assert Pow2(29) == 0x2000_0000 && Pow2(28) == 0x1000_0000;
    Wrap((if f.negative then 0x8000_0000 else 0) + (if f.zero then 0x4000_0000 else 0)
      + (if f.carry then 0x2000_0000 else 0) + (if f.overflow then 0x1000_0000 else 0) + 0x10)
  }

  /** `From<StatusFlags> for i32` as the source computes it: start from zero and OR in one
    * bit per set flag, then the mode (User, `0b10000`, is bit 4). `bits` is the pattern of
    * the source's `ans` read as unsigned. */
  method ToWord(flags: StatusFlags) returns (ans: I32)
    ensures ans == Pack(flags)
  {
    assert Pow2(31) == 0x8000_0000 && Pow2(30) == 0x4000_0000 && Pow2(29) == 0x2000_0000;
    assert Pow2(28) == 0x1000_0000 && Pow2(4) == 0x10;
    ghost var n := if flags.negative then 0x8000_0000 else 0;
    ghost var z := if flags.zero then 0x4000_0000 else 0;
    ghost var c := if flags.carry then 0x2000_0000 else 0;
    ghost var v := if flags.overflow then 0x1000_0000 else 0;
    var bits: nat := 0;
    if flags.negative {
      bits := OrBit(bits, 31);
    }
    assert bits == n;
    if flags.zero {
      assert (bits / 0x4000_0000) % 2 == 0;
      bits := OrBit(bits, 30);
    }
    assert bits == n + z;
    if flags.carry {
      assert (bits / 0x2000_0000) % 2 == 0;
      bits := OrBit(bits, 29);
    }
    assert bits == n + z + c;
    if flags.overflow {
      assert (bits / 0x1000_0000) % 2 == 0;
      bits := OrBit(bits, 28);
    }
    assert bits == n + z + c + v;
    assert (bits / 0x10) % 2 == 0;
    bits := OrBit(bits, 4);
    ans := Wrap(bits);
  }

  /** Packing and then unpacking gives back the same flags (the mode is always User). */
  lemma UnpackPack(f: StatusFlags)
    ensures FromWord(Pack(f)) == f
  {
  }

  /** The top four bits of a 32-bit pattern, one at a time, make up its top nibble. */
  lemma TopNibble(u: nat)
    requires u < 0x1_0000_0000
    ensures (u / 0x8000_0000) % 2 * 8 + (u / 0x4000_0000) % 2 * 4 + (u / 0x2000_0000) % 2 * 2
      + (u / 0x1000_0000) % 2 == u / 0x1000_0000
  {
    var h := u / 0x1000_0000;
    assert 0 <= h < 16;
    assert u / 0x8000_0000 == h / 8 && u / 0x4000_0000 == h / 4 && u / 0x2000_0000 == h / 2;
  }

  /** Unpacking and then packing keeps the top four bits of the word and replaces the rest
    * with `0x10`: the value `(n & 0xF000_0000) | 0x10`. */
  lemma PackUnpack(n: I32)
    ensures AsU32(Pack(FromWord(n))) == AsU32(n) / 0x1000_0000 * 0x1000_0000 + 0x10
  {
    assert Pow2(31) == 0x8000_0000 && Pow2(30) == 0x4000_0000;
    assert Pow2(29) == 0x2000_0000 && Pow2(28) == 0x1000_0000;
    var u, f := AsU32(n), FromWord(n);
    TopNibble(u);
    var sum := (if f.negative then 0x8000_0000 else 0) + (if f.zero then 0x4000_0000 else 0)
      + (if f.carry then 0x2000_0000 else 0) + (if f.overflow then 0x1000_0000 else 0) + 0x10;
    assert sum == u / 0x1000_0000 * 0x1000_0000 + 0x10;
    assert Pack(f) == Wrap(sum);
    AsU32OfWrap(sum);
  }
}
