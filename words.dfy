/** Rust's 32-bit integers. A register holds a Rust `i32`, modelled as a mathematical
  * integer in the `i32` range; its bit pattern is the two's-complement reading, obtained
  * arithmetically through `AsU32`. Wrap-around is written out with `Wrap`. Whether
  * arithmetic overflow panics depends on how the program was built: that is `Build`. */
module Words {
  import opened Faults

  /** Rust's `u16`, the type of Capstone register numbers and of `Index<u16>`. */
  type U16 = x: int | 0 <= x < 0x1_0000

  /** Rust's `u32`, the type of immediate shift amounts. */
  type U32 = x: int | 0 <= x < 0x1_0000_0000

  /** Rust's `i32`, the type of every register. */
  type I32 = x: int | -0x8000_0000 <= x < 0x8000_0000

  /** A debug build panics on `i32` overflow and on shift amounts of 32 or more; a release
    * build wraps and masks the shift amount to its low five bits. */
  datatype Build = Debug | Release

  predicate InI32(x: int) { -0x8000_0000 <= x < 0x8000_0000 }

  /** Two's-complement wrap-around of an exact result into `i32` (also `u32 as i32`):
    * the representable value congruent to `x` modulo 2^32. */
  function Wrap(x: int): (r: I32)
    ensures InI32(x) ==> r == x
    ensures (x - r) % 0x1_0000_0000 == 0
  {
    var m := x % 0x1_0000_0000;
    if m < 0x8000_0000 then m else m - 0x1_0000_0000
  }

  /** Wrapping an intermediate result early does not change the final wrapped value. */
  lemma WrapOfWrappedSum(p: int, n: int)
    ensures Wrap(Wrap(p) + n) == Wrap(p + n)
  {
    var d := p - Wrap(p);
    assert d == 0x1_0000_0000 * (d / 0x1_0000_0000);
    assert (Wrap(p) + n) % 0x1_0000_0000 == (p + n) % 0x1_0000_0000;
  }

  /** `x as u32`: the unsigned reading of the same bit pattern, which converts back. */
  function AsU32(x: I32): (r: U32)
    ensures Wrap(r) == x
    ensures x < 0 <==> r >= 0x8000_0000
  {
    if x < 0 then x + 0x1_0000_0000 else x
  }

  /** 2^k, unfolded eight bits at a time so that literal powers evaluate quickly. */
  function Pow2(k: nat): (r: nat)
    ensures r >= 1
  {
    if k >= 8 then 0x100 * Pow2(k - 8) else if k == 0 then 1 else 2 * Pow2(k - 1)
  }

  lemma {:induction false} Pow2Succ(k: nat)
    ensures Pow2(k + 1) == 2 * Pow2(k)
    decreases k
  {
    if k >= 8 {
      Pow2Succ(k - 8);
    } else if k == 7 {
      assert Pow2(8) == 0x100 && Pow2(7) == 0x80;
    }
  }

  lemma DoubleProduct(p: int, q: int)
    ensures 2 * (p * q) == (2 * p) * q
  {
  }

  lemma {:induction false} Pow2Add(a: nat, b: nat)
    ensures Pow2(a + b) == Pow2(a) * Pow2(b)
    decreases a
  {
    if a > 0 {
      Pow2Add(a - 1, b);
      Pow2Succ(a - 1 + b);
      Pow2Succ(a - 1);
      DoubleProduct(Pow2(a - 1), Pow2(b));
    }
  }

  /** Bit `k` of the two's-complement pattern of `x`: what `x & (1 << k) != 0` tests. */
  predicate Bit(x: I32, k: nat)
    requires k < 32
  {
    (AsU32(x) / Pow2(k)) % 2 == 1
  }

  /** Reading a pattern below 2^32 as `i32` and back as `u32` gives the pattern. */
  lemma AsU32OfWrap(u: int)
    requires 0 <= u < 0x1_0000_0000
    ensures AsU32(Wrap(u)) == u
  {
  }

  lemma MulBelow(d: int, x: int)
    requires d > 0 && -d < d * x < d
    ensures x == 0
  {
  }

  /** A quotient is determined by any decomposition with a remainder in range. */
  lemma DivUnique(u: int, d: int, t: int, e: int)
    requires d > 0 && u == d * t + e && 0 <= e < d
    ensures u / d == t
  {
    assert d * (u / d - t) == e - u % d;
    MulBelow(d, u / d - t);
  }

  /** The digit in place `p` is set exactly when the remainder modulo `2 * p` reaches `p`. */
  lemma DigitAsRemainder(u: nat, p: nat)
    requires p > 0
    ensures (u / p) % 2 == 1 <==> u % (2 * p) >= p
  {
    var q, m := u / (2 * p), u % (2 * p);
    assert u == (2 * p) * q + m;
    assert (2 * p) * q == p * (2 * q);
    if m >= p {
      assert u == p * (2 * q + 1) + (m - p);
      DivUnique(u, p, 2 * q + 1, m - p);
    } else {
      DivUnique(u, p, 2 * q, m);
    }
  }

  /** Dividing by 2^(k+1) is halving and then dividing by 2^k. */
  lemma DivHalf(u: nat, k: nat)
    ensures u / Pow2(k + 1) == (u / 2) / Pow2(k)
  {
    Pow2Succ(k);
    var d, q := Pow2(k), u / 2;
    var t, e := q / d, q % d;
    assert q == d * t + e;
    assert u == 2 * q + u % 2;
    DoubleProduct(d, t);
    DivUnique(u, 2 * d, t, 2 * e + u % 2);
  }

  /** Bit `k` of an unsigned pattern, found by `k` halvings. */
  function Digit(u: nat, k: nat): (r: nat)
    ensures r <= 1
  {
    if k == 0 then u % 2 else Digit(u / 2, k - 1)
  }

  /** `Digit` is the bit that `Bit` reads. */
  lemma {:induction false} DigitIsDivision(u: nat, k: nat)
    ensures Digit(u, k) == (u / Pow2(k)) % 2
    decreases k
  {
    if k > 0 {
      DigitIsDivision(u / 2, k - 1);
      DivHalf(u, k - 1);
    }
  }

  /** Two patterns below 2^n that agree on every bit are equal. */
  lemma {:induction false} DigitsDetermine(a: nat, b: nat, n: nat)
    requires a < Pow2(n) && b < Pow2(n)
    requires forall k | 0 <= k < n :: Digit(a, k) == Digit(b, k)
    ensures a == b
    decreases n
  {
    if n > 0 {
      Pow2Succ(n - 1);
      forall k | 0 <= k < n - 1
        ensures Digit(a / 2, k) == Digit(b / 2, k)
      {
        assert Digit(a, k + 1) == Digit(b, k + 1);
      }
      assert Digit(a, 0) == Digit(b, 0);
      DigitsDetermine(a / 2, b / 2, n - 1);
    } else {
      assert Pow2(0) == 1;
    }
  }

  /** The three bitwise operators. */
  datatype BitOp = AndOp | OrOp | XorOp

  /** One bit of the result, from one bit of each operand. */
  function Combine(op: BitOp, p: nat, q: nat): nat
  {
    match op
    case AndOp => if p == 1 && q == 1 then 1 else 0
    case OrOp => if p == 1 || q == 1 then 1 else 0
    case XorOp => if p != q then 1 else 0
  }

  /** The low `n` bits of `a op b`, built from bit 0 upwards. */
  function Bitwise(op: BitOp, a: nat, b: nat, n: nat): (r: nat)
    ensures r < Pow2(n)
  {
    if n == 0 then 0 else
      Pow2Succ(n - 1);
      Combine(op, a % 2, b % 2) + 2 * Bitwise(op, a / 2, b / 2, n - 1)
  }

  /** Each bit of the result below `n` combines the operands' bits at that position. */
  lemma {:induction false} BitwiseDigit(op: BitOp, a: nat, b: nat, n: nat, k: nat)
    requires k < n
    ensures Digit(Bitwise(op, a, b, n), k) == Combine(op, Digit(a, k), Digit(b, k))
    decreases n
  {
    if k > 0 {
      BitwiseDigit(op, a / 2, b / 2, n - 1, k - 1);
    }
  }

  /** A bitwise operator on `i32`, applied to the two's-complement patterns. */
  function Bitwise32(op: BitOp, x: I32, y: I32): I32
  {
    Wrap(Bitwise(op, AsU32(x), AsU32(y), 32))
  }

  /** Bit `k` of a result of a bitwise operator, combined from the operands' bits. */
  lemma BitOfBitwise32(op: BitOp, x: I32, y: I32, k: nat)
    requires k < 32
    ensures Digit(AsU32(Bitwise32(op, x, y)), k) == Combine(op, Digit(AsU32(x), k), Digit(AsU32(y), k))
  {
    assert Pow2(32) == 0x1_0000_0000;
    AsU32OfWrap(Bitwise(op, AsU32(x), AsU32(y), 32));
    BitwiseDigit(op, AsU32(x), AsU32(y), 32, k);
  }

  /** Two words that agree on all 32 bits are equal. */
  lemma SameBits(x: I32, y: I32)
    requires forall k | 0 <= k < 32 :: Digit(AsU32(x), k) == Digit(AsU32(y), k)
    ensures x == y
  {
    assert Pow2(32) == 0x1_0000_0000;
    DigitsDetermine(AsU32(x), AsU32(y), 32);
  }

  /** The operator `x & y` on `i32`: bit `k` is set iff it is set in both. */
  function And(x: I32, y: I32): (r: I32)
    ensures forall k | 0 <= k < 32 :: Bit(r, k) <==> Bit(x, k) && Bit(y, k)
  {
    var r := Bitwise32(AndOp, x, y);
    forall k | 0 <= k < 32
      ensures Bit(r, k) <==> Bit(x, k) && Bit(y, k)
    {
      BitOfBitwise32(AndOp, x, y, k);
      DigitIsDivision(AsU32(r), k);
      DigitIsDivision(AsU32(x), k);
      DigitIsDivision(AsU32(y), k);
    }
    r
  }

  /** The operator `x | y` on `i32`: bit `k` is set iff it is set in either. */
  function Or(x: I32, y: I32): (r: I32)
    ensures forall k | 0 <= k < 32 :: Bit(r, k) <==> Bit(x, k) || Bit(y, k)
  {
    var r := Bitwise32(OrOp, x, y);
    forall k | 0 <= k < 32
      ensures Bit(r, k) <==> Bit(x, k) || Bit(y, k)
    {
      BitOfBitwise32(OrOp, x, y, k);
      DigitIsDivision(AsU32(r), k);
      DigitIsDivision(AsU32(x), k);
      DigitIsDivision(AsU32(y), k);
    }
    r
  }

  /** The operator `x ^ y` on `i32`: bit `k` is set iff exactly one operand has it. */
  function Xor(x: I32, y: I32): (r: I32)
    ensures forall k | 0 <= k < 32 :: Bit(r, k) <==> Bit(x, k) != Bit(y, k)
  {
    var r := Bitwise32(XorOp, x, y);
    forall k | 0 <= k < 32
      ensures Bit(r, k) <==> Bit(x, k) != Bit(y, k)
    {
      BitOfBitwise32(XorOp, x, y, k);
      DigitIsDivision(AsU32(r), k);
      DigitIsDivision(AsU32(x), k);
      DigitIsDivision(AsU32(y), k);
    }
    r
  }

  /** `u | (1 << k)` on an unsigned bit pattern: sets bit `k`, leaving every other bit. */
  function OrBit(u: nat, k: nat): nat
  {
    if (u / Pow2(k)) % 2 == 1 then u else u + Pow2(k)
  }

  /** `i32::overflowing_add`: the wrapped sum, and whether the exact sum is outside the
    * `i32` range, which is the case exactly when both operands have the same sign and the
    * wrapped sum has the other one (the rule ARM states for the V flag). */
  function OverflowingAdd(x: I32, y: I32): (r: (I32, bool))
    ensures r.1 <==> !InI32(x + y)
    ensures r.1 <==> (x < 0) == (y < 0) && (r.0 < 0) != (x < 0)
    ensures !r.1 ==> r.0 == x + y
  {
    (Wrap(x + y), !InI32(x + y))
  }

  /** `i32::overflowing_sub`: the wrapped difference, and whether the exact difference is
    * outside the `i32` range, which is the case exactly when the operands differ in sign
    * and the wrapped difference does not have the sign of the minuend. */
  function OverflowingSub(x: I32, y: I32): (r: (I32, bool))
    ensures r.1 <==> !InI32(x - y)
    ensures r.1 <==> (x < 0) != (y < 0) && (r.0 < 0) != (x < 0)
    ensures !r.1 ==> r.0 == x - y
  {
    (Wrap(x - y), !InI32(x - y))
  }

  /** `u32::overflowing_add`: the wrapped sum and the carry out of bit 31. */
  function OverflowingAddU32(a: U32, c: U32): (r: (U32, bool))
    ensures r.1 <==> a + c >= 0x1_0000_0000
    ensures r.0 == if r.1 then a + c - 0x1_0000_0000 else a + c
  {
    var sum := a + c;
    if sum >= 0x1_0000_0000 then (sum - 0x1_0000_0000, true) else (sum, false)
  }

  /** `u32::overflowing_sub`: the wrapped difference and whether it borrowed. */
  function OverflowingSubU32(a: U32, c: U32): (r: (U32, bool))
    ensures r.1 <==> a < c
    ensures r.0 == if r.1 then a - c + 0x1_0000_0000 else a - c
  {
    if a < c then (a - c + 0x1_0000_0000, true) else (a - c, false)
  }

  /** The operator `x + y` on `i32`: exact when the sum fits; otherwise a debug build panics
    * and a release build wraps. */
  function Plus(b: Build, x: I32, y: I32): (r: Result<I32>)
    ensures InI32(x + y) ==> r == Ok(x + y)
    ensures !InI32(x + y) ==> r == if b == Debug then Panic(ArithmeticOverflow) else Ok(Wrap(x + y))
  {
    var sum := OverflowingAdd(x, y);
    if sum.1 && b == Debug then Panic(ArithmeticOverflow) else Ok(sum.0)
  }

  /** The operator `x - y` on `i32`. */
  function Minus(b: Build, x: I32, y: I32): (r: Result<I32>)
    ensures InI32(x - y) ==> r == Ok(x - y)
    ensures !InI32(x - y) ==> r == if b == Debug then Panic(ArithmeticOverflow) else Ok(Wrap(x - y))
  {
    var diff := OverflowingSub(x, y);
    if diff.1 && b == Debug then Panic(ArithmeticOverflow) else Ok(diff.0)
  }

  /** The operator `x * y` on `i32`. */
  function Times(b: Build, x: I32, y: I32): (r: Result<I32>)
    ensures InI32(x * y) ==> r == Ok(x * y)
    ensures !InI32(x * y) ==> r == if b == Debug then Panic(ArithmeticOverflow) else Ok(Wrap(x * y))
  {
    if !InI32(x * y) && b == Debug then Panic(ArithmeticOverflow) else Ok(Wrap(x * y))
  }

  /** The operator `!x` on `i32`: every bit of the pattern flipped, which also flips the sign. */
  function Not(x: I32): (r: I32)
    ensures AsU32(r) == 0xFFFF_FFFF - AsU32(x)
    ensures r < 0 <==> x >= 0
  {
    -(x as int) - 1
  }

  /** Whether a shift amount, read as `u32`, is caught by the overflow check. */
  predicate ShiftOverflows(b: Build, amount: U32) { b == Debug && amount >= 32 }

  /** The operator `x << amount`: bits move up by the amount (masked to its low five bits in
    * a release build) and those above bit 31 are lost. */
  function ShiftLeft(b: Build, x: I32, amount: U32): (r: Result<I32>)
    ensures r.Panic? <==> ShiftOverflows(b, amount)
    ensures r.Panic? ==> r.fault == ShiftOverflow
    ensures r.Ok? ==> (x * Pow2(amount % 32) - r.value) % 0x1_0000_0000 == 0
  {
    if ShiftOverflows(b, amount) then Panic(ShiftOverflow) else Ok(Wrap(x * Pow2(amount % 32)))
  }

  /** Arithmetic shift right by `k`: `k` halvings rounded towards minus infinity, so the
    * sign bit is copied into the vacated positions and the sign is kept. */
  function ArithmeticShift(x: I32, k: nat): (r: I32)
    ensures r < 0 <==> x < 0
    ensures x >= 0 ==> r <= x
    ensures x < 0 ==> x <= r
    decreases k
  {
    if k == 0 then x else ArithmeticShift(x / 2, k - 1)
  }

  /** Shifting by `a` and then by `c` is shifting by `a + c`. */
  lemma {:induction false} ArithmeticShiftAdd(x: I32, a: nat, c: nat)
    ensures ArithmeticShift(ArithmeticShift(x, a), c) == ArithmeticShift(x, a + c)
    decreases a
  {
    if a > 0 {
      ArithmeticShiftAdd(x / 2, a - 1, c);
    }
  }

  /** Each step halves the range the value can lie in. */
  lemma {:induction false} ArithmeticShiftRange(x: I32, k: nat, n: nat)
    requires k <= n
    requires -(Pow2(n) as int) <= x < Pow2(n)
    ensures -(Pow2(n - k) as int) <= ArithmeticShift(x, k) < Pow2(n - k)
    decreases k
  {
    if k > 0 {
      Pow2Succ(n - 1);
      ArithmeticShiftRange(x / 2, k - 1, n - 1);
    }
  }

  /** Shifting arithmetically by 31 leaves only the sign: all ones or all zeros. */
  lemma ArithmeticShiftSignFill(x: I32)
    ensures ArithmeticShift(x, 31) == if x < 0 then -1 else 0
  {
    assert Pow2(31) == 0x8000_0000 && Pow2(0) == 1;
    ArithmeticShiftRange(x, 31, 31);
  }

  /** The operator `x >> amount` on `i32`: an arithmetic shift by the amount (masked to its
    * low five bits in a release build). */
  function ShiftRight(b: Build, x: I32, amount: U32): (r: Result<I32>)
    ensures r.Panic? <==> ShiftOverflows(b, amount)
    ensures r.Panic? ==> r.fault == ShiftOverflow
    ensures r.Ok? ==> r.value == ArithmeticShift(x, amount % 32)
  {
    if ShiftOverflows(b, amount) then Panic(ShiftOverflow) else Ok(ArithmeticShift(x, amount % 32))
  }

  /** `u >> k` on an unsigned pattern: `k` halvings. */
  function Halve(u: nat, k: nat): nat
  {
    if k == 0 then u else Halve(u / 2, k - 1)
  }

  /** The low `k` bits of `u`, `u & ((1 << k) - 1)`. */
  function LowBits(u: nat, k: nat): nat
  {
    if k == 0 then 0 else u % 2 + 2 * LowBits(u / 2, k - 1)
  }

  lemma TimesDouble(h: int, p: int)
    ensures h * (2 * p) == 2 * (h * p)
  {
  }

  /** `u` splits into its bits from `k` upwards and its `k` low bits. */
  lemma {:induction false} HalveAndLowBits(u: nat, k: nat)
    ensures u == Halve(u, k) * Pow2(k) + LowBits(u, k)
    ensures LowBits(u, k) < Pow2(k)
    decreases k
  {
    if k == 0 {
      assert Pow2(0) == 1;
    } else {
      HalveAndLowBits(u / 2, k - 1);
      Pow2Succ(k - 1);
      TimesDouble(Halve(u / 2, k - 1), Pow2(k - 1));
    }
  }

  /** The bits of `u >> k` are those of `u` from position `k` on. */
  lemma {:induction false} DigitOfHalve(u: nat, k: nat, j: nat)
    ensures Digit(Halve(u, k), j) == Digit(u, j + k)
    decreases k
  {
    if k > 0 {
      DigitOfHalve(u / 2, k - 1, j);
    }
  }

  /** The low `k` bits keep the bits of `u` below position `k`. */
  lemma {:induction false} DigitOfLowBits(u: nat, k: nat, j: nat)
    requires j < k
    ensures Digit(LowBits(u, k), j) == Digit(u, j)
    decreases k
  {
    if j > 0 {
      assert (u % 2 + 2 * LowBits(u / 2, k - 1)) / 2 == LowBits(u / 2, k - 1);
      DigitOfLowBits(u / 2, k - 1, j - 1);
    }
  }

  /** The bits of `a + b * 2^m`, for `a` below 2^m: those of `a` below position `m`, and
    * those of `b` from there on. */
  lemma {:induction false} DigitOfSum(a: nat, b: nat, m: nat, j: nat)
    requires a < Pow2(m)
    ensures Digit(a + b * Pow2(m), j) == if j < m then Digit(a, j) else Digit(b, j - m)
    decreases m
  {
    if m == 0 {
      assert Pow2(0) == 1;
    } else {
      Pow2Succ(m - 1);
      TimesDouble(b, Pow2(m - 1));
      var q := b * Pow2(m - 1);
      assert a + b * Pow2(m) == a + 2 * q;
      if j > 0 {
        assert (a + 2 * q) / 2 == a / 2 + q;
        DigitOfSum(a / 2, b, m - 1, j - 1);
      }
    }
  }

  /** A 32-bit pattern split as `hi * d + lo` with `lo < d` and `d * e == 2^32`: then
    * `hi < e`, and `hi + lo * e`, the two parts swapped, is a 32-bit pattern too. */
  lemma SwapFits(u: nat, hi: nat, lo: nat, d: nat, e: nat)
    requires u < 0x1_0000_0000 && d * e == 0x1_0000_0000
    requires u == hi * d + lo && lo < d
    ensures hi < e && hi + lo * e < 0x1_0000_0000
  {
    assert lo * e <= (d - 1) * e;
  }

  /** `rotate_right(n)`: the pattern rotated right by `n` modulo 32, that is
    * `(u >> k) | (u << (32 - k))` for `k = n % 32`; never panics. */
  function RotateRight(x: I32, n: U32): (r: I32)
    ensures forall j | 0 <= j < 32 :: Bit(r, j) <==> Bit(x, (j + n % 32) % 32)
  {
    var u, k := AsU32(x), n % 32;
    var p := Halve(u, k) + LowBits(u, k) * Pow2(32 - k);
    RotationFits(u, k);
    AsU32OfWrap(p);
    forall j | 0 <= j < 32
      ensures Bit(Wrap(p), j) <==> Bit(x, (j + k) % 32)
    {
      SwapDigits(u, k, j);
      DigitIsDivision(p, j);
      DigitIsDivision(u, (j + k) % 32);
    }
    Wrap(p)
  }

  /** Rotating a 32-bit pattern gives a 32-bit pattern. */
  lemma RotationFits(u: nat, k: nat)
    requires u < 0x1_0000_0000 && k < 32
    ensures Halve(u, k) < Pow2(32 - k)
    ensures Halve(u, k) + LowBits(u, k) * Pow2(32 - k) < 0x1_0000_0000
  {
    HalveAndLowBits(u, k);
    Pow2Add(k, 32 - k);
    assert Pow2(32) == 0x1_0000_0000;
    SwapFits(u, Halve(u, k), LowBits(u, k), Pow2(k), Pow2(32 - k));
  }

  /** The rotated pattern is the word's unsigned reading. */
  lemma RotatedPattern(x: I32, n: U32)
    ensures AsU32(RotateRight(x, n)) == Halve(AsU32(x), n % 32) + LowBits(AsU32(x), n % 32) * Pow2(32 - n % 32)
    ensures Halve(AsU32(x), n % 32) < Pow2(32 - n % 32)
  {
    var u, k := AsU32(x), n % 32;
    RotationFits(u, k);
    AsU32OfWrap(Halve(u, k) + LowBits(u, k) * Pow2(32 - k));
  }

  /** Bit `j` of a pattern rotated right by `k` is bit `(j + k) % 32` of the pattern. */
  lemma SwapDigits(u: nat, k: nat, j: nat)
    requires u < 0x1_0000_0000 && k < 32 && j < 32
    ensures Digit(Halve(u, k) + LowBits(u, k) * Pow2(32 - k), j) == Digit(u, (j + k) % 32)
  {
    RotationFits(u, k);
    DigitOfSum(Halve(u, k), LowBits(u, k), 32 - k, j);
    if j < 32 - k {
      DigitOfHalve(u, k, j);
    } else {
      DigitOfLowBits(u, k, j + k - 32);
    }
  }

  /** Bit `j` of the rotated word is bit `(j + n) % 32` of the operand. */
  lemma RotateRightDigits(x: I32, n: U32, j: nat)
    requires j < 32
    ensures Digit(AsU32(RotateRight(x, n)), j) == Digit(AsU32(x), (j + n % 32) % 32)
  {
    RotatedPattern(x, n);
    SwapDigits(AsU32(x), n % 32, j);
  }

  /** Number of significant bits of `u`. */
  function BitLength(u: nat): (r: nat)
    ensures u < Pow2(r)
    ensures u > 0 ==> r > 0 && Pow2(r - 1) <= u
  {
    if u == 0 then 0 else
      var r := 1 + BitLength(u / 2);
      Pow2Succ(r - 1);
      if u / 2 > 0 then Pow2Succ(r - 2); r else r
  }

  /** A number below 2^m has at most m significant bits. */
  lemma {:induction false} BitLengthBelow(u: nat, m: nat)
    requires u < Pow2(m)
    ensures BitLength(u) <= m
    decreases u
  {
    if u > 0 {
      Pow2Succ(m - 1);
      BitLengthBelow(u / 2, m - 1);
    }
  }

  /** `leading_zeros` of the 32-bit pattern: 32 exactly for zero, and otherwise the count
    * `r` for which the top set bit is bit `31 - r`. */
  function LeadingZeros(x: I32): (r: nat)
    ensures r <= 32
    ensures r == 32 <==> x == 0
    ensures r < 32 ==> Pow2(31 - r) <= AsU32(x) < Pow2(32 - r)
  {
    BitLengthBelow(AsU32(x), 32);
    32 - BitLength(AsU32(x))
  }
}
