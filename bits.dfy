/**
 * Fixed-width unsigned integers and the bitwise operators the avatar engine
 * applies to them, defined over naturals one bit at a time.
 *
 * Shifts follow the release build of the runtime, where overflow checks are
 * off: the shift amount is taken modulo the width and the bits shifted out
 * are dropped.
 */
module Bits {

  /** Rust's `u8`. */
  type Byte = x: int | 0 <= x < 256
  /** Rust's `u16`. */
  type U16 = x: int | 0 <= x < 0x1_0000
  /** Rust's `u32`. */
  type U32 = x: int | 0 <= x < 0x1_0000_0000

  const U8_MAX: Byte := 255
  const U32_MAX: U32 := 0xFFFF_FFFF

  function Pow2(n: nat): (r: nat)
    ensures r >= 1
  {
    if n == 0 then 1 else 2 * Pow2(n - 1)
  }

  lemma {:induction false} Pow2Monotone(m: nat, n: nat)
    requires m <= n
    ensures Pow2(m) <= Pow2(n)
  {
    if m < n {
      Pow2Monotone(m, n - 1);
    }
  }

  lemma Pow2Below8(n: nat)
    requires n < 8
    ensures Pow2(n) <= 128
  {
    Pow2Monotone(n, 7);
    assert Pow2(7) == 128;
  }

  /** Bitwise and of two naturals. */
  function BitAnd(a: nat, b: nat): (r: nat)
    ensures r <= a && r <= b
  {
    if a == 0 || b == 0 then 0
    else 2 * BitAnd(a / 2, b / 2) + (if a % 2 == 1 && b % 2 == 1 then 1 else 0)
  }

  /** Bitwise or of two naturals. */
  function BitOr(a: nat, b: nat): (r: nat)
    decreases a + b
  {
    if a == 0 then b
    else if b == 0 then a
    else 2 * BitOr(a / 2, b / 2) + (if a % 2 == 1 || b % 2 == 1 then 1 else 0)
  }

  /** Bitwise exclusive or of two naturals. */
  function BitXor(a: nat, b: nat): (r: nat)
    decreases a + b
  {
    if a == 0 then b
    else if b == 0 then a
    else 2 * BitXor(a / 2, b / 2) + (if a % 2 != b % 2 then 1 else 0)
  }

  /** Whether bit `n` (counting from the least significant, 0) of `x` is set. */
  predicate TestBit(x: nat, n: nat)
  {
    if n == 0 then x % 2 == 1 else TestBit(x / 2, n - 1)
  }

  /** Or and xor of two `k`-bit numbers are `k`-bit numbers. */
  lemma {:induction false} OrXorBound(a: nat, b: nat, k: nat)
    requires a < Pow2(k) && b < Pow2(k)
    ensures BitOr(a, b) < Pow2(k) && BitXor(a, b) < Pow2(k)
  {
    if a != 0 && b != 0 {
      OrXorBound(a / 2, b / 2, k - 1);
    }
  }

  /** A number of the form `2^k * y` or-ed with a value below `2^k` is their sum. */
  lemma {:induction false} OrDisjoint(y: nat, x: nat, k: nat)
    requires x < Pow2(k)
    ensures BitOr(Pow2(k) * y, x) == Pow2(k) * y + x
  {
    if k > 0 && y != 0 && x != 0 {
      var m := Pow2(k - 1);
      assert Pow2(k) * y == 2 * (m * y);
      OrDisjoint(y, x / 2, k - 1);
    }
  }

  /** `2^k * y & x` for `x < 2^k` is zero: the two share no bit. */
  lemma {:induction false} AndDisjoint(y: nat, x: nat, k: nat)
    requires x < Pow2(k)
    ensures BitAnd(Pow2(k) * y, x) == 0
  {
    if k > 0 && y != 0 && x != 0 {
      var m := Pow2(k - 1);
      assert Pow2(k) * y == 2 * (m * y);
      AndDisjoint(y, x / 2, k - 1);
    }
  }

  /** Xor commutes with doubling: an even number xor an even number is even, bit by bit. */
  lemma XorDouble(a: nat, b: nat)
    ensures BitXor(2 * a, 2 * b) == 2 * BitXor(a, b)
  {
  }

  /** Or does not depend on the order of its operands. */
  lemma {:induction false} BitOrCommutes(a: nat, b: nat)
    ensures BitOr(a, b) == BitOr(b, a)
    decreases a + b
  {
    if a != 0 && b != 0 {
      BitOrCommutes(a / 2, b / 2);
    }
  }

  /** Bit `n` of `a | b` is set iff it is set in `a` or in `b`. */
  lemma {:induction false} TestBitOr(a: nat, b: nat, n: nat)
    ensures TestBit(BitOr(a, b), n) <==> TestBit(a, n) || TestBit(b, n)
  {
    if a == 0 {
      ZeroHasNoBits(n);
    } else if b == 0 {
      ZeroHasNoBits(n);
    } else if n > 0 {
      TestBitOr(a / 2, b / 2, n - 1);
    }
  }

  lemma {:induction false} ZeroHasNoBits(n: nat)
    ensures !TestBit(0, n)
  {
    if n > 0 {
      ZeroHasNoBits(n - 1);
    }
  }

  /** `2^m` has exactly bit `m` set. */
  lemma {:induction false} TestBitPow2(m: nat, n: nat)
    ensures TestBit(Pow2(m), n) <==> m == n
  {
    if m == 0 {
      if n > 0 {
        ZeroHasNoBits(n - 1);
      }
    } else if n == 0 {
    } else {
      TestBitPow2(m - 1, n - 1);
    }
  }

  /** `x & 2^n` is `2^n` when bit `n` of `x` is set and 0 otherwise. */
  lemma {:induction false} AndPow2(x: nat, n: nat)
    ensures BitAnd(x, Pow2(n)) == if TestBit(x, n) then Pow2(n) else 0
  {
    if x == 0 {
      ZeroHasNoBits(n);
    } else if n > 0 {
      AndPow2(x / 2, n - 1);
    }
  }

  /** `saturating_sub` on unsigned integers. */
  function SatSub(a: nat, b: nat): (r: nat)
    ensures r <= a
    ensures a >= b ==> r + b == a
    ensures a < b ==> r == 0
  {
    if a > b then a - b else 0
  }

  /** `u8::saturating_add`. */
  function SatAddU8(a: Byte, b: Byte): (r: Byte)
    ensures r == if a + b > U8_MAX then U8_MAX else a + b
  {
    if a > U8_MAX - b then U8_MAX else a + b
  }

  /** `u8::saturating_mul`. */
  function SatMulU8(a: Byte, b: Byte): (r: Byte)
    ensures r <= a * b && (a * b <= U8_MAX ==> r == a * b)
  {
    if a * b > U8_MAX then U8_MAX else a * b
  }

  /** `u32::saturating_add`. */
  function SatAddU32(a: U32, b: U32): (r: U32)
    ensures r == if a + b > U32_MAX then U32_MAX else a + b
  {
    if a > U32_MAX - b then U32_MAX else a + b
  }

  /** `u32 + u32` with overflow checks off. */
  function WrapAddU32(a: U32, b: U32): (r: U32)
    ensures a + b <= U32_MAX ==> r == a + b
    ensures a + b > U32_MAX ==> r == a + b - U32_MAX - 1
  {
    (a + b) % 0x1_0000_0000
  }

  /** `u8 - u8` with overflow checks off. */
  function WrapSubU8(a: Byte, b: Byte): (r: Byte)
    ensures a >= b ==> r == a - b
    ensures a < b ==> r == a - b + 256
  {
    (a - b) % 256
  }

  /** Rust's `u8 << n` with overflow checks off. */
  function Shl8(a: Byte, n: nat): (r: Byte)
  {
    (a * Pow2(n % 8)) % 256
  }

  /** `a` shifted right by `k` bits: `k` halvings, each dropping the lowest bit. */
  function ShrBits(a: nat, k: nat): (r: nat)
    ensures r <= a
  {
    if k == 0 then a else ShrBits(a / 2, k - 1)
  }

  /** A value below `2^k` shifted right by `k` bits is 0. */
  lemma {:induction false} ShrBitsOut(a: nat, k: nat)
    requires a < Pow2(k)
    ensures ShrBits(a, k) == 0
  {
    if k > 0 {
      ShrBitsOut(a / 2, k - 1);
    }
  }

  /** Rust's `u8 >> n` with overflow checks off. */
  function Shr8(a: Byte, n: nat): (r: Byte)
  {
    ShrBits(a, n % 8)
  }

  /** Rust's `u8 & u8`. */
  function And8(a: Byte, b: Byte): (r: Byte)
    ensures r <= a && r <= b
  {
    BitAnd(a, b)
  }

  /** Rust's `u8 | u8`: never above 255, never below either operand's value alone when the other is 0. */
  function Or8(a: Byte, b: Byte): (r: Byte)
    ensures a == 0 ==> r == b
    ensures b == 0 ==> r == a
  {
    OrXorBound(a, b, 8);
    BitOr(a, b)
  }

  /** Rust's `u8 ^ u8`. */
  function Xor8(a: Byte, b: Byte): (r: Byte)
    ensures a == 0 ==> r == b
  {
    OrXorBound(a, b, 8);
    BitXor(a, b)
  }

  /** `1 << n` on `u8` is the power of two `2^(n mod 8)`. */
  lemma OneShl8(n: nat)
    ensures Shl8(1, n) == Pow2(n % 8) && Shl8(1, n) <= 128
  {
    Pow2Below8(n % 8);
  }

  /** The high nibble of a byte: `b >> 4`. */
  lemma ShrFour(b: Byte)
    ensures Shr8(b, 4) == b / 16 && Shr8(b, 4) < 16
  {
    assert Shr8(b, 4) == ShrBits(b, 4) == ShrBits(b / 2, 3);
    assert ShrBits(b / 2, 3) == ShrBits(b / 2 / 2, 2) == ShrBits(b / 2 / 2 / 2, 1);
    assert ShrBits(b / 2 / 2 / 2, 1) == ShrBits(b / 2 / 2 / 2 / 2, 0);
  }

  /** And with an even mask: the lowest bit drops out. */
  lemma HalveAnd(x: nat, m: nat)
    ensures BitAnd(x, 2 * m) == 2 * BitAnd(x / 2, m)
  {
  }

  /** And with an odd mask: the lowest bit of `x` survives. */
  lemma HalveAndOdd(x: nat, m: nat)
    ensures BitAnd(x, 2 * m + 1) == 2 * BitAnd(x / 2, m) + x % 2
  {
  }

  /** `b & 0x0F` is the low nibble `b % 16`. */
  lemma {:induction false} AndLowNibble(b: nat)
    ensures BitAnd(b, 0x0F) == b % 16
  {
    var b1 := b / 2;
    var b2 := b1 / 2;
    var b3 := b2 / 2;
    HalveAndOdd(b, 7);
    HalveAndOdd(b1, 3);
    HalveAndOdd(b2, 1);
    HalveAndOdd(b3, 0);
    assert b == 16 * (b3 / 2) + 8 * (b3 % 2) + 4 * (b2 % 2) + 2 * (b1 % 2) + b % 2;
  }

  lemma NibbleIsItsOwnLowNibble(n: nat)
    requires n < 16
    ensures n % 16 == n
  {
  }

  /** `b & 0xF0` clears the low nibble. */
  lemma {:induction false} AndHighNibble(b: Byte)
    ensures And8(b, 0xF0) == 16 * (b / 16)
  {
    var b1 := b / 2;
    var b2 := b1 / 2;
    var b3 := b2 / 2;
    var b4 := b3 / 2;
    HalveAnd(b, 0x78);
    HalveAnd(b1, 0x3C);
    HalveAnd(b2, 0x1E);
    HalveAnd(b3, 0x0F);
    assert b4 == b / 16 && b4 < 16;
    NibbleIsItsOwnLowNibble(b4);
    AndLowNibble(b4);
    assert BitAnd(b2, 0x3C) == 4 * b4;
    assert BitAnd(b, 0xF0) == 16 * b4;
  }

  /** Rust's `n | (a << 4)` for a nibble `n`: the two nibbles side by side. */
  lemma OrNibbles(lo: Byte, hi: Byte)
    requires lo < 16
    ensures Or8(lo, Shl8(hi, 4)) == 16 * (hi % 16) + lo
  {
    assert Pow2(4) == 16;
    assert Shl8(hi, 4) == 16 * (hi % 16);
    OrDisjoint(hi % 16, lo, 4);
    BitOrCommutes(lo, Shl8(hi, 4));
  }

  /** Rust's `(b & 0xF0) | n` for a nibble `n`: a high nibble kept and a low one put beside it. */
  lemma OrKeptHighNibble(b: Byte, lo: Byte)
    requires lo < 16
    ensures Or8(And8(b, 0xF0), lo) == 16 * (b / 16) + lo
  {
    AndHighNibble(b);
    assert Pow2(4) == 16;
    OrDisjoint(b / 16, lo, 4);
  }

  /** Two `k`-bit numbers with the same bits are equal. */
  lemma {:induction false} BitsDetermine(x: nat, y: nat, k: nat)
    requires x < Pow2(k) && y < Pow2(k)
    requires forall n: nat | n < k :: TestBit(x, n) == TestBit(y, n)
    ensures x == y
  {
    if k > 0 {
      assert TestBit(x, 0) == TestBit(y, 0);
      forall n: nat | n < k - 1
        ensures TestBit(x / 2, n) == TestBit(y / 2, n)
      {
        assert TestBit(x, n + 1) == TestBit(y, n + 1);
      }
      BitsDetermine(x / 2, y / 2, k - 1);
    }
  }

  /** A byte made of a high and a low nibble splits back into them. */
  lemma NibblesSplit(hi: nat, lo: nat)
    requires hi < 16 && lo < 16
    ensures (16 * hi + lo) / 16 == hi && (16 * hi + lo) % 16 == lo
  {
  }

  /** Rust's `usize`, on the 64-bit targets the runtime is built for. */
  const USIZE_MAX: nat := 0xFFFF_FFFF_FFFF_FFFF

  /** `usize::BITS - n.leading_zeros()`: the number of significant bits of `n`. */
  function BitLength(n: nat): (r: nat)
    ensures n == 0 <==> r == 0
    ensures n < Pow2(r)
  {
    if n == 0 then 0 else 1 + BitLength(n / 2)
  }

  lemma {:induction false} BitLengthBound(n: nat, k: nat)
    requires n < Pow2(k)
    ensures BitLength(n) <= k
  {
    if n > 0 {
      BitLengthBound(n / 2, k - 1);
    }
  }

  lemma Pow2Is32Bits()
    ensures Pow2(32) == 0x1_0000_0000 && Pow2(8) == 256
  {
    assert Pow2(8) == 256;
    assert Pow2(16) == 256 * 256 by {
      assert Pow2(16) == Pow2(8) * Pow2(8) by { Pow2Add(8, 8); }
    }
    Pow2Add(16, 16);
  }

  lemma {:induction false} Pow2Add(m: nat, n: nat)
    ensures Pow2(m + n) == Pow2(m) * Pow2(n)
  {
    if n > 0 {
      Pow2Add(m, n - 1);
    }
  }

  lemma Pow2Is64Bits()
    ensures Pow2(64) == USIZE_MAX + 1
  {
    Pow2Is32Bits();
    Pow2Add(32, 32);
  }

  /** Rust's `u32 << n` with overflow checks off. */
  function Shl32(a: U32, n: nat): U32
  {
    (a * Pow2(n % 32)) % 0x1_0000_0000
  }

  /** Rust's `u32 >> n` with overflow checks off. */
  function Shr32(a: U32, n: nat): (r: U32)
    ensures r <= a
  {
    a / Pow2(n % 32)
  }

  /** Rust's `u32 | u32`. */
  function Or32(a: U32, b: U32): (r: U32)
    ensures b == 0 ==> r == a
  {
    Pow2Is32Bits();
    OrXorBound(a, b, 32);
    BitOr(a, b)
  }
}
