/**
 * The fixed-width integers of the 32-bit ARM target and the C++ conversions
 * and operators on them, written out on unbounded integers.
 *
 * An unsigned result is reduced modulo 2^32 and a conversion from `uint32_t`
 * to `int32_t` reinterprets the 32 bits as two's complement. Shifts by a
 * constant are written where they occur as division or multiplication by
 * the matching power of two: `>>` on `uint32_t` drops the low bits, and `>>`
 * on `int32_t` is an arithmetic shift, i.e. floor division, which is what
 * Dafny's `/` computes for a positive divisor.
 */
module CInts {

  const TWO_15: int := 0x8000
  const TWO_16: int := 0x1_0000
  const TWO_31: int := 0x8000_0000
  const TWO_32: int := 0x1_0000_0000

  type uint8 = x: int | 0 <= x < 0x100
  type uint16 = x: int | 0 <= x < 0x1_0000
  type uint32 = x: int | 0 <= x < 0x1_0000_0000
  type int32 = x: int | -0x8000_0000 <= x < 0x8000_0000

  /** 2^k: the factor a shift by k bits multiplies or divides by. */
  function Pow2(k: nat): (r: nat)
    ensures r >= 1
  {
    if k == 0 then 1 else 2 * Pow2(k - 1)
  }

  /** Conversion of any integer value to `uint32_t`: the representative modulo 2^32. */
  function ToUint32(x: int): (r: uint32)
    ensures (x - r) % TWO_32 == 0
    ensures 0 <= x < TWO_32 ==> r == x
    ensures -TWO_32 <= x < 0 ==> r == x + TWO_32
  {
    x % TWO_32
  }

  /** Conversion of a `uint32_t` to `int32_t` on a two's-complement target. */
  function ToInt32(x: uint32): (r: int32)
    ensures (x - r) % TWO_32 == 0
    ensures x < TWO_31 <==> r >= 0
  {
    if x < TWO_31 then x else x - TWO_32
  }

  /** Unsigned `a + b`, `a * b` and `a - b` on `uint32_t`. */
  function AddU32(a: uint32, b: uint32): uint32 { ToUint32(a + b) }
  function MulU32(a: uint32, b: uint32): uint32 { ToUint32(a * b) }
  function SubU32(a: uint32, b: uint32): uint32 { ToUint32(a - b) }

  /**
   * `a * b` on `int32_t`. Signed overflow is undefined in C++; the ARM
   * multiply instruction keeps the low 32 bits, which is what this returns.
   */
  function MulI32(a: int32, b: int32): (r: int32)
    ensures -TWO_31 <= a * b < TWO_31 ==> r == a * b
  {
    WrapIntoInt32(a * b);
    ToInt32(ToUint32(a * b))
  }

  /**
   * The conversion chain `int32_t(uint32_t(d))` is the identity on every
   * value `int32_t` can hold.
   */
  lemma WrapIntoInt32(d: int)
    ensures -TWO_31 <= d < TWO_31 ==> ToInt32(ToUint32(d)) == d
  {
  }

  /**
   * `a - b` with `a` a `uint16_t` and `b` a `uint32_t`, as C++ evaluates it:
   * `a` is converted to `uint32_t` (the usual arithmetic conversions), the
   * subtraction wraps modulo 2^32, and the result is then stored as `int32_t`.
   * Whenever `b` fits in 24 bits the wrap-around cancels out.
   */
  function U16MinusU32AsI32(a: uint16, b: uint32): (r: int32)
    ensures b < 0x100_0000 ==> r == a - b
  {
    WrapIntoInt32(a - b);
    ToInt32(SubU32(a, b))
  }

  /**
   * The 24-bit bound suffices, but some bound is needed: with `b` = 2^31 + 1
   * and `a` = 0, the stored `int32_t` is 2^31 - 1, not -(2^31 + 1).
   */
  lemma WideSubtrahendWraps()
    ensures ToInt32(SubU32(0, TWO_31 + 1)) == TWO_31 - 1
  {
  }
}
