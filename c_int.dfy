/** The C integer types of the firmware's target (32-bit `int` on ARM) and the
    conversions between them that the source relies on implicitly. */
module CInt {

  const TWO_31: int := 0x8000_0000
  const TWO_32: int := 0x1_0000_0000
  const INT32_MAX: int := 0x7FFF_FFFF
  const INT32_MIN: int := -0x8000_0000

  /** A C `int` on the target. */
  type Int32 = x: int | -0x8000_0000 <= x < 0x8000_0000

  /** A C `uint32_t`. */
  type UInt32 = x: int | 0 <= x < 0x1_0000_0000

  /** Two's-complement reduction of a mathematical integer into `int`. Signed
      overflow is undefined behaviour in C; where the source's `int`
      arithmetic can overflow, the model assumes the target's wrapping
      `add` instruction and uses this reduction. */
  function Wrap32(x: int): (r: Int32)
    ensures (r - x) % TWO_32 == 0
    ensures INT32_MIN <= x <= INT32_MAX ==> r == x
  {
    (x + TWO_31) % TWO_32 - TWO_31
  }

  /** `x++` on an `int`, with overflow at INT32_MAX taken as wrapping. */
  function Inc32(x: Int32): (r: Int32)
    ensures r == if x == INT32_MAX then INT32_MIN else x + 1
  {
    Wrap32(x + 1)
  }

  /** The usual arithmetic conversion of an `int` operand to `uint32_t`
      (reduction modulo 2^32), applied when an `int` meets a `uint32_t`. */
  function AsUnsigned(x: Int32): (r: UInt32)
    ensures (r - x) % TWO_32 == 0
    ensures r == x <==> x >= 0
  {
    if x < 0 then x + TWO_32 else x
  }

  /** Conversion of a `uint32_t` to `int`; the compiler for the target reduces
      modulo 2^32. */
  function AsSigned(u: UInt32): (r: Int32)
    ensures (r - u) % TWO_32 == 0
    ensures r == u <==> u <= INT32_MAX
  {
    if u <= INT32_MAX then u else u - TWO_32
  }

  /** Storing a `uint32_t` into an `int` and back gives the original value. */
  lemma UnsignedSignedRoundTrip(u: UInt32)
    ensures AsUnsigned(AsSigned(u)) == u
  {
  }

  /** In the unsigned view, `x++` adds one unless it passes 2^32 - 1. */
  lemma UnsignedInc(x: Int32)
    requires AsUnsigned(x) < TWO_32 - 1
    ensures AsUnsigned(Inc32(x)) == AsUnsigned(x) + 1
  {
  }
}
