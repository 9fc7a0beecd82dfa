/** The fixed-width integers of the C# source, on top of Dafny's unbounded `int`. */
module Integers {

  const TWO_15: int := 0x8000
  const TWO_16: int := 0x1_0000
  const TWO_31: int := 0x8000_0000
  const TWO_32: int := 0x1_0000_0000
  const TWO_63: int := 0x8000_0000_0000_0000
  const TWO_64: int := 0x1_0000_0000_0000_0000

  /** C# `short`. */
  type Int16 = x: int | -TWO_15 <= x < TWO_15
  /** C# `int` (also the underlying type of an `enum` that names none). */
  type Int32 = x: int | -TWO_31 <= x < TWO_31
  /** C# `long`. */
  type Int64 = x: int | -TWO_63 <= x < TWO_63

  /** An unchecked conversion to `short`: the low 16 bits, read as two's complement. */
  function WrapInt16(x: int): (r: Int16)
    ensures (r - x) % TWO_16 == 0
    ensures -TWO_15 <= x < TWO_15 ==> r == x
  {
    var low := x % TWO_16;
    if low < TWO_15 then low else low - TWO_16
  }

  /** Unchecked `int` arithmetic: the low 32 bits, read as two's complement. */
  function WrapInt32(x: int): (r: Int32)
    ensures (r - x) % TWO_32 == 0
    ensures -TWO_31 <= x < TWO_31 ==> r == x
  {
    var low := x % TWO_32;
    if low < TWO_31 then low else low - TWO_32
  }

  /** The 64-bit two's-complement bit pattern of a `long`, the operand of C#'s `&` and `|`. */
  function LongBits(x: Int64): bv64
  {
    (if x < 0 then x + TWO_64 else x) as bv64
  }
}
