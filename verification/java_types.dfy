/**
 * Java's fixed-width integers. `int` is a 32-bit and `long` a 64-bit two's
 * complement integer; `+` on `long` wraps around modulo 2^64.
 */
module JavaTypes {
  const INT_MIN: int := -0x8000_0000
  const INT_MAX: int := 0x7fff_ffff
  const LONG_MIN: int := -0x8000_0000_0000_0000
  const LONG_MAX: int := 0x7fff_ffff_ffff_ffff
  const TWO_TO_64: int := 0x1_0000_0000_0000_0000

  newtype Int32 = x: int | -0x8000_0000 <= x < 0x8000_0000
  newtype Int64 = x: int | -0x8000_0000_0000_0000 <= x < 0x8000_0000_0000_0000

  /** Java's `Integer.MIN_VALUE`. */
  const INTEGER_MIN_VALUE: Int32 := -0x8000_0000

  /**
   * Java's `long` addition: the `long` whose low-order 64 bits are those of
   * the mathematical sum, which is the sum itself whenever that fits.
   */
  function AddLong(a: Int64, b: Int64): (r: Int64)
    ensures (r as int - (a as int + b as int)) % TWO_TO_64 == 0
    ensures LONG_MIN <= a as int + b as int <= LONG_MAX ==> r as int == a as int + b as int
  {
    var s := a as int + b as int;
    if s > LONG_MAX then (s - TWO_TO_64) as Int64
    else if s < LONG_MIN then (s + TWO_TO_64) as Int64
    else s as Int64
  }
}
