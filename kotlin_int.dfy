/** The parts of Kotlin's integer semantics the view models rely on. */
module KotlinInt {

  /** Kotlin's `Int`: a signed 32-bit integer. */
  type Int32 = x: int | -0x8000_0000 <= x < 0x8000_0000

  /** `x.coerceIn(lo, hi)`. Kotlin throws IllegalArgumentException when the range is
      empty (`hi < lo`), so a non-empty range is demanded of every caller. */
  function CoerceIn(x: int, lo: int, hi: int): (r: int)
    requires lo <= hi
    ensures lo <= r <= hi
    ensures lo <= x <= hi ==> r == x
    ensures x < lo ==> r == lo
    ensures hi < x ==> r == hi
  {
    if x < lo then lo else if hi < x then hi else x
  }

  /** `x.coerceAtLeast(lo)`: never throws. */
  function CoerceAtLeast(x: int, lo: int): (r: int)
    ensures lo <= r
    ensures lo <= x ==> r == x
    ensures x < lo ==> r == lo
  {
    if x < lo then lo else x
  }
}
