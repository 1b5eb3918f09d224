/** Java's 32-bit `int`: its range, two's-complement wrap-around and `Math.abs`. */
module JavaInt {

  const MIN_INT32: int := -0x8000_0000
  const MAX_INT32: int := 0x7fff_ffff
  const TWO_TO_32: int := 0x1_0000_0000

  /** The values a Java `int` can hold. */
  type Int32 = x: int | MIN_INT32 <= x <= MAX_INT32

  /** The Java `int` that a mathematical integer becomes when its low 32 bits are kept
      (what Java's arithmetic does on overflow). */
  function Wrap32(n: int): (r: Int32)
    ensures MIN_INT32 <= n <= MAX_INT32 ==> r == n
    ensures (r - n) % TWO_TO_32 == 0
  {
    (n - MIN_INT32) % TWO_TO_32 + MIN_INT32
  }

  /** Java's `Math.abs(int)`: `a < 0 ? -a : a`, where the negation wraps.
      The magnitude for every value except `Integer.MIN_VALUE`, which is its own negation. */
  function Abs32(a: Int32): (r: Int32)
    ensures a != MIN_INT32 ==> 0 <= r && (r == a || r == -a)
    ensures a == MIN_INT32 ==> r == MIN_INT32
    ensures r != -1
  {
    if a < 0 then Wrap32(-(a as int)) else a
  }

  /** `Math.abs` does not always give a positive number: `abs(0)` is 0 and
      `abs(Integer.MIN_VALUE)` is negative. */
  lemma AbsNotAlwaysPositive()
    ensures Abs32(0) == 0
    ensures Abs32(MIN_INT32) < 0
  {
  }
}
