/** Java's `int` arithmetic as the camera uses it, over unbounded integers:
    absolute value, 32-bit wrap-around, the arithmetic shift right by one
    and division by two rounding toward zero. */
module JavaInt {

  function Abs(x: int): nat {
    if x < 0 then -x else x
  }

  /** Java's 32-bit `int` arithmetic: `x` wrapped into [-2^31, 2^31). */
  function Int32(x: int): (r: int)
    ensures -0x8000_0000 <= r < 0x8000_0000
    ensures -0x8000_0000 <= x < 0x8000_0000 ==> r == x
    ensures (x - r) % 0x1_0000_0000 == 0
  {
    (x + 0x8000_0000) % 0x1_0000_0000 - 0x8000_0000
  }

  /** An arithmetic shift right by one: halves and rounds down, which for a
      divisor of 2 is what Dafny's `/` does on every integer. */
  function ShiftRight1(x: int): (h: int)
    ensures 2 * h <= x < 2 * h + 2
  {
    x / 2
  }

  /** Java's `y / 2` on `int`: the quotient rounded toward zero. */
  function TruncatedHalf(y: int): (h: int)
    ensures Abs(y - 2 * h) <= 1
    ensures Abs(2 * h) <= Abs(y)
    ensures y >= 0 ==> h >= 0
    ensures y <= 0 ==> h <= 0
  {
    if y < 0 then -((-y) / 2) else y / 2
  }
}
