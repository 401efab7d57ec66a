/** Go's 64-bit integers: their ranges and what a value becomes when it is converted or overflows. */
module MachineInts {

  const TWO_63: int := 0x8000_0000_0000_0000
  const TWO_64: int := 0x1_0000_0000_0000_0000

  type U64 = x: int | 0 <= x < TWO_64
  type I64 = x: int | -TWO_63 <= x < TWO_63

  /** The conversion of a signed integer to uint64. */
  function ToU64(x: int): (u: U64)
    ensures 0 <= x < TWO_64 ==> u == x
    ensures -TWO_64 <= x < 0 ==> u == TWO_64 + x
  {
    x % TWO_64
  }

  /** Two's complement wrap-around to int64. */
  function Wrap64(x: int): (w: int)
    ensures -TWO_63 <= w < TWO_63
    ensures -TWO_63 <= x < TWO_63 ==> w == x
  {
    (x + TWO_63) % TWO_64 - TWO_63
  }

  /** Go's `%`, which takes the sign of the dividend. */
  function GoRem(a: int, b: int): int
    requires b > 0
  {
    if a >= 0 then a % b else -((-a) % b)
  }

  /** A wrapping increment is undone by a wrapping decrement. */
  lemma WrapUndone(x: int)
    ensures Wrap64(Wrap64(x + 1) - 1) == Wrap64(x)
  {
    var y := x + TWO_63;
    var q := y / TWO_64;
    assert y == q * TWO_64 + y % TWO_64;
    if y % TWO_64 == TWO_64 - 1 {
      assert (y + 1) % TWO_64 == 0 by {
        assert y + 1 == (q + 1) * TWO_64;
      }
    } else {
      assert (y + 1) % TWO_64 == y % TWO_64 + 1;
    }
  }
}
