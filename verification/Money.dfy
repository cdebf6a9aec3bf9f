/** Money is held in Go's `int64`, whose addition and subtraction wrap silently. */
module Money {

  const MAX64: int := 0x7fff_ffff_ffff_ffff
  const TWO64: int := 0x1_0000_0000_0000_0000

  type int64 = x: int | -MAX64 - 1 <= x <= MAX64

  /** The 64-bit two's complement value congruent to `x`. */
  function Wrap64(x: int): (r: int64)
    ensures (x - r) % TWO64 == 0
  {
    var m := x % TWO64;
    if m > MAX64 then m - TWO64 else m
  }

  function Add64(a: int64, b: int64): (r: int64) { Wrap64(a + b) }

  function Sub64(a: int64, b: int64): (r: int64) { Wrap64(a - b) }

  /**
   * A sum of two non-negative amounts that wraps is always negative, so the
   * non-negative CHECK on `wallets.balance_paise` catches exactly the wrapped sums.
   */
  lemma WrapIsNegative(a: int64, b: int64)
    requires 0 <= a && 0 <= b
    ensures Add64(a, b) >= 0 <==> a + b <= MAX64
    ensures Add64(a, b) >= 0 ==> Add64(a, b) == a + b
  {
    var m := (a + b) % TWO64;
    assert 0 <= a + b < TWO64;
    assert m == a + b;
  }

  /** The difference of two non-negative amounts never wraps. */
  lemma SubIsExact(a: int64, b: int64)
    requires 0 <= a && 0 <= b
    ensures Sub64(a, b) == a - b
  {
    if a < b {
      assert (a - b) % TWO64 == a - b + TWO64;
    } else {
      assert (a - b) % TWO64 == a - b;
    }
  }
}
