/**
  Go's 64-bit integers: the bounds of `int64` and `uint64`, and the
  two's-complement wrap-around of `int64` arithmetic.
 */
module GoInt {

  const MaxUint64: int := 0xFFFF_FFFF_FFFF_FFFF
  const MaxInt64: int := 0x7FFF_FFFF_FFFF_FFFF
  const MinInt64: int := -0x8000_0000_0000_0000
  /** 2 to the 64th: the modulus of 64-bit arithmetic. */
  const Modulus64: int := 0x1_0000_0000_0000_0000

  predicate IsInt64(x: int) {
    MinInt64 <= x <= MaxInt64
  }

  /** The `int64` a Go computation yields when its exact result is `x`. */
  function Wrap64(x: int): (r: int)
    ensures IsInt64(r)
    ensures (x - r) % Modulus64 == 0
    ensures IsInt64(x) ==> r == x
  {
    (x - MinInt64) % Modulus64 + MinInt64
  }

  /** `x` saturated to the `int64` range. */
  function Clamp64(x: int): (r: int)
    ensures IsInt64(r)
    ensures IsInt64(x) ==> r == x
    ensures x > MaxInt64 ==> r == MaxInt64
    ensures x < MinInt64 ==> r == MinInt64
  {
    if x > MaxInt64 then MaxInt64 else if x < MinInt64 then MinInt64 else x
  }
}
