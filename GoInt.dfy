/** Go's fixed-width integers and their operators, where the modelled code
    depends on them: truncating division and the wrap-around conversions
    between `int64` and `uint64`. */
module GoInt {
  const MinInt64: int := -0x8000_0000_0000_0000
  const MaxInt64: int := 0x7FFF_FFFF_FFFF_FFFF
  const TwoTo64: int := 0x1_0000_0000_0000_0000

  /** Size units, in bytes. */
  const MiB: int := 1024 * 1024
  const GiB: int := 1024 * 1024 * 1024

  type int64 = x: int | MinInt64 <= x <= MaxInt64
  type uint64 = x: int | 0 <= x < TwoTo64
  type uint32 = x: int | 0 <= x < 0x1_0000_0000

  /** Go's `/` on integers: the quotient truncated toward zero. */
  function GoDiv(a: int, b: int): (q: int)
    requires b > 0
    ensures a >= 0 ==> q == a / b
    ensures a < 0 ==> q == -((-a) / b)
    ensures q * b <= a < q * b + b || q * b - b < a <= q * b
  {
    if a >= 0 then a / b else -((-a) / b)
  }

  /** Go's conversion `uint64(x)` of an `int64`: two's complement wrap. */
  function ToUint64(x: int64): (u: uint64)
    ensures x >= 0 ==> u == x
    ensures x < 0 ==> u == x + TwoTo64
  {
    x % TwoTo64
  }

  /** Go's conversion `int64(u)` of a `uint64`: two's complement wrap. */
  function ToInt64(u: uint64): (x: int64)
    ensures u <= MaxInt64 ==> x == u
    ensures u > MaxInt64 ==> x == u - TwoTo64
  {
    if u <= MaxInt64 then u else u - TwoTo64
  }

  /** The result of Go's `int64` arithmetic on an exact value `x`: `x` when it
      fits, otherwise `x` wrapped around by a multiple of 2^64. */
  function WrapInt64(x: int): (r: int64)
    ensures MinInt64 <= x <= MaxInt64 ==> r == x
    ensures (r - x) % TwoTo64 == 0
  {
    (x - MinInt64) % TwoTo64 + MinInt64
  }
}
