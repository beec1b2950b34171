/** Go's fixed-width integer arithmetic where the core depends on it: int64 wrap-around and
    division that truncates toward zero. */
module GoInt {

  const MinInt64: int := -0x8000_0000_0000_0000
  const MaxInt64: int := 0x7FFF_FFFF_FFFF_FFFF
  const MaxUint64: int := 0xFFFF_FFFF_FFFF_FFFF
  const TwoTo64: int := 0x1_0000_0000_0000_0000

  predicate IsInt64(x: int)
  {
    MinInt64 <= x <= MaxInt64
  }

  /** The int64 that Go's two's-complement arithmetic yields for the mathematical value `x`. */
  function Wrap64(x: int): (r: int)
    ensures IsInt64(r)
    ensures (r - x) % TwoTo64 == 0
    ensures IsInt64(x) ==> r == x
  {
    (x - MinInt64) % TwoTo64 + MinInt64
  }

  /** Go's `ms / 1000` on an int64: the quotient truncated toward zero, not floored. */
  function MillisToSeconds(ms: int): (s: int)
    ensures 0 <= ms ==> s * 1000 <= ms < s * 1000 + 1000
    ensures ms < 0 ==> s * 1000 - 1000 < ms <= s * 1000
    ensures IsInt64(ms) ==> IsInt64(s)
  {
    if ms >= 0 then ms / 1000 else -((-ms) / 1000)
  }
}
