/**
 A counter kept in a JavaScript `number` (an IEEE-754 double) that starts at 0
 and only ever has 1 added to it. Every integer up to 2^53 is exact; at 2^53 the
 sum 2^53 + 1 lies halfway between 2^53 and 2^53 + 2 and rounds to the even
 one, 2^53, so the counter stops there.
 */
module JsNumber {

  /** 2^53, the last value such a counter reaches. */
  const MaxCount: nat := 0x20_0000_0000_0000

  /** The values a counter started at 0 and stepped by one can hold. */
  type Count = n: nat | n <= MaxCount

  function Min(a: nat, b: nat): nat
  {
    if a <= b then a else b
  }

  /** Adding one in double arithmetic, for a reachable counter value. */
  function Increment(n: Count): Count
  {
    if n < MaxCount then n + 1 else n
  }
}
