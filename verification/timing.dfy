/** Java integer arithmetic used by the plugin: the configured timeout is a Java
    `int`, it is clamped to be non-negative, and it is turned into a millisecond
    delay for `java.util.Timer.schedule`. */
module Timing {

  const Int32Min: int := -0x8000_0000
  const Int32Max: int := 0x7FFF_FFFF
  const Int64Max: int := 0x7FFF_FFFF_FFFF_FFFF

  /** The largest timeout, in seconds, whose millisecond count is a Java `int`. */
  const MaxExactSeconds: int := 2147483

  predicate IsInt32(x: int) {
    Int32Min <= x <= Int32Max
  }

  /** Java's `int` arithmetic: the mathematical value reduced modulo 2^32 into
      the signed 32-bit range. */
  function Wrap32(x: int): (r: int)
    ensures IsInt32(r)
    ensures (x - r) % 0x1_0000_0000 == 0
    ensures IsInt32(x) ==> r == x
  {
    (x - Int32Min) % 0x1_0000_0000 + Int32Min
  }

  /** The timeout the plugin keeps: a negative configured value is replaced by 0,
      any other value is kept. The result is the least non-negative value that is
      at least the configured one. */
  function ClampTimeout(configured: int): (t: int)
    ensures t >= 0 && t >= configured
    ensures t == configured || t == 0
    ensures IsInt32(configured) ==> IsInt32(t)
  {
    if configured < 0 then 0 else configured
  }

  /** The delay, in milliseconds, that the timer is scheduled with when the
      product is computed in 64 bits (`Timer.schedule` takes a `long`). */
  function DelayMs(seconds: int): (ms: int)
    requires 0 <= seconds <= Int32Max
    ensures 0 <= ms <= Int64Max
    ensures ms / 1000 == seconds && ms % 1000 == 0
  {
    seconds * 1000
  }

  /** The delay as the source computes it: `inactivityTimeout*1000` is a product
      of two Java `int`s, so it wraps around modulo 2^32. */
  function AsWrittenDelay(seconds: int): (ms: int)
    requires 0 <= seconds <= Int32Max
    ensures IsInt32(ms)
  {
    Wrap32(seconds * 1000)
  }

  /** The 32-bit product is the intended delay exactly when the timeout is at
      most 2147483 seconds. */
  lemma AsWrittenDelayExactIff(seconds: int)
    requires 0 <= seconds <= Int32Max
    ensures AsWrittenDelay(seconds) == DelayMs(seconds) <==> seconds <= MaxExactSeconds
  {
  }

  /** One second more than the bound: the delay wraps to a negative number, which
      `Timer.schedule` rejects with an `IllegalArgumentException`. */
  lemma OverflowToNegativeDelay()
    ensures AsWrittenDelay(MaxExactSeconds + 1) == -2147483296
    ensures AsWrittenDelay(MaxExactSeconds + 1) < 0 <= DelayMs(MaxExactSeconds + 1)
  {
  }

  /** A timeout of about 50 days wraps to a positive delay of 704 milliseconds:
      the server would stop almost at once. */
  lemma OverflowToShortDelay()
    ensures DelayMs(4294968) == 4294968000
    ensures AsWrittenDelay(4294968) == 704
  {
  }
}
