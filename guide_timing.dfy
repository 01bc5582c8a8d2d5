/** Guide deadlines on the free-running 32-bit millisecond counter.
    `millis()` and `unsigned long` are 32 bits wide on the controller, so a finish time
    is `now + limit` modulo 2^32 and a timeout is a signed 32-bit difference. The
    wrap-around is written out on a bounded integer type. */
module GuideTiming {

  const Modulus: int := 0x1_0000_0000

  /** An `unsigned long` of the controller: 0 <= x < 2^32. */
  type U32 = x: int | 0 <= x < 0x1_0000_0000

  /** The value a time limit of 0 is replaced by before it is added to the clock. */
  const Unlimited: U32 := 0xFFFF_FFFF

  /** Half of the counter's range: the first value whose `(long)` cast is negative. */
  const HalfRange: U32 := 0x8000_0000

  /** Unsigned 32-bit addition, wrapping. */
  function Add32(a: U32, b: U32): U32
  {
    (a + b) % Modulus
  }

  /** Unsigned 32-bit subtraction, wrapping. */
  function Sub32(a: U32, b: U32): U32
  {
    (a - b) % Modulus
  }

  /** The `(long)` cast of a 32-bit unsigned value: its two's-complement reading. */
  function ToSigned32(x: U32): (v: int)
    ensures -0x8000_0000 <= v < 0x8000_0000
    ensures (x - v) % Modulus == 0
  {
    if x < HalfRange then x else x - Modulus
  }

  /** Finish time of a guide started at `now` with `limit` milliseconds (0 read as "unlimited"). */
  function FinishTime(now: U32, limit: U32): (finish: U32)
    ensures limit != 0 ==> Sub32(finish, now) == limit
    ensures limit == 0 ==> finish == Sub32(now, 1)
  {
    Add32(now, if limit == 0 then Unlimited else limit)
  }

  /** The poll's deadline test `(long)(now - finish) >= 0`. */
  function TimedOut(now: U32, finish: U32): (r: bool)
    ensures r <==> Sub32(now, finish) < HalfRange
  {
    ToSigned32(Sub32(now, finish)) >= 0
  }

  /** For a limit below 2^31 the deadline test fires exactly when the time elapsed since the
      start, read modulo 2^32, lies in [limit, limit + 2^31): it never fires early, and it
      fires for the 2^31 milliseconds after the limit is reached, whatever the start value. */
  lemma TimeoutExact(start: U32, now: U32, limit: U32)
    requires 0 < limit < HalfRange
    ensures TimedOut(now, FinishTime(start, limit)) <==> limit <= Sub32(now, start) < limit + HalfRange
  {
  }

  /** A limit of 0 is not unbounded: the deadline test already holds at the starting
      millisecond and for every elapsed time below 2^31 - 1 milliseconds. */
  lemma UnlimitedTimesOutAtOnce(start: U32, now: U32)
    requires Sub32(now, start) < HalfRange - 1
    ensures TimedOut(now, FinishTime(start, 0))
  {
  }
}
