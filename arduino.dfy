/** Machine-level notions shared by the three sketches: the 32-bit
    millisecond clock and the hardware calls recorded as events. */
module Arduino {

  /** Number of distinct values of a 32-bit `unsigned long`. */
  const Wrap: int := 0x1_0000_0000

  /** An `unsigned long` value, such as a reading of `millis()`. */
  type U32 = x: int | 0 <= x < Wrap

  /** `now - prev` evaluated in `unsigned long` arithmetic: the number of
      milliseconds that take the clock from `prev` forward to `now`,
      counting a wrap past 2^32 - 1. */
  function Elapsed(now: U32, prev: U32): (d: U32)
    ensures (prev + d) % Wrap == now
    ensures d <= now <==> prev <= now
  {
    if prev <= now then now - prev else now + Wrap - prev
  }

  /** Elapsed time is measured correctly across a wrap of the clock: if the
      clock advanced by `d` milliseconds from `prev`, that is what is read. */
  lemma ElapsedAcrossWrap(prev: U32, d: U32)
    ensures Elapsed((prev + d) % Wrap, prev) == d
  {
    if prev + d >= Wrap {
      assert (prev + d) % Wrap == prev + d - Wrap;
    }
  }

  /** The guard `currentMillis - previousMillis >= interval`. */
  predicate Due(now: U32, prev: U32, interval: U32)
  {
    Elapsed(now, prev) >= interval
  }

  /** The hardware calls the sketches make, in the order they make them. */
  datatype Event =
    | AnalogWrite(pin: int, value: int)
    | DigitalWrite(pin: int, high: bool)
    | Delay(ms: int)
}
