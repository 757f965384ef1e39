/** Instants and durations as the Go runtime represents them: nanoseconds, with 64-bit durations. */
module GoTime {
  const SECOND: int := 1_000_000_000
  const MINUTE: int := 60 * SECOND
  const HOUR: int := 60 * MINUTE
  const DAY: int := 24 * HOUR

  const TWO_63: int := 0x8000_0000_0000_0000
  const TWO_64: int := 0x1_0000_0000_0000_0000
  const MAX_DURATION: int := TWO_63 - 1

  lemma Units()
    ensures SECOND == 1_000_000_000 && MINUTE == 60_000_000_000 && HOUR == 3_600_000_000_000 && DAY == 86_400_000_000_000
    ensures MAX_DURATION == 9_223_372_036_854_775_807
  {
  }

  /** Two's-complement wrap-around of a product that is stored in a `time.Duration`. */
  function Wrap64(x: int): (r: int)
    ensures -TWO_63 <= r <= MAX_DURATION
    ensures (r - x) % TWO_64 == 0
  {
    (x + TWO_63) % TWO_64 - TWO_63
  }

  function Max(a: int, b: int): int {
    if a < b then b else a
  }
}
