/** Wall-clock instants. The clock itself is not modelled: every operation that
    reads the current time takes it as a parameter `now`. */
module Clock {

  /** An instant, counted from Go's zero `time.Time{}` (0001-01-01 00:00 UTC). */
  type Time = int

  /** The zero value `time.Time{}`: non-nil, but "not set" for defaulting. */
  const ZeroTime: Time := 0
}
