/** The 32-bit millisecond clock and its deadlines. */
module Clock {
  import opened Bytes

  /** `ms` milliseconds after `now`. */
  function Later(now: u32, ms: nat): u32
  {
    (now + ms) % (U32_MAX + 1)
  }

  /** `(int32_t)(now - deadline) >= 0`. */
  predicate Due(now: u32, deadline: u32)
  {
    (now - deadline) % (U32_MAX + 1) <= 0x7FFF_FFFF
  }
}
