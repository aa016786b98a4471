/** Instants are integer milliseconds since the epoch, as `Date.getTime()` gives them. */
module Time {

  /** `1000 * 3600 * 24`: one day. Day steps made with `setDate` are taken as exactly
      this long (daylight-saving shifts are not modelled). */
  const DayMs: int := 1000 * 3600 * 24

  /** `Math.ceil(ms / DayMs)` computed exactly on integers: the least whole number of days
      that covers `ms`. */
  function CeilDays(ms: int): (d: int)
    ensures DayMs * (d - 1) < ms <= DayMs * d
  {
    (ms + DayMs - 1) / DayMs
  }

  /** Midnight UTC of the civil date that is `daysSinceEpoch` days after 1970-01-01: what
      `new Date(year, monthIndex, day)` gives when the browser's time zone is UTC. */
  function MidnightUtc(daysSinceEpoch: int): int {
    daysSinceEpoch * DayMs
  }
}
