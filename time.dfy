/** Time as integer milliseconds since the Unix epoch, the value of
    `Date.prototype.getTime()`. Local time is UTC shifted by a fixed
    offset `offsetMs` (positive east of Greenwich); daylight-saving
    changes are not part of the model. */
module Time {

  const DayMs: int := 86400000

  /** The UTC calendar day of an instant, counted from 1970-01-01: what
      the `YYYY-MM-DD` prefix of `toISOString()` denotes. */
  function UtcDay(t: int): int
  {
    t / DayMs
  }

  /** `d.setHours(0, 0, 0, 0)` on a date holding instant `t`: the local
      midnight that starts `t`'s local day. */
  function LocalMidnight(t: int, offsetMs: int): (m: int)
    ensures m <= t < m + DayMs
    ensures (m + offsetMs) % DayMs == 0
  {
    t - (t + offsetMs) % DayMs
  }

  /** `d.setHours(23, 59, 59, 999)`: the last millisecond of `t`'s local day. */
  function LocalEndOfDay(t: int, offsetMs: int): (e: int)
    ensures t <= e < t + DayMs
    ensures (e + 1 + offsetMs) % DayMs == 0
  {
    LocalMidnight(t, offsetMs) + DayMs - 1
  }

  /** Moving an instant by whole days moves its local midnight by the same. */
  lemma LocalMidnightShift(t: int, offsetMs: int, days: int)
    ensures LocalMidnight(t + days * DayMs, offsetMs) == LocalMidnight(t, offsetMs) + days * DayMs
  {
    var r := (t + offsetMs) % DayMs;
    var q := (t + offsetMs) / DayMs;
    assert t + offsetMs == q * DayMs + r;
    assert t + days * DayMs + offsetMs == (q + days) * DayMs + r;
    assert (t + days * DayMs + offsetMs) % DayMs == r;
  }
}
