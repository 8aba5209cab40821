/**
 * Dates and instants. A calendar date ("2024-06-01") is a day number; an
 * instant (`new Date()`, an ISO timestamp) is a count of milliseconds on the
 * same time line, so that day `d` starts at instant `d * MsPerDay`.
 * `new Date("2024-06-01")` is that midnight; "tomorrow" is `today + 1`.
 */
module Clock {

  const MsPerDay: int := 86400000

  /** The day an instant falls on (`toISOString().split("T")[0]`). */
  function DayOf(instant: int): int
  {
    instant / MsPerDay
  }

  /** The instant a date-only string denotes: the midnight that starts the day. */
  function Midnight(day: int): int
  {
    day * MsPerDay
  }

  /**
   * `new Date(date) >= new Date()` compares a midnight with the current
   * instant: a later day always passes, an earlier day never does, and the
   * current day only at the very first millisecond of it.
   */
  lemma MidnightNotBefore(day: int, now: int)
    ensures Midnight(day) >= now <==> day > DayOf(now) || (day == DayOf(now) && now % MsPerDay == 0)
  {
    var d, m := now / MsPerDay, now % MsPerDay;
    assert now == d * MsPerDay + m && 0 <= m < MsPerDay;
    if day > d {
      assert day * MsPerDay >= (d + 1) * MsPerDay;
    } else if day < d {
      assert day * MsPerDay <= (d - 1) * MsPerDay;
    }
  }

  lemma MidnightNotBeforeAll(now: int)
    ensures forall day :: Midnight(day) >= now <==> day > DayOf(now) || (day == DayOf(now) && now % MsPerDay == 0)
  {
    forall day: int
      ensures Midnight(day) >= now <==> day > DayOf(now) || (day == DayOf(now) && now % MsPerDay == 0)
    {
      MidnightNotBefore(day, now);
    }
  }
}
