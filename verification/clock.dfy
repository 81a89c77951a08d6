/** Wall-clock arithmetic on timestamps: milliseconds of local time, with
    every day exactly 24 hours long. */
module Clock {

  const MinuteMs := 60 * 1000
  const HourMs := 60 * MinuteMs
  const DayMs := 24 * HourMs

  /** Midnight at the start of the day holding `t`. */
  function StartOfDay(t: int): (r: int)
    ensures r <= t < r + DayMs
    ensures r % DayMs == 0
  {
    t - t % DayMs
  }

  /** `getHours()`. */
  function HourOf(t: int): (h: int)
    ensures 0 <= h < 24
    ensures StartOfDay(t) + h * HourMs <= t < StartOfDay(t) + (h + 1) * HourMs
  {
    (t % DayMs) / HourMs
  }

  /** `setHours(h, m, 0, 0)` on the date `t`: the same day at `h:m`, hours
      and minutes past the end of the day carried into the following days. */
  function SetHours(t: int, h: int, m: int): (r: int)
    ensures r - StartOfDay(t) == h * HourMs + m * MinuteMs
  {
    StartOfDay(t) + h * HourMs + m * MinuteMs
  }

  /** `setDate(getDate() + n)`: the same time of day, `n` days later. */
  function AddDays(t: int, n: int): (r: int)
    ensures r - t == n * DayMs
    ensures StartOfDay(r) == StartOfDay(t) + n * DayMs
  {
    t + n * DayMs
  }

  /** Every instant of the day starting at `StartOfDay(t)` has that start. */
  lemma SameDay(t: int, u: int)
    requires StartOfDay(t) <= u < StartOfDay(t) + DayMs
    ensures StartOfDay(u) == StartOfDay(t)
  {
    var q := StartOfDay(t) / DayMs;
    assert StartOfDay(t) == q * DayMs;
    var r := u - q * DayMs;
    assert u == q * DayMs + r && 0 <= r < DayMs;
    assert u / DayMs == q && u % DayMs == r;
  }

  /** A valid hour and minute fall inside one day. */
  lemma TimeOfDayBound(h: int, m: int)
    requires 0 <= h < 24 && 0 <= m < 60
    ensures 0 <= h * HourMs + m * MinuteMs < DayMs
  {
    assert h * HourMs <= 23 * HourMs && m * MinuteMs <= 59 * MinuteMs;
  }

  /** `h` hours after a day's start, the hour of the day is `h`. */
  lemma HourOfDayOffset(t: int, h: int)
    requires 0 <= h < 24
    ensures HourOf(StartOfDay(t) + h * HourMs) == h
  {
    var u := StartOfDay(t) + h * HourMs;
    SameDay(t, u);
    assert u % DayMs == h * HourMs;
  }

  /** A midnight is its own start of day. */
  lemma StartOfMidnight(t: int)
    requires t % DayMs == 0
    ensures StartOfDay(t) == t
  {}
}
