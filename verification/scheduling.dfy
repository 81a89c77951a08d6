/** The automation schedule of the job-search configuration: its settings,
    their handlers, and the "next run" time shown for each interval. */
module Scheduling {

  import opened Opt
  import opened Text
  import opened Clock

  datatype Interval = Hourly | Every6Hours | Daily | Custom | OtherInterval(name: String)

  datatype Schedule = Schedule(
    interval: Interval,
    customHours: int,
    startTime: String,
    endTime: String,
    weekdaysOnly: bool,
    maxApplicationsPerDay: int,
    respectRateLimits: bool)

  const InitialSchedule := Schedule(Daily, 24, "09:00", "17:00", true, 10, true)

  // ---------------------------------------------------------------------------
  // Handlers: each one sets its own field

  datatype TimeField = StartTime | EndTime
  datatype Switch = WeekdaysOnly | RespectRateLimits

  function SetInterval(s: Schedule, i: Interval): (r: Schedule)
    ensures r.interval == i && r.(interval := s.interval) == s
  {
    s.(interval := i)
  }

  /** The custom-hours slider; its value arrives already read as a number. */
  function SetCustomHours(s: Schedule, hours: int): (r: Schedule)
    ensures r.customHours == hours && r.(customHours := s.customHours) == s
  {
    s.(customHours := hours)
  }

  function SetTime(s: Schedule, field: TimeField, value: String): (r: Schedule)
    ensures field == StartTime ==> r.startTime == value && r.(startTime := s.startTime) == s
    ensures field == EndTime ==> r.endTime == value && r.(endTime := s.endTime) == s
  {
    match field
    case StartTime => s.(startTime := value)
    case EndTime => s.(endTime := value)
  }

  function SwitchValue(s: Schedule, field: Switch): bool {
    match field
    case WeekdaysOnly => s.weekdaysOnly
    case RespectRateLimits => s.respectRateLimits
  }

  /** Flips the named switch and nothing else. */
  function FlipSwitch(s: Schedule, field: Switch): (r: Schedule)
    ensures SwitchValue(r, field) == !SwitchValue(s, field)
    ensures field == WeekdaysOnly ==> r.(weekdaysOnly := s.weekdaysOnly) == s
    ensures field == RespectRateLimits ==> r.(respectRateLimits := s.respectRateLimits) == s
  {
    match field
    case WeekdaysOnly => s.(weekdaysOnly := !s.weekdaysOnly)
    case RespectRateLimits => s.(respectRateLimits := !s.respectRateLimits)
  }

  lemma FlipSwitchTwice(s: Schedule, field: Switch)
    ensures FlipSwitch(FlipSwitch(s, field), field) == s
  {}

  function SetMaxApplications(s: Schedule, n: int): (r: Schedule)
    ensures r.maxApplicationsPerDay == n && r.(maxApplicationsPerDay := s.maxApplicationsPerDay) == s
  {
    s.(maxApplicationsPerDay := n)
  }

  // ---------------------------------------------------------------------------
  // The start time

  /** `const [h, m] = t.split(':')` followed by `parseInt` of each part; a part
      that is missing or does not start with a digit gives `None`. */
  function ParseTime(t: String): (r: Option<(nat, nat)>)
    ensures r.Some? ==> |Split(t, ':')| >= 2
  {
    var parts := Split(t, ':');
    if |parts| < 2 then None
    else match (ParseLeadingNat(parts[0]), ParseLeadingNat(parts[1]))
      case (Some(h), Some(m)) => Some((h, m))
      case _ => None
  }

  /** Two decimal digits, as a time input writes hours and minutes. */
  function TwoDigits(n: nat): (r: String)
    requires n < 100
    ensures |r| == 2 && AllDigits(r)
  {
    [DigitChar(n / 10), DigitChar(n % 10)]
  }

  lemma TwoDigitsValue(n: nat)
    requires n < 100
    ensures DigitsValue(TwoDigits(n)) == n
  {
    var r := TwoDigits(n);
    assert r[..1] == [DigitChar(n / 10)];
    assert DigitsValue(r[..1]) == n / 10;
  }

  /** Every "HH:MM" a time input produces reads back as its hour and minute. */
  lemma ParseTimeOfTimeInput(h: nat, m: nat)
    requires h < 24 && m < 60
    ensures ParseTime(TwoDigits(h) + ":" + TwoDigits(m)) == Some((h, m))
  {
    var a, b := TwoDigits(h), TwoDigits(m);
    assert ':' !in a && ':' !in b;
    SplitAfterPiece(a, ':', b);
    SplitNoSeparator(b, ':');
    assert TwoDigits(h) + ":" + TwoDigits(m) == a + [':'] + b;
    TwoDigitsValue(h);
    TwoDigitsValue(m);
  }

  // ---------------------------------------------------------------------------
  // The next run

  /** The 6-hourly next run as the component computes it: the hour rounded up
      to a multiple of 6, and past 23 hours tomorrow's midnight, after which a
      further day is added. */
  function Every6HoursAsWritten(now: int): (r: int)
    ensures StartOfDay(now) <= r <= StartOfDay(now) + 2 * DayMs
  {
    var h := HourOf(now);
    var next6 := (h + 5) / 6 * 6;
    var run := SetHours(now, next6, 0);
    if next6 >= 24 then SetHours(AddDays(run, 1), 0, 0) else run
  }

  /** At 06:30 the 6-hourly "next run" is 06:00 of the same day: on an hour
      that is a multiple of 6 the run shown is not after now. */
  lemma Every6HoursAsWrittenInThePast(now: int)
    requires HourOf(now) % 6 == 0
    ensures Every6HoursAsWritten(now) <= now
    ensures now % HourMs != 0 ==> Every6HoursAsWritten(now) < now
  {}

  /** From 19:00 on, the 6-hourly "next run" is the midnight after tomorrow. */
  lemma Every6HoursAsWrittenSkipsADay(now: int)
    requires HourOf(now) >= 19
    ensures Every6HoursAsWritten(now) == StartOfDay(now) + 2 * DayMs
    ensures Every6HoursAsWritten(now) > now + 24 * HourMs
  {
    var run := SetHours(now, 24, 0);
    assert run == StartOfDay(now) + DayMs;
    StartOfMidnight(AddDays(run, 1));
  }

  /** The arithmetic behind the corrected 6-hourly run: the next mark lies
      within the coming six hours and is a whole number of six-hour steps. */
  lemma SixHourMarkArithmetic(now: int)
    ensures var r := SetHours(now, (HourOf(now) / 6 + 1) * 6, 0);
            now < r <= now + 6 * HourMs && r % (6 * HourMs) == 0
  {
    var s := StartOfDay(now);
    var h := HourOf(now);
    var k := h / 6 + 1;
    var r := SetHours(now, k * 6, 0);
    assert r == s + k * (6 * HourMs);
    assert h + 1 <= k * 6 <= h + 6;
    var days := s / DayMs;
    assert s == days * DayMs;
    assert r == (days * 4 + k) * (6 * HourMs);
  }

  /** The next multiple of 6 hours strictly after now. */
  function NextSixHourMark(now: int): (r: int)
    ensures now < r <= now + 6 * HourMs
    ensures r % (6 * HourMs) == 0
  {
    SixHourMarkArithmetic(now);
    SetHours(now, (HourOf(now) / 6 + 1) * 6, 0)
  }

  /** The corrected 6-hourly run lands on 00:00, 06:00, 12:00 or 18:00. */
  lemma NextSixHourMarkHours(now: int)
    ensures HourOf(NextSixHourMark(now)) in {0, 6, 12, 18}
  {
    var r := NextSixHourMark(now);
    var k := HourOf(now) / 6 + 1;
    assert r == StartOfDay(now) + (6 * k) * HourMs;
    if k == 4 {
      StartOfMidnight(r);
      HourOfDayOffset(r, 0);
    } else {
      HourOfDayOffset(now, 6 * k);
    }
  }

  /** The time the schedule runs next as the component computes it, with
      the 6-hourly branch as written; `None` when the start time cannot be
      read (the component then shows an invalid date). */
  function NextRunAsWritten(s: Schedule, now: int): (r: Option<int>)
    ensures s.interval == Every6Hours ==> r == Some(Every6HoursAsWritten(now))
    ensures s.interval != Every6Hours ==> r == NextRun(s, now)
  {
    if s.interval == Every6Hours then Some(Every6HoursAsWritten(now)) else NextRun(s, now)
  }

  /** As written, the 6-hourly run can fall outside the coming six hours
      while every other interval is computed as in the corrected version. */
  lemma NextRunAsWrittenDiffers(s: Schedule, now: int)
    requires s.interval == Every6Hours && HourOf(now) >= 19
    ensures NextRunAsWritten(s, now).value > now + 6 * HourMs
    ensures NextRunAsWritten(s, now) != NextRun(s, now)
  {
    Every6HoursAsWrittenSkipsADay(now);
  }

  /** The time the schedule runs next, with the 6-hourly branch corrected to
      the next six-hour mark; `None` when the start time cannot be read (the
      component then shows an invalid date). An unknown interval shows the
      current time. */
  function NextRun(s: Schedule, now: int): (r: Option<int>)
    ensures s.interval == Hourly ==> r.Some? && now < r.value <= now + HourMs
    ensures s.interval == Every6Hours ==> r.Some? && now < r.value <= now + 6 * HourMs
    ensures s.interval == Daily ==> (r.Some? <==> ParseTime(s.startTime).Some?)
    ensures s.interval == Daily && r.Some? ==> r.value > now
    ensures s.interval == Custom ==> r.Some? && r.value - StartOfDay(now) == (HourOf(now) + s.customHours) * HourMs
    ensures s.interval.OtherInterval? ==> r == Some(now)
  {
    match s.interval
    case Hourly => Some(SetHours(now, HourOf(now) + 1, 0))
    case Every6Hours => Some(NextSixHourMark(now))
    case Daily =>
      (match ParseTime(s.startTime)
       case None => None
       case Some((h, m)) =>
         var run := SetHours(now, h, m);
         assert now - DayMs < StartOfDay(now) <= run;
         Some(if run <= now then AddDays(run, 1) else run))
    case Custom => Some(SetHours(now, HourOf(now) + s.customHours, 0))
    case OtherInterval(_) => Some(now)
  }

  /** A daily run at a valid time of day is within the coming 24 hours, on
      the day's start time. */
  lemma DailyWithinADay(s: Schedule, now: int, h: nat, m: nat)
    requires s.interval == Daily && ParseTime(s.startTime) == Some((h, m))
    requires h < 24 && m < 60
    ensures NextRun(s, now).Some?
    ensures now < NextRun(s, now).value <= now + DayMs
    ensures NextRun(s, now).value - StartOfDay(NextRun(s, now).value) == h * HourMs + m * MinuteMs
  {
    var run := SetHours(now, h, m);
    TimeOfDayBound(h, m);
    SameDay(now, run);
    if run <= now {
      var next := AddDays(run, 1);
      assert NextRun(s, now) == Some(next);
    } else {
      assert NextRun(s, now) == Some(run);
    }
  }

  /** A custom interval of at least one hour runs after now, and no later
      than that many hours from now. */
  lemma CustomWithinInterval(s: Schedule, now: int)
    requires s.interval == Custom && s.customHours >= 1
    ensures now < NextRun(s, now).value <= now + s.customHours * HourMs
  {}
}
