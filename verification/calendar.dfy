/**
 * `generateCalendar(seed)`: one entry per day of the current month.
 * Saturdays and Sundays carry no P&L (`null`, here `None`), weekdays a draw
 * in [180, 820] seeded by `seed + day`. The clock is a parameter (`Today`),
 * and a day's ISO date string is represented by the date itself.
 */
module Calendar {
  import opened Optional
  import opened Dates
  import opened Deterministic

  /** The year and month the clock reports at generation time. */
  datatype Today = Today(year: int, month: Month)

  datatype CalendarDay = CalendarDay(date: Date, pnl: Option<int>)

  /** `generateCalendar`'s `monthLabel` is a formatting of `year` and `month`. */
  datatype CalendarMonth = CalendarMonth(year: int, month: Month, days: seq<CalendarDay>)

  const WeekdayPnlMin := 180
  const WeekdayPnlMax := 820

  /** `generateWeekdayPnL(seed, index)`. */
  function WeekdayPnL(h: Hash, seed: int, index: int): (p: int)
    ensures WeekdayPnlMin <= p <= WeekdayPnlMax
  {
    DeterministicNumber(h, seed + index, WeekdayPnlMin, WeekdayPnlMax)
  }

  /** Sunday (0) and Saturday (6). */
  predicate IsWeekend(weekday: int) {
    weekday == 0 || weekday == 6
  }

  /**
   * The entry the loop pushes for `day` of the month: dated that day, with
   * no P&L exactly on a weekend, and otherwise the day's draw.
   */
  function DayEntry(h: Hash, seed: int, today: Today, day: int): (e: CalendarDay)
    ensures e.date == Date(today.year, today.month, day)
    ensures e.pnl.None? <==> IsWeekend(DayOfWeek(today.year, today.month, day))
    ensures e.pnl.Some? ==> WeekdayPnlMin <= e.pnl.value <= WeekdayPnlMax
  {
    var date := Date(today.year, today.month, day);
    if IsWeekend(DayOfWeek(today.year, today.month, day)) then CalendarDay(date, None)
    else CalendarDay(date, Some(WeekdayPnL(h, seed, day)))
  }

  /**
   * The calendar: exactly one entry per day 1..daysInMonth, in ascending
   * order; an entry has no P&L iff its day is a Saturday or Sunday, and
   * every present P&L lies in [180, 820].
   */
  function GenerateCalendar(h: Hash, seed: int, today: Today): (c: CalendarMonth)
    ensures c.year == today.year && c.month == today.month
    ensures |c.days| == DaysInMonth(today.year, today.month)
    ensures forall i :: 0 <= i < |c.days| ==> c.days[i].date == Date(today.year, today.month, i + 1)
    ensures forall i :: 0 <= i < |c.days| ==>
              (c.days[i].pnl.None? <==> IsWeekend(DayOfWeek(today.year, today.month, i + 1)))
    ensures forall i :: 0 <= i < |c.days| && c.days[i].pnl.Some? ==>
              WeekdayPnlMin <= c.days[i].pnl.value <= WeekdayPnlMax
  {
    var n := DaysInMonth(today.year, today.month);
    CalendarMonth(today.year, today.month, seq(n, i requires 0 <= i < n => DayEntry(h, seed, today, i + 1)))
  }

  /** Each entry's date is a valid date, and the next entry's date is the day after it. */
  lemma DatesConsecutive(h: Hash, seed: int, today: Today, i: nat)
    requires i + 1 < |GenerateCalendar(h, seed, today).days|
    ensures var days := GenerateCalendar(h, seed, today).days;
            IsValid(days[i].date) && days[i + 1].date == NextDate(days[i].date)
  {
  }

  /** A weekday's P&L is the seeded draw for `seed + day`, so it depends on nothing else. */
  lemma WeekdayPnlIsSeededDraw(h: Hash, seed: int, today: Today, i: nat)
    requires i < |GenerateCalendar(h, seed, today).days|
    requires !IsWeekend(DayOfWeek(today.year, today.month, i + 1))
    ensures GenerateCalendar(h, seed, today).days[i].pnl
            == Some(DeterministicNumber(h, seed + i + 1, 180, 820))
  {
  }

  /** `generateCalendar`'s day loop, building the same calendar day by day. */
  method BuildCalendar(h: Hash, seed: int, today: Today) returns (c: CalendarMonth)
    ensures c == GenerateCalendar(h, seed, today)
  {
    var daysInMonth := DaysInMonth(today.year, today.month);
    var days: seq<CalendarDay> := [];
    var day := 1;
    while day <= daysInMonth
      invariant 1 <= day <= daysInMonth + 1
      invariant days == GenerateCalendar(h, seed, today).days[..day - 1]
    {
      var date := Date(today.year, today.month, day);
      var dayOfWeek := DayOfWeek(today.year, today.month, day);
      if dayOfWeek == 0 || dayOfWeek == 6 {
        days := days + [CalendarDay(date, None)];
        day := day + 1;
        continue;
      }
      var pnl := WeekdayPnL(h, seed, day);
      days := days + [CalendarDay(date, Some(pnl))];
      day := day + 1;
    }
    assert days == GenerateCalendar(h, seed, today).days;
    c := CalendarMonth(today.year, today.month, days);
  }
}
