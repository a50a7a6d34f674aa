/**
 * `summarizeWeeks(calendar)`: the weekly roll-up of a calendar. The days
 * are cut into consecutive slices of 7 starting at day 1 of the month (not
 * at week-of-year boundaries); each slice becomes "Week k" with the sum of
 * its present P&L values and twice the number of its trading days.
 */
module Weekly {
  import opened Optional
  import opened Dates
  import opened Calendar
  import opened WeekSlices
  import Decimal

  /** `summarizeWeeks`'s range string is a formatting of its first and last date. */
  datatype DateRange = DateRange(first: Date, last: Date)

  datatype WeeklySummary = WeeklySummary(weekLabel: string, range: DateRange, pnl: int, trades: nat)

  /** `slice.reduce((acc, day) => (day.pnl ?? 0) + acc, 0)`. */
  function SumPnl(days: seq<CalendarDay>): int {
    if |days| == 0 then 0 else days[|days| - 1].pnl.GetOr(0) + SumPnl(days[..|days| - 1])
  }

  /**
   * When every present value is a weekday draw in [180, 820], the reduce
   * lies between 180 and 820 times the number of trading days.
   */
  lemma {:induction false} SumPnlBounds(days: seq<CalendarDay>)
    requires DrawsInRange(days)
    ensures WeekdayPnlMin * |Present(days)| <= SumPnl(days) <= WeekdayPnlMax * |Present(days)|
  {
    if |days| > 0 {
      var init := days[..|days| - 1];
      assert DrawsInRange(init) by {
        forall i | 0 <= i < |init| && init[i].pnl.Some?
          ensures WeekdayPnlMin <= init[i].pnl.value <= WeekdayPnlMax
        {
          assert init[i] == days[i];
        }
      }
      SumPnlBounds(init);
    }
  }

  /** The present P&L values, in order: `filter((d) => typeof d.pnl === "number")`. */
  function Present(days: seq<CalendarDay>): (xs: seq<int>)
    ensures |xs| <= |days|
  {
    if |days| == 0 then []
    else
      var rest := Present(days[..|days| - 1]);
      match days[|days| - 1].pnl
      case Some(v) => rest + [v]
      case None => rest
  }

  /** Every present P&L value lies in the weekday draw's range. */
  predicate DrawsInRange(days: seq<CalendarDay>) {
    forall i :: 0 <= i < |days| && days[i].pnl.Some? ==>
      WeekdayPnlMin <= days[i].pnl.value <= WeekdayPnlMax
  }

  function Sum(xs: seq<int>): int {
    if |xs| == 0 then 0 else Sum(xs[..|xs| - 1]) + xs[|xs| - 1]
  }

  /** `Week ${weekIndex + 1}`. */
  function WeekLabel(weekNumber: nat): string {
    "Week " + Decimal.NatToString(weekNumber)
  }

  /** A week label reads back: the word, a space, and digits that parse to the week number. */
  lemma WeekLabelParses(weekNumber: nat)
    ensures var s := WeekLabel(weekNumber);
            && |s| > 5 && s[..5] == "Week "
            && Decimal.AllDigits(s[5..]) && Decimal.ParseNat(s[5..]) == weekNumber
  {
    var digits := Decimal.NatToString(weekNumber);
    assert ("Week " + digits)[5..] == digits;
    Decimal.NatRoundTrip(weekNumber);
  }

  /**
   * One summary for a non-empty slice; `weekIndex` counts from 0. The P&L
   * is the sum of the present values alone, and the trade count is even and
   * at most two per day.
   */
  function Summarize(slice: seq<CalendarDay>, weekIndex: nat): (w: WeeklySummary)
    requires |slice| > 0
    ensures w.weekLabel == WeekLabel(weekIndex + 1)
    ensures w.range == DateRange(slice[0].date, slice[|slice| - 1].date)
    ensures w.pnl == Sum(Present(slice))
    ensures w.trades % 2 == 0 && w.trades <= 2 * |slice|
  {
    NullsAddNothing(slice);
    WeeklySummary(
      WeekLabel(weekIndex + 1),
      DateRange(slice[0].date, slice[|slice| - 1].date),
      SumPnl(slice),
      2 * |Present(slice)|)
  }

  /** The weekly summaries: one per slice of 7 days, ceil(n/7) in all. */
  function WeeklySummaries(days: seq<CalendarDay>): (ws: seq<WeeklySummary>)
    ensures |ws| == SliceCount(|days|)
    ensures |days| == 0 <==> |ws| == 0
  {
    seq(SliceCount(|days|), i requires 0 <= i < SliceCount(|days|) => Summarize(Slice(days, i), i))
  }

  /**
   * Summary i is labelled "Week i+1" and covers days [7i, 7i+7): its range
   * runs from that slice's first to its last date, its P&L is the slice's
   * sum with absent values counted as 0, and its trade count is twice the
   * slice's number of present values, hence even and at most 14.
   */
  lemma SummaryOfSlice(days: seq<CalendarDay>, i: nat)
    requires i < SliceCount(|days|)
    ensures var ws := WeeklySummaries(days);
            var lo, hi := 7 * i, Min(7 * i + 7, |days|);
            && lo < hi <= |days|
            && ws[i].weekLabel == "Week " + Decimal.NatToString(i + 1)
            && ws[i].range == DateRange(days[lo].date, days[hi - 1].date)
            && ws[i].pnl == SumPnl(days[lo..hi])
            && ws[i].trades == 2 * |Present(days[lo..hi])|
            && ws[i].trades % 2 == 0
            && ws[i].trades <= 2 * SliceLength
  {
    var slice := Slice(days, i);
    assert slice == days[7 * i .. Min(7 * i + 7, |days|)];
  }

  /** Absent P&L adds nothing: the reduce with `?? 0` is the sum of the present values. */
  lemma {:induction false} NullsAddNothing(days: seq<CalendarDay>)
    ensures SumPnl(days) == Sum(Present(days))
  {
    if |days| > 0 {
      NullsAddNothing(days[..|days| - 1]);
      var rest := Present(days[..|days| - 1]);
      match days[|days| - 1].pnl
      case Some(v) =>
        assert (rest + [v])[..|rest + [v]| - 1] == rest;
      case None =>
    }
  }

  lemma {:induction false} SumPnlAppend(a: seq<CalendarDay>, b: seq<CalendarDay>)
    ensures SumPnl(a + b) == SumPnl(a) + SumPnl(b)
    decreases |b|
  {
    if |b| > 0 {
      assert (a + b)[..|a + b| - 1] == a + b[..|b| - 1];
      SumPnlAppend(a, b[..|b| - 1]);
    } else {
      assert a + b == a;
    }
  }

  function TotalPnl(ws: seq<WeeklySummary>): int {
    if |ws| == 0 then 0 else TotalPnl(ws[..|ws| - 1]) + ws[|ws| - 1].pnl
  }

  lemma {:induction false} TotalPnlPrefix(days: seq<CalendarDay>, k: nat)
    requires k <= SliceCount(|days|)
    ensures TotalPnl(WeeklySummaries(days)[..k]) == SumPnl(days[..Min(7 * k, |days|)])
  {
    if k > 0 {
      var ws := WeeklySummaries(days);
      var lo, hi := 7 * (k - 1), Min(7 * k, |days|);
      TotalPnlPrefix(days, k - 1);
      assert Min(7 * (k - 1), |days|) == lo;
      TotalPnlStep(ws, k);
      SlicePnl(days, k - 1);
      assert 7 * (k - 1) + 7 == 7 * k;
      SplitSum(days, lo, hi);
      assert TotalPnl(ws[..k]) == SumPnl(days[..lo]) + SumPnl(days[lo..hi]);
    }
  }

  lemma TotalPnlStep(ws: seq<WeeklySummary>, k: nat)
    requires 0 < k <= |ws|
    ensures TotalPnl(ws[..k]) == TotalPnl(ws[..k - 1]) + ws[k - 1].pnl
  {
    assert ws[..k][..k - 1] == ws[..k - 1];
  }

  lemma SlicePnl(days: seq<CalendarDay>, i: nat)
    requires i < SliceCount(|days|)
    ensures WeeklySummaries(days)[i].pnl == SumPnl(days[7 * i .. Min(7 * i + 7, |days|)])
  {
    assert Slice(days, i) == days[7 * i .. Min(7 * i + 7, |days|)];
  }

  lemma SplitSum(days: seq<CalendarDay>, lo: nat, hi: nat)
    requires lo <= hi <= |days|
    ensures SumPnl(days[..hi]) == SumPnl(days[..lo]) + SumPnl(days[lo..hi])
  {
    assert days[..hi] == days[..lo] + days[lo..hi];
    SumPnlAppend(days[..lo], days[lo..hi]);
  }

  /** The weekly P&L values add up to the month's total P&L. */
  lemma WeeklyTotalIsMonthTotal(days: seq<CalendarDay>)
    ensures TotalPnl(WeeklySummaries(days)) == SumPnl(days)
  {
    var ws := WeeklySummaries(days);
    TotalPnlPrefix(days, |ws|);
    assert ws[..|ws|] == ws;
    assert days[..Min(7 * |ws|, |days|)] == days;
  }

  function TradingDay(d: CalendarDay): nat {
    if d.pnl.Some? then 1 else 0
  }

  lemma PresentStep(s: seq<CalendarDay>, k: nat)
    requires 0 < k <= |s|
    ensures |Present(s[..k])| == |Present(s[..k - 1])| + TradingDay(s[k - 1])
  {
    assert s[..k][..k - 1] == s[..k - 1];
  }

  lemma PresentOfSeven(s: seq<CalendarDay>)
    requires |s| == 7
    ensures |Present(s)| == TradingDay(s[0]) + TradingDay(s[1]) + TradingDay(s[2]) + TradingDay(s[3])
                            + TradingDay(s[4]) + TradingDay(s[5]) + TradingDay(s[6])
  {
    PresentStep(s, 7);
    PresentStep(s, 6);
    PresentStep(s, 5);
    PresentStep(s, 4);
    PresentStep(s, 3);
    PresentStep(s, 2);
    PresentStep(s, 1);
    assert s[..7] == s;
  }

  /** Seven days whose weekdays run on from `w` hold exactly five weekdays. */
  lemma FiveWeekdaysInSeven(s: seq<CalendarDay>, w: int)
    requires |s| == 7 && 0 <= w < 7
    requires forall k :: 0 <= k < 7 ==> (s[k].pnl.None? <==> IsWeekend((w + k) % 7))
    ensures |Present(s)| == 5
  {
    PresentOfSeven(s);
    assert s[0].pnl.None? <==> IsWeekend(w % 7);
    assert s[1].pnl.None? <==> IsWeekend((w + 1) % 7);
    assert s[2].pnl.None? <==> IsWeekend((w + 2) % 7);
    assert s[3].pnl.None? <==> IsWeekend((w + 3) % 7);
    assert s[4].pnl.None? <==> IsWeekend((w + 4) % 7);
    assert s[5].pnl.None? <==> IsWeekend((w + 5) % 7);
    assert s[6].pnl.None? <==> IsWeekend((w + 6) % 7);
  }

  /**
   * In a generated calendar every full slice of seven consecutive days
   * holds one Saturday and one Sunday, so its summary counts exactly
   * 2 × 5 = 10 trades; a short last slice counts at most two per day.
   */
  lemma FullWeekHasTenTrades(h: Deterministic.Hash, seed: int, today: Today, i: nat)
    requires 7 * i + 7 <= |GenerateCalendar(h, seed, today).days|
    ensures var days := GenerateCalendar(h, seed, today).days;
            i < |WeeklySummaries(days)| && WeeklySummaries(days)[i].trades == 10
  {
    var days := GenerateCalendar(h, seed, today).days;
    var slice := days[7 * i .. 7 * i + 7];
    var w := DayOfWeek(today.year, today.month, 7 * i + 1);
    SliceWeekdays(h, seed, today, i, slice, w);
    FiveWeekdaysInSeven(slice, w);
    SummaryOfSlice(days, i);
  }

  lemma SliceWeekdays(h: Deterministic.Hash, seed: int, today: Today, i: nat, slice: seq<CalendarDay>, w: int)
    requires 7 * i + 7 <= |GenerateCalendar(h, seed, today).days|
    requires slice == GenerateCalendar(h, seed, today).days[7 * i .. 7 * i + 7]
    requires w == DayOfWeek(today.year, today.month, 7 * i + 1)
    ensures forall k :: 0 <= k < 7 ==> (slice[k].pnl.None? <==> IsWeekend((w + k) % 7))
  {
    forall k | 0 <= k < 7
      ensures slice[k].pnl.None? <==> IsWeekend((w + k) % 7)
    {
      WeekendEntry(h, seed, today, 7 * i + k);
      WeekdayShift(today.year, today.month, 7 * i + 1, k);
    }
  }

  lemma WeekendEntry(h: Deterministic.Hash, seed: int, today: Today, j: nat)
    requires j < |GenerateCalendar(h, seed, today).days|
    ensures GenerateCalendar(h, seed, today).days[j].pnl.None?
            <==> IsWeekend(DayOfWeek(today.year, today.month, j + 1))
  {
  }

  /** Day `d + k` of a month falls `k` weekdays after day `d`. */
  lemma WeekdayShift(year: int, month: Month, d: int, k: nat)
    ensures DayOfWeek(year, month, d + k) == (DayOfWeek(year, month, d) + k) % 7
  {
  }

  /** Every full week of a generated calendar reports ten trades; only a short last week can report fewer. */
  lemma AllFullWeeksHaveTenTrades(h: Deterministic.Hash, seed: int, today: Today)
    ensures var days := GenerateCalendar(h, seed, today).days;
            var ws := WeeklySummaries(days);
            forall i :: 0 <= i < |ws| && 7 * i + 7 <= |days| ==> ws[i].trades == 10
  {
    var days := GenerateCalendar(h, seed, today).days;
    forall i: nat | 7 * i + 7 <= |days| {
      FullWeekHasTenTrades(h, seed, today, i);
    }
  }

  /**
   * Each week of a generated calendar earns between 180 and 820 per trading
   * day, i.e. between 90 and 410 per reported trade.
   */
  lemma WeekPnlWithinDraws(h: Deterministic.Hash, seed: int, today: Today, i: nat)
    requires i < SliceCount(|GenerateCalendar(h, seed, today).days|)
    ensures var w := WeeklySummaries(GenerateCalendar(h, seed, today).days)[i];
            90 * w.trades <= w.pnl <= 410 * w.trades
  {
    var days := GenerateCalendar(h, seed, today).days;
    SummaryOfSlice(days, i);
    var slice := days[7 * i .. Min(7 * i + 7, |days|)];
    assert DrawsInRange(slice) by {
      forall k | 0 <= k < |slice| && slice[k].pnl.Some?
        ensures WeekdayPnlMin <= slice[k].pnl.value <= WeekdayPnlMax
      {
        assert slice[k] == days[7 * i + k];
      }
    }
    SumPnlBounds(slice);
  }

  /** Appending the summary of the next slice extends the prefix of summaries by one. */
  lemma ExtendSummaries(days: seq<CalendarDay>, k: nat, prefix: seq<WeeklySummary>, next: WeeklySummary)
    requires k < SliceCount(|days|)
    requires prefix == WeeklySummaries(days)[..k]
    requires var slice := days[7 * k .. Min(7 * k + 7, |days|)];
             next == WeeklySummary(WeekLabel(k + 1), DateRange(slice[0].date, slice[|slice| - 1].date),
                                   SumPnl(slice), |Present(slice)| * 2)
    ensures prefix + [next] == WeeklySummaries(days)[..k + 1]
  {
    var ws := WeeklySummaries(days);
    SummaryAt(days, k);
    PrefixStep(ws, k);
  }

  lemma SummaryAt(days: seq<CalendarDay>, k: nat)
    requires k < SliceCount(|days|)
    ensures var slice := days[7 * k .. Min(7 * k + 7, |days|)];
            WeeklySummaries(days)[k]
            == WeeklySummary(WeekLabel(k + 1), DateRange(slice[0].date, slice[|slice| - 1].date),
                             SumPnl(slice), |Present(slice)| * 2)
  {
    assert Slice(days, k) == days[7 * k .. Min(7 * k + 7, |days|)];
  }

  lemma PrefixStep<T>(s: seq<T>, k: nat)
    requires k < |s|
    ensures s[..k + 1] == s[..k] + [s[k]]
  {
  }

  /** `summarizeWeeks`'s loop, walking a cursor over the days in steps of 7. */
  method SummarizeWeeks(calendar: CalendarMonth) returns (summaries: seq<WeeklySummary>)
    ensures summaries == WeeklySummaries(calendar.days)
  {
    var days := calendar.days;
    summaries := [];
    var weekIndex: nat := 0;
    var cursor := 0;
    while cursor < |days|
      invariant cursor == 7 * weekIndex
      invariant weekIndex <= SliceCount(|days|)
      invariant cursor < |days| ==> weekIndex < SliceCount(|days|)
      invariant summaries == WeeklySummaries(days)[..weekIndex]
    {
      var slice := days[cursor .. Min(cursor + 7, |days|)];
      // Every day carries a date, so the first and last dated days of the
      // slice are its first and last days, and `summarizeWeeks`'s guard holds.
      if |slice| > 0 {
        var range := DateRange(slice[0].date, slice[|slice| - 1].date);
        var pnl := SumPnl(slice);
        var trades := |Present(slice)| * 2;
        var summary := WeeklySummary(WeekLabel(weekIndex + 1), range, pnl, trades);
        ExtendSummaries(days, weekIndex, summaries, summary);
        summaries := summaries + [summary];
      }
      weekIndex := weekIndex + 1;
      cursor := cursor + 7;
    }
    assert WeeklySummaries(days)[..weekIndex] == WeeklySummaries(days);
  }
}
