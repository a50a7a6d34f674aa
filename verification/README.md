# Velocity CRM metrics generator: a Dafny model

This project models the computational core of the Velocity CRM trader dashboard in Dafny 4.11. That core is the deterministic mock-metrics generator, `src/data/mockMetrics.ts`. Given an account's integer seed, the generator builds:

- a calendar of daily P&L for the current month, with no P&L on weekends;
- a roll-up of that calendar into consecutive 7-day slices;
- overview and objective figures that are linear in the seed or drawn from a seeded hash;
- a lookup by account id that falls back to the default account `acc-50k-starter-phase1`.

The model also covers the small pure computations inside a few components:

- the long/short clamp and the Bull/Bear label of the behavioural-bias card;
- the win/loss percentage split of the most-traded-instruments bar;
- the win-rate clamp of the profitability gauge;
- the empty-field validation of the login form.

Modules, one per concern:

| file | module | models |
|---|---|---|
| optional.dfy | `Optional` | `T \| null` values and the `??` operator |
| js_math.dfy | `JsMath` | `Math.round` and JavaScript's truncating `%` |
| deterministic.dfy | `Deterministic` | `deterministicNumber`, with the trigonometric hash as a parameter |
| dates.dfy | `Dates` | month lengths and `getDay()` in the proleptic Gregorian calendar |
| decimal.dfy | `Decimal` | decimal rendering of integers as in `Week ${n}` and `t1-${seed}`, for the small numbers those templates receive |
| week_slices.dfy | `WeekSlices` | `days.slice(cursor, cursor + 7)` with the cursor stepping by 7 |
| calendar.dfy | `Calendar` | `generateWeekdayPnL`, `generateCalendar` |
| weekly.dfy | `Weekly` | `summarizeWeeks` |
| base_metrics.dfy | `BaseMetrics` | `baseMetrics` |
| accounts.dfy | `Accounts` | `accountSeeds`, `buildAccountMetrics`, `accountMetrics`, `getMetricsForAccount` |
| bias_card.dfy | `BiasCard` | `behavioral-bias-card.tsx` arithmetic |
| profitability_gauge.dfy | `ProfitabilityGauge` | `profitability-gauge.tsx` clamp |
| instruments_bar.dfy | `InstrumentsBar` | `most-traded-instruments-bar.tsx` percentages |
| login_form.dfy | `LoginForm` | the validation in `handleSubmit` |

These things become parameters:

- The trigonometric hash becomes `Hash`, any function from seed to a real in [0, 1).
- The clock becomes `Today(year, month)`.

The calendar and the weekly roll-up each have two forms. A pure function is the reference definition, and a method follows the loop of `generateCalendar` or `summarizeWeeks`. Each method is proved to return the same value as its function. The generator is a pure function of the seed, the hash and the clock, so repeated calls give identical results by construction.

## Model

| member | source | states |
|---|---|---|
| JsMath.Round | src/data/mockMetrics.ts:45 | `Math.round` gives an integer within half of its argument: x − ½ < r ≤ x + ½, so halves round up |
| JsMath.RoundOfInteger | src/data/mockMetrics.ts:45 | rounding an integer gives it back |
| JsMath.RoundMonotone | src/data/mockMetrics.ts:45 | rounding keeps the order of its arguments |
| JsMath.Rem | src/data/mockMetrics.ts:112 | JavaScript `%` takes the dividend's sign and has magnitude below the divisor's |
| JsMath.RemOfNonNegative | src/data/mockMetrics.ts:112 | on non-negative seeds `seed % 3` agrees with the mathematical remainder |
| JsMath.RemOdd | src/data/mockMetrics.ts:112 | negating the dividend negates the remainder |
| JsMath.RemOfNegativeExample | src/data/mockMetrics.ts:112 | `-4 % 3` is −1 in JavaScript, where the Euclidean remainder is 2 |
| Deterministic.DeterministicNumber | src/data/mockMetrics.ts:43-46 | the draw is the nearest integer to min + (max − min)·u and lies in [min, max] (or [max, min] for reversed bounds) |
| Deterministic.ScaledBounds | src/data/mockMetrics.ts:44-45 | the unrounded scaled value lies between the bounds and stays below max when min < max |
| Deterministic.ZeroDrawGivesMin | src/data/mockMetrics.ts:43-46 | a normalised value of 0 yields exactly min |
| Deterministic.DegenerateRange | src/data/mockMetrics.ts:43-46 | min = max yields that value whatever the hash |
| Deterministic.DrawMonotone | src/data/mockMetrics.ts:43-46 | a larger normalised value never yields a smaller number |
| Deterministic.DependsOnlyOnSeedDraw | src/data/mockMetrics.ts:43-46 | the result depends only on the hash value at the seed |
| Dates.DaysInMonth | src/data/mockMetrics.ts:58 | a month has 28 to 31 days, and February has 29 exactly in Gregorian leap years |
| Dates.DayOfWeek | src/data/mockMetrics.ts:62-63 | `getDay()` is a weekday number in 0..6 |
| Dates.NextDate | src/data/mockMetrics.ts:61-62 | the day after a valid date is a valid date |
| Dates.NextDayInMonth | src/data/mockMetrics.ts:61-63 | within a month, consecutive days have consecutive weekdays (mod 7) |
| Dates.NextDateWeekday | src/data/mockMetrics.ts:58-63 | the weekday formula agrees with the month-length table across month and year ends, leap Februaries included |
| Dates.EpochIsThursday | src/data/mockMetrics.ts:63 | 1 January 1970 is a Thursday (weekday 4), anchoring the formula |
| Decimal.NatToString | src/data/mockMetrics.ts:91 | the rendering of a natural number is non-empty, all digits, with no leading zero |
| Decimal.IntToString | src/data/mockMetrics.ts:129-135 | an integer renders as digits with a leading minus sign exactly when negative |
| Decimal.NatRoundTrip | src/data/mockMetrics.ts:91 | parsing the rendering of n gives n back |
| Decimal.IntRoundTrip | src/data/mockMetrics.ts:129-135 | parsing the rendering of an integer gives it back |
| Decimal.IntToStringInjective | src/data/mockMetrics.ts:129-135 | distinct integers render to distinct strings |
| WeekSlices.SliceCount | src/data/mockMetrics.ts:80-98 | n elements give ceil(n/7) slices: enough to cover n, and each starts inside the sequence |
| WeekSlices.Slice | src/data/mockMetrics.ts:81 | slice i holds elements 7i.. in order and has 1 to 7 of them; every slice but the last has 7, and the last ends at the end |
| WeekSlices.Slices | src/data/mockMetrics.ts:80-81 | the slices `days.slice(cursor, cursor + 7)` for cursor = 0, 7, 14, … while cursor < n: there are ceil(n/7) of them (the loop itself is `Weekly.SummarizeWeeks`) |
| WeekSlices.SlicesPartition | src/data/mockMetrics.ts:78-99 | the slices concatenated in order give back the whole sequence, with no gap and no overlap |
| Calendar.WeekdayPnL | src/data/mockMetrics.ts:48-51 | a weekday's P&L lies in [180, 820] |
| Calendar.DayEntry | src/data/mockMetrics.ts:62-70 | the entry pushed for a day carries that day's date; its P&L is absent exactly on Saturday and Sunday and otherwise lies in [180, 820] |
| Calendar.GenerateCalendar | src/data/mockMetrics.ts:53-74 | one entry per day 1..daysInMonth in ascending order; P&L is absent exactly on Sundays (0) and Saturdays (6); every present P&L lies in [180, 820] |
| Calendar.DatesConsecutive | src/data/mockMetrics.ts:61-64 | each entry's date is valid and the next entry is the following day |
| Calendar.WeekdayPnlIsSeededDraw | src/data/mockMetrics.ts:48-69 | day d's P&L is the draw for seed + d over [180, 820] |
| Calendar.BuildCalendar | src/data/mockMetrics.ts:53-74 | `generateCalendar`'s day loop, with its `continue` on weekends, builds exactly the reference calendar |
| Weekly.Present | src/data/mockMetrics.ts:85 | the present P&L values are at most as many as the days |
| Weekly.SumPnlBounds | src/data/mockMetrics.ts:84 | when every present value lies in [180, 820], the `?? 0` reduce lies between 180 and 820 times the number of trading days |
| Weekly.WeekLabelParses | src/data/mockMetrics.ts:91 | the label is "Week " followed by digits that parse back to the week number |
| Weekly.Summarize | src/data/mockMetrics.ts:81-95 | one slice's summary: label for its week number, range from first to last date, P&L equal to the sum of the present values alone, trade count even and at most two per day |
| Weekly.WeeklySummaries | src/data/mockMetrics.ts:76-101 | there are ceil(n/7) summaries, and none exactly when there are no days |
| Weekly.SummaryOfSlice | src/data/mockMetrics.ts:81-95 | summary i is labelled "Week i+1"; it spans days 7i to min(7i+7, n)−1; its pnl is their sum with absent values as 0; its trades are twice its present days, so even and at most 14 |
| Weekly.NullsAddNothing | src/data/mockMetrics.ts:84-85 | the reduce with `?? 0` equals the sum of the present values |
| Weekly.SumPnlAppend | src/data/mockMetrics.ts:84 | the P&L sum of a concatenation is the sum of the parts |
| Weekly.WeeklyTotalIsMonthTotal | src/data/mockMetrics.ts:78-99 | the weekly P&L values add up to the month's total P&L |
| Weekly.FiveWeekdaysInSeven | src/data/mockMetrics.ts:65-85 | seven days with consecutive weekdays hold exactly five trading days |
| Weekly.FullWeekHasTenTrades | src/data/mockMetrics.ts:65-85 | in a generated calendar, every full 7-day slice reports exactly 10 trades |
| Weekly.AllFullWeeksHaveTenTrades | src/data/mockMetrics.ts:76-101 | in a generated calendar every summary whose slice is a full 7 days reports 10 trades; only a short last week can differ |
| Weekly.WeekPnlWithinDraws | src/data/mockMetrics.ts:48-95 | in a generated calendar each week's P&L lies between 90 and 410 times its trade count, i.e. 180 to 820 per trading day |
| Weekly.SummarizeWeeks | src/data/mockMetrics.ts:76-101 | `summarizeWeeks`'s cursor loop produces exactly the reference summaries |
| BaseMetrics.Overview | src/data/mockMetrics.ts:105-110 | avgWin in [330, 440], avgLoss in [−105, −65] (always negative), winRate in [0.61, 0.70], profitFactor in [6.1, 9.0] |
| BaseMetrics.Objectives | src/data/mockMetrics.ts:111-116 | required is 10 and completed is at most 9, so the objective is never met; for seeds ≥ 0, completed = 7 + seed mod 3, in [7, 9]; hftProfit passes |
| BaseMetrics.ShortLong | src/data/mockMetrics.ts:117-120 | the long side has exactly 3 more wins than the short side; both sides are in profit for seeds ≥ 0; for seeds 0..13 both win rates lie strictly between 0 and 1 |
| BaseMetrics.DurationDistribution | src/data/mockMetrics.ts:121-127 | five buckets with the fixed labels in duration order; for seeds ≥ 0 only the "<30s" bucket is in loss and the 1–2 minute bucket earns the most |
| BaseMetrics.TradeIdParses | src/data/mockMetrics.ts:129-135 | a trade id `t{k}-{seed}` reads back: `t`, digits parsing to k, a dash, then a literal parsing to the seed |
| BaseMetrics.TradeDurations | src/data/mockMetrics.ts:128-136 | seven points with ids `t1-{seed}` … `t7-{seed}` in strictly increasing duration; for seeds 0..7 exactly the fourth trade is a loss |
| BaseMetrics.InstrumentProfits | src/data/mockMetrics.ts:137-142 | one entry per instrument in the fixed order; for seeds ≥ 0 all are in profit, ranked NQZ5 > ESZ5 > MNQZ5 > CLZ5 |
| BaseMetrics.InstrumentVolumes | src/data/mockMetrics.ts:143-148 | one entry per instrument in the same order; for seeds ≥ 0 volumes are positive and strictly decreasing down the list |
| BaseMetrics.BaseMetricsShape | src/data/mockMetrics.ts:103-150 | avgLoss < 0; 5 duration buckets; 7 trade points in strictly increasing duration, each with id `t{k}-{seed}`; profit and volume list the same 4 symbols in the same order |
| BaseMetrics.TradeIdsIdentifySeed | src/data/mockMetrics.ts:129-135 | the seed can be recovered from a trade id, so two seeds never share an id |
| BaseMetrics.OverviewDependsOnDraw | src/data/mockMetrics.ts:105-110 | the overview depends on the seed only through the hash value at that seed |
| Accounts.SeedFor | src/data/mockMetrics.ts:152-160 | the intended own-key reading of `accountSeeds[accountId] ?? 1`: a listed id gets its table seed and any other id gets 1; seeds lie in [1, 4]. Line 160 only ever receives the table's own keys (line 173), so the inherited-name case of the Findings row cannot reach it |
| Accounts.AccountRecord | src/data/mockMetrics.ts:159-169 | every record `buildAccountMetrics` returns: its calendar has one entry per day of the month; its ceil(n/7) weekly summaries add up to the calendar's total P&L and report 10 trades in every full week; its average loss is negative; it has completed 7 + seed mod 3, i.e. 7 to 9, of the 10 required profitable days |
| Accounts.MetricsTable | src/data/mockMetrics.ts:173-176 | the precomputed table has exactly the seed table's keys, and each record's accountId is its key |
| Accounts.ResolveKey | src/data/mockMetrics.ts:179 | the intended own-key reading of line 179 (the as-written reading is the Findings row): a known id resolves to itself; an absent, empty or unknown id resolves to the default; the result is always a table key |
| Accounts.GetMetricsForAccount | src/data/mockMetrics.ts:171-181 | a known id returns its own record with accountId = id; an absent or unknown id returns the default account's record with the default accountId |
| Accounts.UnknownIdIsDefault | src/data/mockMetrics.ts:178-181 | an unknown id and an absent id return exactly the default id's result |
| Accounts.LookupByOwnId | src/data/mockMetrics.ts:178-181 | looking up a returned record's own accountId returns that record again |
| Accounts.Lookup | src/data/mockMetrics.ts:179-180 | indexing the ordinary-object table yields the own record `t[key]` exactly for its keys; for any other key, the inherited member exactly when the key names one of `Object.prototype`, and `undefined` otherwise |
| Accounts.LookupWithFallback | src/data/mockMetrics.ts:179-180 | the as-written lookup over any table: never `undefined` when the table holds the default account; a non-empty id with its own record gets that record; a non-record result comes only from an id that names an inherited member absent from the table |
| Accounts.GetMetricsAsWritten | src/data/mockMetrics.ts:173-180 | the lookup as written always yields a truthy value; a non-record result only comes from an id that names an inherited `Object.prototype` member |
| Accounts.InheritedKeyEscapesFallback | src/data/mockMetrics.ts:173-180 | the id "toString" yields the inherited method rather than the default record |
| Accounts.AsWrittenAgreesOffPrototype | src/data/mockMetrics.ts:173-180 | for ids outside the inherited names, the lookup as written returns the intended record |
| BiasCard.ClampPercent | src/components/trader/charts/behavioral-bias-card.tsx:4 | the long percent lies in [0, 100]; an input already there is unchanged, below 0 gives 0, above 100 gives 100 |
| BiasCard.View | src/components/trader/charts/behavioral-bias-card.tsx:4-14 | long and short both lie in [0, 100] and sum to 100; the label is Bull exactly when long ≥ 50, i.e. when long ≥ short |
| BiasCard.ClampIdempotent | src/components/trader/charts/behavioral-bias-card.tsx:4 | clamping a clamped value changes nothing |
| BiasCard.ClampMonotone | src/components/trader/charts/behavioral-bias-card.tsx:4 | the clamp keeps the order of its inputs |
| BiasCard.EvenSplitIsBull | src/components/trader/charts/behavioral-bias-card.tsx:14 | exactly 50 % long reads Bull |
| ProfitabilityGauge.ClampWinRate | src/components/trader/charts/profitability-gauge.tsx:12 | the gauge value lies in [0, 100]; an input already there is unchanged, below 0 gives 0, above 100 gives 100 |
| ProfitabilityGauge.View | src/components/trader/charts/profitability-gauge.tsx:12-28 | the headline shows the raw win rate and the trade count is passed through; the gauge value equals the win rate exactly when the rate lies in [0, 100] |
| ProfitabilityGauge.ClampsAgree | src/components/trader/charts/profitability-gauge.tsx:12 | the gauge's max-of-min clamp equals the bias card's min-of-max clamp for every input |
| InstrumentsBar.Total | src/components/trader/charts/most-traded-instruments-bar.tsx:15 | the divisor is never 0: wins + losses when non-zero, otherwise 1 |
| InstrumentsBar.Bar | src/components/trader/charts/most-traded-instruments-bar.tsx:15-17 | winPct + lossPct = 100; with non-negative counts both lie in [0, 100]; 0 wins and 0 losses give 0 / 100; losses = 0 with wins > 0 gives 100 / 0 |
| InstrumentsBar.ShareBounds | src/components/trader/charts/most-traded-instruments-bar.tsx:15-16 | with non-negative counts the win fraction lies in [0, 1] |
| InstrumentsBar.WinShareIsRatio | src/components/trader/charts/most-traded-instruments-bar.tsx:16 | with a non-zero total, winPct is exactly 100 × wins / (wins + losses) |
| InstrumentsBar.Bars | src/components/trader/charts/most-traded-instruments-bar.tsx:14-17 | one bar per instrument in the given order, each with the instrument's symbol and shares summing to 100 |
| LoginForm.Trim | src/components/auth/login-form.tsx:21-22 | `trim` returns the slice of the input left after removing white space at both ends; nothing outside it is kept, and it neither starts nor ends with white space |
| LoginForm.TrimEmptyIffBlank | src/components/auth/login-form.tsx:21-22 | a field trims to "" exactly when it is empty or all white space |
| LoginForm.TrimIdempotent | src/components/auth/login-form.tsx:21-22 | trimming twice is trimming once |
| LoginForm.KeyCount | src/components/auth/login-form.tsx:25 | the error record has no keys exactly when neither error is present |
| LoginForm.Validate | src/components/auth/login-form.tsx:20-25 | the email error is present exactly when the trimmed email is empty, and the password error likewise, each with its fixed message; submission proceeds exactly when both trimmed fields are non-empty |
| LoginForm.BlankFieldsRejected | src/components/auth/login-form.tsx:20-25 | white-space-only input counts as missing, and both errors are reported at once |
| LoginForm.ContentFieldAccepted | src/components/auth/login-form.tsx:21 | an email with any non-white-space character gets no email error |
| LoginForm.Submit | src/components/auth/login-form.tsx:17-25 | a submit keeps the inputs and replaces the shown errors with the freshly validated record |
| LoginForm.SubmitForgetsOldErrors | src/components/auth/login-form.tsx:20-24 | the outcome of a submit does not depend on the errors shown before it, so a fixed field's old error disappears |

## Left out

- The trigonometric hash `|sin(17.23·s) + cos(3.7·s)| mod 1` is floating-point work. It is the parameter `Hash`, and only its range [0, 1) is used, so the model does not fix which integer a given seed draws.
- Deterministic.DeterministicNumber: computed over exact reals. Double rounding in `min + (max − min)·u` is not modelled; it cannot leave [min, max], but it could change a draw by one at a rounding tie.
- JavaScript numbers in the chart components and in the fractional base-metrics fields (`winRate`, `profitFactor`, `hftProfit.value`, the side win rates) are exact reals. NaN and infinities are not modelled.
- InstrumentsBar.Total: the `|| 1` also replaces a NaN total by 1; reals have no NaN, so only the zero case is modelled.
- The clock (`new Date()`) is the parameter `Today(year, month)`, because a wall clock cannot be modelled.
- The legacy `Date` constructor maps years 0–99 to 1900–1999. This is not modelled, because the clock never reports such a year.
- ISO date strings (`toISOString().split("T")[0]`) are not modelled, nor their drift from the local date in non-UTC time zones. A day's date is kept as a `(year, month, day)` value.
- The range text of a weekly summary (`toLocaleDateString`) is not modelled, nor its time-zone shift. It is kept as the slice's first and last date.
- The month label (`Intl.DateTimeFormat`) is locale formatting. It is kept as the `(year, month)` it formats.
- Weekly.SummarizeWeeks: `summarizeWeeks`'s `if (startDate && endDate)` tests whether the slice has a day with a non-empty date string. Every day carries a date, so the model's guard is only that the slice is non-empty, which the loop condition ensures.
- The import-time `accountMetrics` object and the legacy re-exports bound to the default account are module-level state. The table is the function `MetricsTable` of the hash and the clock.
- React state, JSX, recharts rendering, `toast`, `console.log` and every `toFixed` display string are UI, not computation.
- `BaseMetrics.BaseMetrics` assembles the fields and carries no contract of its own. Its properties are stated on `Overview`, `Objectives` and `BaseMetricsShape`.
- Decimal rendering is modelled for every integer, but JavaScript prints magnitudes of 10^21 and above in exponent form and is inexact above 2^53. Seeds are 1 to 4 and week numbers at most 5, so this never arises; the rendering and the injectivity lemmas (`Decimal.IntToStringInjective`, `BaseMetrics.TradeIdsIdentifySeed`) describe only the exact-integer rendering.
- `label` is a reserved word in Dafny, so the `label` fields of a weekly summary and of a trade-duration point are called `weekLabel` and `tradeLabel`.

## Findings

| source | as written | input that shows it | evidently intended | confidence | as-written member | corrected member |
|---|---|---|---|---|---|---|
| src/data/mockMetrics.ts:173-180 | `accountMetrics` is reduced into `{}`, an ordinary object. `accountMetrics[accountId]` therefore also finds the members inherited from `Object.prototype`. Those are truthy, so neither the key test nor `??` falls back to the default account. | `getMetricsForAccount("toString")` returns the `Object.prototype.toString` function, not a metrics record; likewise "constructor", "valueOf", "__proto__" and other inherited names | any id without its own record falls back to `acc-50k-starter-phase1` | medium: the only caller passes roster ids, so the defect is latent (not executed) | Accounts.GetMetricsAsWritten | Accounts.GetMetricsForAccount |
