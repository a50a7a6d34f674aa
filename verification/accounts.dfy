/**
 * `accountSeeds`, `buildAccountMetrics`, `accountMetrics` and
 * `getMetricsForAccount`: the per-account seed table, the full metrics
 * record built from a seed, and lookup by optional account id with a
 * fallback to the default account. The table that `accountMetrics`
 * precomputes at import time is a function of the hash and the clock here.
 */
module Accounts {
  import opened Optional
  import opened Deterministic
  import opened Calendar
  import opened Weekly
  import opened Dates
  import opened WeekSlices
  import opened BaseMetrics

  datatype AccountMetrics = AccountMetrics(
    accountId: string,
    calendarMonth: CalendarMonth,
    weeklySummaries: seq<WeeklySummary>,
    base: Metrics)

  const DefaultAccountId := "acc-50k-starter-phase1"

  const AccountSeeds: map<string, int> := map[
    "acc-50k-starter-phase1" := 1,
    "acc-100k-starter-phase2" := 2,
    "acc-150k-funded-master" := 3,
    "acc-25k-starter-archived" := 4
  ]

  /** `accountSeeds[accountId] ?? 1`. */
  function SeedFor(accountId: string): (seed: int)
    ensures accountId in AccountSeeds ==> seed == AccountSeeds[accountId]
    ensures accountId !in AccountSeeds ==> seed == 1
    ensures 1 <= seed <= 4
  {
    if accountId in AccountSeeds then AccountSeeds[accountId] else 1
  }

  /** `buildAccountMetrics(accountId)`: the account's id, and the calendar, summaries and base metrics of its seed. */
  function BuildAccountMetrics(h: Hash, today: Today, accountId: string): (m: AccountMetrics)
    ensures m.accountId == accountId
    ensures m.calendarMonth == GenerateCalendar(h, SeedFor(accountId), today)
    ensures m.weeklySummaries == WeeklySummaries(m.calendarMonth.days)
    ensures m.base == BaseMetrics.BaseMetrics(h, SeedFor(accountId))
  {
    var seed := SeedFor(accountId);
    var calendarMonth := GenerateCalendar(h, seed, today);
    AccountMetrics(accountId, calendarMonth, WeeklySummaries(calendarMonth.days), BaseMetrics.BaseMetrics(h, seed))
  }

  /** Every record `buildAccountMetrics` returns has the properties `RecordFacts` lists. */
  lemma AccountRecord(h: Hash, today: Today, accountId: string)
    ensures RecordFacts(today, SeedFor(accountId), BuildAccountMetrics(h, today, accountId))
  {
    var seed := SeedFor(accountId);
    CalendarFacts(h, seed, today);
    BaseFacts(h, seed);
  }

  /**
   * What an account's record guarantees: one calendar entry per day of the
   * month; ceil(n/7) weekly summaries whose P&L adds up to the calendar's,
   * with ten trades in every full week; a negative average loss; and
   * 7 + seed mod 3 of the 10 required profitable days completed.
   */
  predicate RecordFacts(today: Today, seed: int, m: AccountMetrics) {
    var days, ws, objectives := m.calendarMonth.days, m.weeklySummaries, m.base.tradingObjectives;
    && |days| == DaysInMonth(today.year, today.month)
    && |ws| == SliceCount(DaysInMonth(today.year, today.month))
    && TotalPnl(ws) == SumPnl(days)
    && (forall i :: 0 <= i < |ws| && 7 * i + 7 <= |days| ==> ws[i].trades == 10)
    && m.base.metricsOverview.avgLoss < 0
    && objectives.profitableDays.completed == 7 + seed % 3
    && 7 <= objectives.profitableDays.completed <= 9 < objectives.profitableDays.required
  }

  lemma CalendarFacts(h: Hash, seed: int, today: Today)
    ensures var days := GenerateCalendar(h, seed, today).days;
            var ws := WeeklySummaries(days);
            && |days| == DaysInMonth(today.year, today.month)
            && |ws| == SliceCount(DaysInMonth(today.year, today.month))
            && TotalPnl(ws) == SumPnl(days)
            && forall i :: 0 <= i < |ws| && 7 * i + 7 <= |days| ==> ws[i].trades == 10
  {
    WeeklyTotalIsMonthTotal(GenerateCalendar(h, seed, today).days);
    AllFullWeeksHaveTenTrades(h, seed, today);
  }

  lemma BaseFacts(h: Hash, seed: int)
    requires seed >= 0
    ensures var b := BaseMetrics.BaseMetrics(h, seed);
            && b.metricsOverview.avgLoss < 0
            && b.tradingObjectives.profitableDays.completed == 7 + seed % 3
            && 7 <= b.tradingObjectives.profitableDays.completed <= 9 < b.tradingObjectives.profitableDays.required
  {
  }

  /** `accountMetrics`: one record per key of the seed table. */
  function MetricsTable(h: Hash, today: Today): (t: map<string, AccountMetrics>)
    ensures t.Keys == AccountSeeds.Keys
    ensures forall id :: id in t ==> t[id].accountId == id
  {
    map id | id in AccountSeeds :: BuildAccountMetrics(h, today, id)
  }

  /**
   * The key the lookup settles on: the given id when it is non-empty and
   * has its own record, otherwise the default account.
   */
  function ResolveKey(accountId: Option<string>): (key: string)
    ensures key in AccountSeeds
    ensures accountId.Some? && accountId.value in AccountSeeds ==> key == accountId.value
    ensures accountId.None? || accountId.value !in AccountSeeds ==> key == DefaultAccountId
  {
    if accountId.Some? && accountId.value != "" && accountId.value in AccountSeeds
    then accountId.value else DefaultAccountId
  }

  /**
   * `getMetricsForAccount(accountId)`, with the fallback its
   * author intends: an absent, empty or unknown id yields the default account's
   * record, and a known id its own record.
   */
  function GetMetricsForAccount(h: Hash, today: Today, accountId: Option<string>): (m: AccountMetrics)
    ensures accountId.Some? && accountId.value in AccountSeeds ==>
              m == BuildAccountMetrics(h, today, accountId.value) && m.accountId == accountId.value
    ensures accountId.None? || accountId.value !in AccountSeeds ==>
              m == BuildAccountMetrics(h, today, DefaultAccountId) && m.accountId == DefaultAccountId
  {
    MetricsTable(h, today)[ResolveKey(accountId)]
  }

  /** Any unknown id gives exactly what the default id gives. */
  lemma UnknownIdIsDefault(h: Hash, today: Today, accountId: string)
    requires accountId !in AccountSeeds
    ensures GetMetricsForAccount(h, today, Some(accountId)) == GetMetricsForAccount(h, today, Some(DefaultAccountId))
    ensures GetMetricsForAccount(h, today, None) == GetMetricsForAccount(h, today, Some(DefaultAccountId))
  {
  }

  /** Distinct known accounts get distinct records, and lookup is a left inverse of `accountId`. */
  lemma LookupByOwnId(h: Hash, today: Today, accountId: Option<string>)
    ensures var m := GetMetricsForAccount(h, today, accountId);
            GetMetricsForAccount(h, today, Some(m.accountId)) == m
  {
  }

  // ---------------------------------------------------------------------
  // The lookup as written. `accountMetrics` is built by reducing into `{}`,
  // an ordinary object that inherits the members of `Object.prototype`.
  // Indexing it with such a member's name ("toString", "constructor",
  // "__proto__", …) yields that inherited, truthy value, so neither the
  // `accountMetrics[accountId]` test nor the `??` fallback sends the call to
  // the default account, and the caller receives a function or object that
  // is not a metrics record.
  // ---------------------------------------------------------------------

  /** The names an ordinary object inherits from `Object.prototype`. */
  const InheritedKeys: set<string> := {
    "constructor", "toString", "toLocaleString", "valueOf", "hasOwnProperty",
    "isPrototypeOf", "propertyIsEnumerable", "__proto__", "__defineGetter__",
    "__defineSetter__", "__lookupGetter__", "__lookupSetter__"
  }

  /** What `obj[key]` yields on an ordinary object. */
  datatype JsValue = Own(record: AccountMetrics) | Inherited(name: string) | Undefined {
    /** Inherited members are functions or objects, hence truthy. */
    predicate Truthy() {
      !Undefined?
    }
  }

  /**
   * `t[key]`: the own record for a key of the table; otherwise the
   * inherited member for an `Object.prototype` name, and `undefined` for
   * any other name.
   */
  function Lookup(t: map<string, AccountMetrics>, key: string): (v: JsValue)
    ensures v.Own? <==> key in t
    ensures key in t ==> v == Own(t[key])
    ensures key !in t ==> (v.Inherited? <==> key in InheritedKeys) && (v.Inherited? ==> v.name == key)
  {
    if key in t then Own(t[key])
    else if key in InheritedKeys then Inherited(key)
    else Undefined
  }

  /** `getMetricsForAccount` as written, over ordinary-object lookup. */
  function GetMetricsAsWritten(h: Hash, today: Today, accountId: Option<string>): (r: JsValue)
    ensures r.Truthy()
    ensures r.Inherited? ==> accountId == Some(r.name) && r.name in InheritedKeys
  {
    LookupWithFallback(MetricsTable(h, today), accountId)
  }

  /**
   * The body of `getMetricsForAccount` over a table `t`. When the table
   * holds the default account the result is never `undefined`; a non-empty
   * id with its own record gets that record; a non-record result comes only
   * from an id naming an inherited member.
   */
  function LookupWithFallback(t: map<string, AccountMetrics>, accountId: Option<string>): (r: JsValue)
    ensures DefaultAccountId in t ==> r.Truthy()
    ensures accountId.Some? && accountId.value != "" && accountId.value in t ==> r == Own(t[accountId.value])
    ensures r.Inherited? ==> accountId == Some(r.name) && r.name in InheritedKeys && r.name !in t
  {
    var key :=
      if accountId.Some? && accountId.value != "" && Lookup(t, accountId.value).Truthy()
      then accountId.value else DefaultAccountId;
    var v := Lookup(t, key);
    if v.Undefined? then Lookup(t, DefaultAccountId) else v
  }

  /** "toString" is not an account, yet the lookup as written returns the inherited method. */
  lemma InheritedKeyEscapesFallback(h: Hash, today: Today)
    ensures GetMetricsAsWritten(h, today, Some("toString")) == Inherited("toString")
    ensures !GetMetricsAsWritten(h, today, Some("toString")).Own?
  {
    var t := MetricsTable(h, today);
    ToStringIsNoAccount();
    assert "toString" !in t;
    InheritedKeyEscapes(t, "toString");
  }

  lemma ToStringIsNoAccount()
    ensures "toString" !in AccountSeeds && "toString" in InheritedKeys
  {
    assert |"toString"| == 8;
    assert forall id :: id in AccountSeeds ==> |id| > 8;
  }

  lemma InheritedKeyEscapes(t: map<string, AccountMetrics>, name: string)
    requires name !in t && name in InheritedKeys
    ensures LookupWithFallback(t, Some(name)) == Inherited(name)
  {
    assert name != "";
  }

  /** Outside the inherited names the lookup as written agrees with the intended one. */
  lemma AsWrittenAgreesOffPrototype(h: Hash, today: Today, accountId: Option<string>)
    requires accountId.None? || accountId.value !in InheritedKeys
    ensures GetMetricsAsWritten(h, today, accountId) == Own(GetMetricsForAccount(h, today, accountId))
  {
  }
}
