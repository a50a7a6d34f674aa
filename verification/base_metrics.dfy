/**
 * `baseMetrics(seed)`: the overview, objectives and breakdown fields of an
 * account's metrics. Each is a base constant plus a seed-scaled offset or a
 * seeded draw. JavaScript doubles are modelled as exact reals, and
 * `seed % 3` as JavaScript's truncating remainder.
 */
module BaseMetrics {
  import opened Deterministic
  import JsMath
  import Decimal

  datatype MetricsOverview = MetricsOverview(avgWin: int, avgLoss: int, winRate: real, profitFactor: real)

  datatype ProfitableDays = ProfitableDays(required: int, completed: int)
  datatype TrailingLoss = TrailingLoss(startingEquity: int, remainingBuffer: int)
  datatype HftProfit = HftProfit(value: real, passed: bool)
  datatype MaxDailyLoss = MaxDailyLoss(limit: int, current: int)

  datatype TradingObjectives = TradingObjectives(
    profitableDays: ProfitableDays,
    trailingLoss: TrailingLoss,
    hftProfit: HftProfit,
    maxDailyLoss: MaxDailyLoss)

  datatype SideStats = SideStats(wins: int, winRate: real, pnl: int)
  datatype ShortLongAnalysis = ShortLongAnalysis(short: SideStats, long: SideStats)

  datatype DurationBucket = DurationBucket(bucket: string, pnl: int)
  datatype TradeDurationPoint = TradeDurationPoint(id: string, tradeLabel: string, durationSeconds: int, pnl: int)
  datatype InstrumentProfit = InstrumentProfit(symbol: string, pnl: int)
  datatype InstrumentVolume = InstrumentVolume(symbol: string, volume: int)

  datatype Metrics = Metrics(
    metricsOverview: MetricsOverview,
    tradingObjectives: TradingObjectives,
    shortLongAnalysis: ShortLongAnalysis,
    pnlDistributionByDuration: seq<DurationBucket>,
    pnlByTradeDuration: seq<TradeDurationPoint>,
    instrumentProfit: seq<InstrumentProfit>,
    instrumentVolume: seq<InstrumentVolume>)

  const RequiredProfitableDays := 10
  const Instruments: seq<string> := ["NQZ5", "MNQZ5", "ESZ5", "CLZ5"]

  function Overview(h: Hash, seed: int): (o: MetricsOverview)
    ensures 330 <= o.avgWin <= 440
    ensures -105 <= o.avgLoss <= -65
    ensures 0.61 <= o.winRate <= 0.70
    ensures 6.1 <= o.profitFactor <= 9.0
  {
    MetricsOverview(
      320 + DeterministicNumber(h, seed, 10, 120),
      -1 * (60 + DeterministicNumber(h, seed, 5, 45)),
      0.6 + DeterministicNumber(h, seed, 1, 10) as real / 100.0,
      6.0 + DeterministicNumber(h, seed, 1, 30) as real / 10.0)
  }

  /**
   * The objectives. Ten profitable days are required and at most nine are
   * ever completed, so the objective is never met; for the non-negative
   * seeds of the account table 7 to 9 are completed.
   */
  function Objectives(seed: int): (t: TradingObjectives)
    ensures t.profitableDays.required == RequiredProfitableDays
    ensures t.profitableDays.completed <= 9 < t.profitableDays.required
    ensures seed >= 0 ==> 7 <= t.profitableDays.completed
    ensures seed >= 0 ==> t.profitableDays.completed == 7 + seed % 3
    ensures t.hftProfit.passed
    ensures seed >= 0 ==> 0.6 <= t.hftProfit.value <= 0.76
  {
    var r := JsMath.Rem(seed, 3);
    TradingObjectives(
      ProfitableDays(RequiredProfitableDays, 7 + r),
      TrailingLoss(150000 + seed * 5000, 5000 + seed * 400),
      HftProfit(0.6 + r as real * 0.08, true),
      MaxDailyLoss(4500 + seed * 200, 900 + seed * 80))
  }

  /**
   * `shortLongAnalysis`: the long side always has three more wins than the
   * short side, both sides are in profit for non-negative seeds, and for
   * seeds 0..13 both win rates are proper fractions.
   */
  function ShortLong(seed: int): (a: ShortLongAnalysis)
    ensures a.long.wins == a.short.wins + 3
    ensures seed >= 0 ==> a.short.pnl > 0 && a.long.pnl > 0
    ensures 0 <= seed <= 13 ==> 0.0 < a.short.winRate < 1.0 && 0.0 < a.long.winRate < 1.0
  {
    ShortLongAnalysis(
      SideStats(12 + seed * 2, 0.58 + seed as real * 0.03, 2800 + seed * 250),
      SideStats(15 + seed * 2, 0.64 + seed as real * 0.02, 3400 + seed * 180))
  }

  const DurationBuckets: seq<string> := ["<30s", "30s\U{2013}1m", "1\U{2013}2m", "2\U{2013}3m", ">3m"]

  /**
   * `pnlDistributionByDuration`: the five buckets in order of duration. For
   * non-negative seeds the shortest bucket is the only one in loss and the
   * 1–2 minute bucket earns the most.
   */
  function DurationDistribution(seed: int): (b: seq<DurationBucket>)
    ensures |b| == |DurationBuckets|
    ensures forall k :: 0 <= k < |b| ==> b[k].bucket == DurationBuckets[k]
    ensures seed >= 0 ==> b[0].pnl < 0 && forall k :: 1 <= k < |b| ==> b[k].pnl > 0
    ensures seed >= 0 ==> forall k :: 0 <= k < |b| ==> b[k].pnl <= b[2].pnl
  {
    [ DurationBucket(DurationBuckets[0], -80 - seed * 10),
      DurationBucket(DurationBuckets[1], 420 + seed * 40),
      DurationBucket(DurationBuckets[2], 760 + seed * 60),
      DurationBucket(DurationBuckets[3], 530 + seed * 35),
      DurationBucket(DurationBuckets[4], 120 + seed * 10) ]
  }

  /** `t${k}-${seed}`. */
  function TradeId(k: nat, seed: int): string {
    "t" + Decimal.NatToString(k) + "-" + Decimal.IntToString(seed)
  }

  /**
   * A trade id reads back: a `t`, the digits of `k`, a dash and the seed's
   * literal, each part parsing back to the number it renders.
   */
  lemma TradeIdParses(k: nat, seed: int)
    ensures var id, n := TradeId(k, seed), |Decimal.NatToString(k)|;
            && |id| > n + 2 && id[0] == 't' && id[n + 1] == '-'
            && Decimal.AllDigits(id[1..n + 1]) && Decimal.ParseNat(id[1..n + 1]) == k
            && Decimal.IsIntLiteral(id[n + 2..]) && Decimal.ParseInt(id[n + 2..]) == seed
  {
    var digits, literal := Decimal.NatToString(k), Decimal.IntToString(seed);
    IdParts(digits, literal);
    Decimal.NatRoundTrip(k);
    Decimal.IntRoundTrip(seed);
  }

  lemma IdParts(digits: string, literal: string)
    ensures var id, n := "t" + digits + "-" + literal, |digits|;
            && |id| == n + 2 + |literal| && id[0] == 't' && id[n + 1] == '-'
            && id[1..n + 1] == digits && id[n + 2..] == literal
  {
    var id, n := "t" + digits + "-" + literal, |digits|;
    assert id[1..n + 1] == digits;
    assert id[n + 2..] == literal;
  }

  /**
   * `pnlByTradeDuration`: seven trades T1..T7 in strictly increasing
   * duration, each with the id `t{k}-{seed}`. For the seeds 0..7 the
   * fourth trade is the only loser.
   */
  function TradeDurations(seed: int): (ps: seq<TradeDurationPoint>)
    ensures |ps| == 7
    ensures forall k :: 0 <= k < 7 ==> ps[k].id == TradeId(k + 1, seed)
    ensures forall k :: 0 <= k < 6 ==> ps[k].durationSeconds < ps[k + 1].durationSeconds
    ensures 0 <= seed <= 7 ==> forall k :: 0 <= k < 7 ==> (ps[k].pnl < 0 <==> k == 3)
  {
    [ TradeDurationPoint(TradeId(1, seed), "T1", 35, 180 + seed * 20),
      TradeDurationPoint(TradeId(2, seed), "T2", 65, 320 + seed * 30),
      TradeDurationPoint(TradeId(3, seed), "T3", 95, 510 + seed * 25),
      TradeDurationPoint(TradeId(4, seed), "T4", 140, -120 + seed * 15),
      TradeDurationPoint(TradeId(5, seed), "T5", 190, 720 + seed * 40),
      TradeDurationPoint(TradeId(6, seed), "T6", 240, 160 + seed * 18),
      TradeDurationPoint(TradeId(7, seed), "T7", 300, 40 + seed * 12) ]
  }

  /**
   * `instrumentProfit`: one entry per instrument in the fixed order. For
   * non-negative seeds every instrument is in profit, ranked
   * NQZ5 > ESZ5 > MNQZ5 > CLZ5.
   */
  function InstrumentProfits(seed: int): (ps: seq<InstrumentProfit>)
    ensures |ps| == |Instruments|
    ensures forall k :: 0 <= k < |ps| ==> ps[k].symbol == Instruments[k]
    ensures seed >= 0 ==> ps[0].pnl > ps[2].pnl > ps[1].pnl > ps[3].pnl > 0
  {
    [ InstrumentProfit(Instruments[0], 3200 + seed * 220),
      InstrumentProfit(Instruments[1], 980 + seed * 80),
      InstrumentProfit(Instruments[2], 1440 + seed * 120),
      InstrumentProfit(Instruments[3], 120 + seed * 40) ]
  }

  /**
   * `instrumentVolume`: one entry per instrument in the same order as the
   * profits; for non-negative seeds the volumes are positive and strictly
   * decreasing down the list.
   */
  function InstrumentVolumes(seed: int): (vs: seq<InstrumentVolume>)
    ensures |vs| == |Instruments|
    ensures forall k :: 0 <= k < |vs| ==> vs[k].symbol == Instruments[k]
    ensures seed >= 0 ==> vs[0].volume > vs[1].volume > vs[2].volume > vs[3].volume > 0
  {
    [ InstrumentVolume(Instruments[0], 30 + seed * 6),
      InstrumentVolume(Instruments[1], 24 + seed * 4),
      InstrumentVolume(Instruments[2], 18 + seed * 3),
      InstrumentVolume(Instruments[3], 14 + seed * 2) ]
  }

  /** `baseMetrics(seed)`: everything but the account id, calendar and weekly summaries. */
  function BaseMetrics(h: Hash, seed: int): Metrics {
    Metrics(
      Overview(h, seed),
      Objectives(seed),
      ShortLong(seed),
      DurationDistribution(seed),
      TradeDurations(seed),
      InstrumentProfits(seed),
      InstrumentVolumes(seed))
  }

  /**
   * The chart-facing shape: the average loss is always negative, the two
   * instrument series list the same symbols in the same order, and the
   * trade-duration points are in strictly increasing duration order, each
   * id naming its seed.
   */
  lemma BaseMetricsShape(h: Hash, seed: int)
    ensures var m := BaseMetrics(h, seed);
            && m.metricsOverview.avgLoss < 0
            && |m.pnlDistributionByDuration| == 5
            && |m.instrumentProfit| == |m.instrumentVolume| == |Instruments|
            && (forall k :: 0 <= k < |Instruments| ==>
                  m.instrumentProfit[k].symbol == m.instrumentVolume[k].symbol == Instruments[k])
            && |m.pnlByTradeDuration| == 7
            && (forall k :: 0 <= k < 6 ==>
                  m.pnlByTradeDuration[k].durationSeconds < m.pnlByTradeDuration[k + 1].durationSeconds)
            && (forall k :: 0 <= k < 7 ==> m.pnlByTradeDuration[k].id == TradeId(k + 1, seed))
  {
  }

  /** Different seeds give different trade ids, so ids from two accounts never clash. */
  lemma TradeIdsIdentifySeed(k: nat, s1: int, s2: int)
    requires TradeId(k, s1) == TradeId(k, s2)
    ensures s1 == s2
  {
    var a, b := Decimal.IntToString(s1), Decimal.IntToString(s2);
    var p := "t" + Decimal.NatToString(k) + "-";
    assert TradeId(k, s1) == p + a && TradeId(k, s2) == p + b;
    assert a == (p + a)[|p|..] && b == (p + b)[|p|..];
    Decimal.IntToStringInjective(s1, s2);
  }

  /** The overview depends on the seed only through the hash's draw for it. */
  lemma OverviewDependsOnDraw(h1: Hash, h2: Hash, s1: int, s2: int)
    requires h1(s1) == h2(s2)
    ensures Overview(h1, s1) == Overview(h2, s2)
  {
  }
}
