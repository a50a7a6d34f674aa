/**
 * `MostTradedInstrumentsBar`: for each instrument the win share
 * `wins / (wins + losses || 1) * 100` and the loss share `100 - winPct`.
 * The `|| 1` replaces a zero total by 1, so the division is always defined.
 */
module InstrumentsBar {

  datatype InstrumentStat = InstrumentStat(symbol: string, wins: real, losses: real)

  datatype InstrumentBar = InstrumentBar(symbol: string, winPct: real, lossPct: real)

  /** `inst.wins + inst.losses || 1`. */
  function Total(wins: real, losses: real): (t: real)
    ensures t != 0.0
    ensures wins + losses != 0.0 ==> t == wins + losses
    ensures wins + losses == 0.0 ==> t == 1.0
  {
    var sum := wins + losses;
    if sum == 0.0 then 1.0 else sum
  }

  function Bar(inst: InstrumentStat): (b: InstrumentBar)
    ensures b.symbol == inst.symbol
    ensures b.winPct + b.lossPct == 100.0
    ensures inst.wins >= 0.0 && inst.losses >= 0.0 ==>
              0.0 <= b.winPct <= 100.0 && 0.0 <= b.lossPct <= 100.0
    ensures inst.wins == 0.0 && inst.losses == 0.0 ==> b.winPct == 0.0 && b.lossPct == 100.0
    ensures inst.losses == 0.0 && inst.wins > 0.0 ==> b.winPct == 100.0 && b.lossPct == 0.0
  {
    var total := Total(inst.wins, inst.losses);
    var winPct := inst.wins / total * 100.0;
    ShareBounds(inst.wins, inst.losses);
    InstrumentBar(inst.symbol, winPct, 100.0 - winPct)
  }

  /** With no negative counts the win fraction lies in [0, 1]. */
  lemma ShareBounds(wins: real, losses: real)
    ensures wins >= 0.0 && losses >= 0.0 ==> 0.0 <= wins / Total(wins, losses) <= 1.0
  {
    var t := Total(wins, losses);
    if wins >= 0.0 && losses >= 0.0 && wins + losses != 0.0 {
      assert t > 0.0 && wins <= t;
      assert wins / t <= t / t;
    }
  }

  /** With a non-zero total the win share is exactly 100 × wins / (wins + losses). */
  lemma WinShareIsRatio(inst: InstrumentStat)
    requires inst.wins + inst.losses != 0.0
    ensures Bar(inst).winPct * (inst.wins + inst.losses) == inst.wins * 100.0
  {
  }

  /** One bar per instrument, in the order given. */
  function Bars(instruments: seq<InstrumentStat>): (bs: seq<InstrumentBar>)
    ensures |bs| == |instruments|
    ensures forall i :: 0 <= i < |bs| ==> bs[i].symbol == instruments[i].symbol
    ensures forall i :: 0 <= i < |bs| ==> bs[i].winPct + bs[i].lossPct == 100.0
  {
    seq(|instruments|, i requires 0 <= i < |instruments| => Bar(instruments[i]))
  }
}
