/** The part of `get_and_analyze` that runs after both series are fetched and
    parsed: the minimum-length check, then detection, summary and plan. */
module Analysis {
  import opened Candles
  import opened SweepDetector
  import opened RetestConfirmer
  import opened LiquidityZones
  import opened TradePlans

  const MinCandlesRequired: nat := 20

  datatype Report =
    | NotEnoughCandles
    | Analyzed(symbol: string, liquidity: Liquidity, plan: Option<TradePlan>, latest: Candle)

  /** `plan` is only built, and can only be something, when detection signalled. */
  function PlanFor(symbol: string, detection: Detection, c5: seq<Candle>): (p: Option<TradePlan>)
    requires |c5| >= ConfirmWindow
    ensures p.Some? ==> detection.Signal?
  {
    if !detection.Signal? then None
    else match BuildTradePlan(symbol, detection, c5)
         case NoPlan => None
         case Planned(plan) => Some(plan)
         case PlanIndexError => assert false; None
  }

  /** What `get_and_analyze` returns for parsed 15-minute and 5-minute series. */
  function Analyze(symbol: string, c15: seq<Candle>, c5: seq<Candle>): (r: Report)
    ensures r == NotEnoughCandles <==> |c15| < MinCandlesRequired || |c5| < MinCandlesRequired
  {
    if |c15| < MinCandlesRequired || |c5| < MinCandlesRequired then NotEnoughCandles
    else
      var detection := Detect(c15, DefaultLookback);
      var liquidity := ComputeLiquidityZones(c15).value;
      Analyzed(symbol, liquidity, PlanFor(symbol, detection, c5), c15[|c15| - 1])
  }

  /** With enough candles the report carries the symbol, the summary of the
      15-minute series and its latest candle; detection always has enough data,
      and a plan is there exactly when the plan builder makes one. */
  lemma AnalyzedReport(symbol: string, c15: seq<Candle>, c5: seq<Candle>)
    requires |c15| >= MinCandlesRequired && |c5| >= MinCandlesRequired
    ensures var r := Analyze(symbol, c15, c5);
      var d := Detect(c15, DefaultLookback);
      r.Analyzed? && r.symbol == symbol && r.latest == c15[|c15| - 1] &&
      Some(r.liquidity) == ComputeLiquidityZones(c15) &&
      d != NoSignal(NotEnoughData) &&
      BuildTradePlan(symbol, d, c5) != PlanIndexError &&
      (r.plan.Some? <==> BuildTradePlan(symbol, d, c5).Planned?) &&
      (r.plan.Some? ==> r.plan.value == BuildTradePlan(symbol, d, c5).plan)
  {
  }

  /** Everything a plan in the report stands on: a sweep among the last six
      interior 15-minute candles with the confirm candle after it, at least two
      touches among the last 60 five-minute candles, the earliest green one of
      the last six as confirmation, and a stop strictly under the sweep low. */
  lemma {:induction false} PlanJustified(symbol: string, c15: seq<Candle>, c5: seq<Candle>)
    ensures Analyze(symbol, c15, c5).Analyzed? && Analyze(symbol, c15, c5).plan.Some? ==>
      var p := Analyze(symbol, c15, c5).plan.value;
      var d := Detect(c15, DefaultLookback);
      d.Signal? &&
      |c15| - DefaultLookback <= d.sweepIdx <= |c15| - 2 &&
      IsSweepAt(c15, d.sweepIdx) && c15[d.sweepIdx] == d.sweep &&
      |TouchIndices(LastN(c5, TouchWindow), d.sweep.low, d.confirm.high)| >= RetestTouchAllowance &&
      (exists j :: |c5| - ConfirmWindow <= j < |c5| && c5[j] == p.confirm && IsGreen(c5[j]) &&
        forall k :: |c5| - ConfirmWindow <= k < j ==> !IsGreen(c5[k])) &&
      p.side == Long && p.sl < d.sweep.low
  {
    var r := Analyze(symbol, c15, c5);
    if r.Analyzed? && r.plan.Some? {
      var d := Detect(c15, DefaultLookback);
      AnalyzedReport(symbol, c15, c5);
      SignalGuarantees(c15, DefaultLookback);
      PlanIffConfirmedSignal(symbol, d, c5);
      var retest := Confirm(c5, d.sweep.low, d.confirm.high);
      ConfirmedGuarantees(c5, d.sweep.low, d.confirm.high);
      StopBelowSweep(symbol, d.sweep.low, retest.entry, retest.confirm);
    }
  }
}
