/** Worked examples: the engine on small concrete series. */
module Scenarios {
  import opened Candles
  import opened SweepDetector
  import opened RetestConfirmer
  import opened LiquidityZones
  import opened TradePlans

  /** A quiet green candle with low 105. */
  const Quiet: Candle := Candle(110.0, 112.0, 105.0, 111.0)
  /** Low 100, high 108, close 107: a lower wick of 7/8 of the range. */
  const Hammer: Candle := Candle(101.0, 108.0, 100.0, 107.0)
  const GreenAfter: Candle := Candle(105.0, 111.0, 104.0, 110.0)
  const RedAfter: Candle := Candle(110.0, 111.0, 104.0, 105.0)

  /** Eight candles with the hammer at index 3 and a candle after it that is
      green or red as asked. */
  function SweepSeries(nextGreen: bool): seq<Candle> {
    [Quiet, Quiet, Quiet, Hammer, if nextGreen then GreenAfter else RedAfter, Quiet, Quiet, Quiet]
  }

  /** Seven candles, hammer at index 3 and a green candle after it, are one
      too few for the default lookback of six. */
  lemma SevenCandlesAreTooFew()
    ensures Detect(SweepSeries(true)[..7], DefaultLookback) == NoSignal(NotEnoughData)
  {
  }

  /** The hammer followed by a green candle is the signal, at index 3. */
  lemma HammerThenGreenSignals()
    ensures Detect(SweepSeries(true), DefaultLookback) == Signal(Hammer, GreenAfter, 3)
  {
    var w := Window(SweepSeries(true), DefaultLookback);
    assert w == SweepSeries(true)[1..];
    assert !IsSweepAt(w, 1);
    assert IsSweepAt(w, 2);
  }

  /** The same hammer followed by a red candle gives `no_sweep`. */
  lemma HammerThenRedNoSweep()
    ensures Detect(SweepSeries(false), DefaultLookback) == NoSignal(NoSweep)
  {
    var w := Window(SweepSeries(false), DefaultLookback);
    assert w == SweepSeries(false)[1..];
    assert !IsSweepAt(w, 1) && !IsSweepAt(w, 2) && !IsSweepAt(w, 3);
    assert !IsSweepAt(w, 4) && !IsSweepAt(w, 5);
  }

  /** Gold is told apart from bitcoin by the substring test on the symbol. */
  lemma SymbolsClassified()
    ensures IsGold("XAU/USD") && !IsGold("BTC/USD")
  {
    var b := "BTC/USD";
    HasSubstringIff(b, "XAU");
    assert forall i :: OccursAt(b, "XAU", i) ==> b[i..i + 3][0] == b[i] == 'X';
  }

  /** A gold sweep low of 100 and an entry of 107 give a stop of 99.95 and a
      target of 107 + 4 * 7.05; for bitcoin the stop is 350 lower. */
  lemma RiskArithmetic()
    ensures StopLoss("XAU/USD", 100.0) == 99.95
    ensures TakeProfit(107.0, StopLoss("XAU/USD", 100.0)) == 135.2
    ensures StopLoss("BTC/USD", 100.0) == -250.0
  {
    SymbolsClassified();
  }

  /** One touch of the zone is not enough, even with green candles after it. */
  lemma OneTouchIsNotEnough()
    ensures Confirm([Candle(101.0, 104.0, 100.0, 103.0)] + [Quiet, Quiet, Quiet, Quiet, Quiet], 100.0, 102.0)
            == NotEnoughTouches
  {
    var s := [Candle(101.0, 104.0, 100.0, 103.0)] + [Quiet, Quiet, Quiet, Quiet, Quiet];
    assert LastN(s, TouchWindow) == s;
    CountTouchesIsCardinality(s, 100.0, 102.0);
    assert TouchIndices(s, 100.0, 102.0) == {0};
  }

  /** The summary of an empty series is the error path. */
  lemma EmptySeriesHasNoSummary()
    ensures ComputeLiquidityZones([]) == None
  {
  }
}
