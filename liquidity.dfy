/** The liquidity summary of a candle series: its lowest low, its highest
    high and its last close. */
module LiquidityZones {
  import opened Candles

  datatype Liquidity = Liquidity(recentLow: real, recentHigh: real, lastClose: real)

  /** Python's `min` over the lows. */
  function MinLow(s: seq<Candle>): (m: real)
    requires |s| > 0
    ensures forall i :: 0 <= i < |s| ==> m <= s[i].low
    ensures exists i :: 0 <= i < |s| && s[i].low == m
  {
    if |s| == 1 then s[0].low
    else
      var rest := MinLow(s[1..]);
      assert forall i :: 1 <= i < |s| ==> s[i] == s[1..][i - 1];
      if s[0].low <= rest then s[0].low else rest
  }

  /** Python's `max` over the highs. */
  function MaxHigh(s: seq<Candle>): (m: real)
    requires |s| > 0
    ensures forall i :: 0 <= i < |s| ==> s[i].high <= m
    ensures exists i :: 0 <= i < |s| && s[i].high == m
  {
    if |s| == 1 then s[0].high
    else
      var rest := MaxHigh(s[1..]);
      assert forall i :: 1 <= i < |s| ==> s[i] == s[1..][i - 1];
      if s[0].high >= rest then s[0].high else rest
  }

  /** What `compute_liquidity_zones` returns; `None` stands for the ValueError
      that `min` raises on an empty series. */
  function ComputeLiquidityZones(candles: seq<Candle>): (r: Option<Liquidity>)
    ensures r.None? <==> |candles| == 0
    ensures r.Some? ==>
      (forall i :: 0 <= i < |candles| ==> r.value.recentLow <= candles[i].low) &&
      (exists i :: 0 <= i < |candles| && candles[i].low == r.value.recentLow) &&
      (forall i :: 0 <= i < |candles| ==> candles[i].high <= r.value.recentHigh) &&
      (exists i :: 0 <= i < |candles| && candles[i].high == r.value.recentHigh) &&
      r.value.lastClose == candles[|candles| - 1].close
  {
    if |candles| == 0 then None
    else Some(Liquidity(MinLow(candles), MaxHigh(candles), candles[|candles| - 1].close))
  }

  /** On well-formed candles the summary spans a non-empty zone that holds the last close. */
  lemma {:induction false} SummaryBracketsLastClose(candles: seq<Candle>)
    requires |candles| > 0
    requires forall i :: 0 <= i < |candles| ==> WellFormed(candles[i])
    ensures var l := ComputeLiquidityZones(candles).value;
      l.recentLow <= l.lastClose <= l.recentHigh
  {
    var n := |candles| - 1;
    assert WellFormed(candles[n]);
  }
}
