/** The 15-minute liquidity-sweep detector: a left-to-right, first-match scan
    over the last `lookback + 1` candles for an interior candle that takes the
    lows of both neighbours, keeps a lower wick of more than 35% of its range,
    and is followed by a green candle. */
module SweepDetector {
  import opened Candles

  const DefaultLookback: nat := 6
  const WickThreshold: real := 0.35

  datatype NoSignalReason = NotEnoughData | NoSweep

  datatype Detection =
    | NoSignal(reason: NoSignalReason)
    | Signal(sweep: Candle, confirm: Candle, sweepIdx: int)

  /** The candles the detector scans. */
  function Window(candles: seq<Candle>, lookback: nat): seq<Candle> {
    LastN(candles, lookback + 1)
  }

  /** Every test the loop body applies to position `i` of `s`, in the order it
      applies them; a zero range is skipped rather than divided by. */
  predicate IsSweepAt(s: seq<Candle>, i: int) {
    1 <= i < |s| - 1 &&
    s[i].low < s[i - 1].low && s[i].low < s[i + 1].low &&
    Range(s[i]) != 0.0 &&
    Abs(s[i].close - s[i].low) / Range(s[i]) > WickThreshold &&
    IsGreen(s[i + 1])
  }

  /** The first position at or after `i` of an interior sweep of `w`. */
  function FirstSweepFrom(w: seq<Candle>, i: nat): (r: Option<nat>)
    ensures r.Some? ==> i <= r.value && IsSweepAt(w, r.value)
    ensures r.Some? ==> forall j :: i <= j < r.value ==> !IsSweepAt(w, j)
    ensures r.None? ==> forall j :: i <= j ==> !IsSweepAt(w, j)
    decreases |w| - i
  {
    if i + 1 >= |w| then None
    else if IsSweepAt(w, i) then Some(i)
    else FirstSweepFrom(w, i + 1)
  }

  /** What `detect_sweep_and_green` returns. */
  function Detect(candles: seq<Candle>, lookback: nat): (r: Detection)
    ensures r == NoSignal(NotEnoughData) <==> |candles| < lookback + 2
  {
    if |candles| < lookback + 2 then NoSignal(NotEnoughData)
    else
      var w := Window(candles, lookback);
      match FirstSweepFrom(w, 1)
      case None => NoSignal(NoSweep)
      case Some(i) => Signal(w[i], w[i + 1], |candles| - (lookback + 1) + i)
  }

  /** The scan of the source, loop for loop, with its `continue` and early return. */
  method DetectSweepAndGreen(candles: seq<Candle>, lookback: nat) returns (r: Detection)
    ensures r == Detect(candles, lookback)
  {
    if |candles| < lookback + 2 {
      return NoSignal(NotEnoughData);
    }
    var window := Window(candles, lookback);
    var i := 1;
    while i < |window| - 1
      invariant 1 <= i <= |window|
      invariant FirstSweepFrom(window, 1) == FirstSweepFrom(window, i)
    {
      if window[i].low < window[i - 1].low && window[i].low < window[i + 1].low {
        var lowerWick := Abs(window[i].close - window[i].low);
        var rng := window[i].high - window[i].low;
        if rng == 0.0 {
          i := i + 1;
          continue;
        }
        if lowerWick / rng > WickThreshold {
          var next := window[i + 1];
          if next.close > next.open {
            return Signal(window[i], next, |candles| - (lookback + 1) + i);
          }
        }
      }
      i := i + 1;
    }
    return NoSignal(NoSweep);
  }

  /** The window is the tail of the series that starts `|candles| - (lookback + 1)` in. */
  lemma WindowIsTail(candles: seq<Candle>, lookback: nat)
    requires |candles| >= lookback + 2
    ensures Window(candles, lookback) == candles[|candles| - (lookback + 1)..]
  {
  }

  /** The sweep test reads only a candle and its two neighbours, so it gives the
      same answer on the window and on the series at the shifted index. */
  lemma {:induction false} SweepShift(candles: seq<Candle>, lookback: nat, i: int)
    requires |candles| >= lookback + 2
    ensures IsSweepAt(Window(candles, lookback), i) <==>
            1 <= i && IsSweepAt(candles, |candles| - (lookback + 1) + i)
  {
    var w := Window(candles, lookback);
    var off := |candles| - (lookback + 1);
    WindowIsTail(candles, lookback);
    if 1 <= i < |w| - 1 {
      assert w[i - 1] == candles[off + i - 1];
      assert w[i] == candles[off + i];
      assert w[i + 1] == candles[off + i + 1];
    }
  }

  /** What a signal guarantees: the sweep candle sits in the interior of the
      window, takes both neighbours' lows, has a positive range (the source only
      rules out a zero one) and a lower wick above the threshold, and the
      confirm candle is the green candle right after it in the series. */
  lemma {:induction false} SignalGuarantees(candles: seq<Candle>, lookback: nat)
    requires Detect(candles, lookback).Signal?
    ensures var d := Detect(candles, lookback);
      var k := d.sweepIdx;
      |candles| - lookback <= k <= |candles| - 2 &&
      candles[k] == d.sweep && candles[k + 1] == d.confirm &&
      IsSweepAt(candles, k) &&
      d.sweep.low < candles[k - 1].low && d.sweep.low < d.confirm.low &&
      Range(d.sweep) > 0.0 &&
      Abs(d.sweep.close - d.sweep.low) / Range(d.sweep) > WickThreshold &&
      IsGreen(d.confirm)
  {
    var d := Detect(candles, lookback);
    var w := Window(candles, lookback);
    var i := FirstSweepFrom(w, 1).value;
    WindowIsTail(candles, lookback);
    SweepShift(candles, lookback, i);
    assert w[i] == candles[d.sweepIdx] && w[i + 1] == candles[d.sweepIdx + 1];
    WickNeedsPositiveRange(d.sweep);
  }

  /** A wick fraction above the threshold needs a positive range, since the wick is an absolute value. */
  lemma WickNeedsPositiveRange(c: Candle)
    requires Range(c) != 0.0 && Abs(c.close - c.low) / Range(c) > WickThreshold
    ensures Range(c) > 0.0
  {
  }

  /** First match: no earlier interior position of the window is a sweep. */
  lemma {:induction false} SignalIsFirst(candles: seq<Candle>, lookback: nat, k: int)
    requires Detect(candles, lookback).Signal?
    requires |candles| - lookback <= k < Detect(candles, lookback).sweepIdx
    ensures !IsSweepAt(candles, k)
  {
    var w := Window(candles, lookback);
    var off := |candles| - (lookback + 1);
    SweepShift(candles, lookback, k - off);
  }

  /** `no_sweep` comes exactly when there is enough data and no interior
      position of the window is a sweep. */
  lemma {:induction false} NoSweepIff(candles: seq<Candle>, lookback: nat)
    ensures Detect(candles, lookback) == NoSignal(NoSweep) <==>
            |candles| >= lookback + 2 &&
            forall k :: |candles| - lookback <= k <= |candles| - 2 ==> !IsSweepAt(candles, k)
  {
    if |candles| >= lookback + 2 {
      var w := Window(candles, lookback);
      var off := |candles| - (lookback + 1);
      if Detect(candles, lookback) == NoSignal(NoSweep) {
        forall k | |candles| - lookback <= k <= |candles| - 2
          ensures !IsSweepAt(candles, k)
        {
          SweepShift(candles, lookback, k - off);
        }
      } else {
        var d := Detect(candles, lookback);
        SignalGuarantees(candles, lookback);
        assert IsSweepAt(candles, d.sweepIdx);
      }
    }
  }

  /** A candle whose high equals its low is never a sweep. */
  lemma ZeroRangeNeverSweeps(s: seq<Candle>, i: int)
    requires 0 <= i < |s| && s[i].high == s[i].low
    ensures !IsSweepAt(s, i)
  {
  }

  /** On a well-formed candle the absolute value in the wick is immaterial:
      the test is the plain fraction `(close - low) / (high - low)`. */
  lemma WellFormedWick(c: Candle)
    requires WellFormed(c) && Range(c) != 0.0
    ensures Abs(c.close - c.low) / Range(c) == (c.close - c.low) / (c.high - c.low)
  {
  }
}
