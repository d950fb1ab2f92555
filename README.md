# Liquidity Matrix Bot: the sweep-and-retest engine in Dafny

This project models the decision logic of the Liquidity Matrix Bot (`bot.py`). That logic is a long-only
engine. It scans 15-minute candles for a liquidity sweep, which is a candle that takes out the lows of both
neighbours, keeps a long lower wick, and is followed by a green candle. It then checks 5-minute candles:
at least two of the last 60 five-minute lows must lie in the zone between the sweep low (less 0.5) and the
confirm candle's high, and the entry is the close, rounded to three decimals, of the earliest green
candle among the last six. The two tests are independent, so the green candle may come before the
touches. From that it builds a trade plan. The stop sits a fixed buffer under the sweep low, and the
target is four times the risk above the entry.

Modules, following the source's sections:

- `Candles` (`candles.dfy`): the `Candle` value (open, high, low, close), `Option`, the colour and range
  of a candle, Python's tail slice `s[-k:]` (`LastN`), and Python's substring test `t in s`
  (`HasSubstring`, proved equal to "occurs at some position").
- `Rounding` (`rounding.dfy`): `round(x, 3)` as `Round3`, round-half-even to thousandths of the exact
  value, with its error bound, monotonicity and idempotence.
- `SweepDetector` (`sweep.dfy`): `detect_sweep_and_green`. The specification function is `Detect`. The
  source's loop, with its `continue` and early `return`, is the method `DetectSweepAndGreen`, which is
  proved equal to `Detect`. `IsSweepAt` is the loop body's tests on one window index (bot.py:110-117).
  `Detect`'s contract gives the not-enough-data case; lemmas cover what a signal guarantees about the
  series, the first-match policy and when `no_sweep` happens.
- `RetestConfirmer` (`retest.dfy`): `detect_second_touch_and_confirmation`. The specification function
  is `Confirm`. The method `DetectSecondTouchAndConfirmation` runs the source's two loops, which are
  split into `CountRecentTouches` and `ScanLastSix`. `InZone` is the touch test of bot.py:133. The touch
  counter is proved equal to the size of the set of candles that lie in the zone.
- `LiquidityZones` (`liquidity.dfy`): `compute_liquidity_zones`.
- `TradePlans` (`trade_plan.dfy`): `build_trade_plan`, with the instrument's stop buffer and the
  reward-to-risk target. `MakePlan` computes the stop and target and builds the plan dict (bot.py:161-176).
- `Analysis` (`analysis.dfy`): the part of `get_and_analyze` after both series are parsed.
- `Scenarios` (`scenarios.dfy`): the engine on small concrete series.

Prices are `real`. The reason names of the source's result dicts (`not_enough_data`, `no_sweep`,
`not_enough_touches`, `no_confirm`, `not_enough_candles`) become constructors of tagged datatypes. The
dict `{"ok": True, "reason": "bull_confirm", ...}` becomes `Confirmed`. Python exceptions the core can
raise are modelled as values: `IndexError` (from `candles_5m[-6]`) and `None` from
`ComputeLiquidityZones` (the `ValueError` of `min([])`). All members are functions of their arguments,
so analysing the same input twice gives the same report.

Behaviour of the code worth knowing:

- With the default lookback of 6 the detector needs at least 8 candles. Seven candles give
  `not_enough_data` even when index 3 is a clear sweep; `Scenarios.SevenCandlesAreTooFew` shows this,
  and `Scenarios.HammerThenGreenSignals` shows the same setup in 8 candles.
- A long plan need not satisfy `sl < entry < tp`. The entry is a later 5-minute close, which can sit at
  or below the stop, and nothing checks it. `TradePlans.PlanSides` proves `sl <= entry <= tp` when the
  entry is above the unrounded stop, and the reversed ordering when it is below.
- The stop buffer is 5 pips of 0.01 for symbols that contain `XAU` and 350 for all others
  (`TradePlans.StopBuffer`, `Scenarios.RiskArithmetic`).
- The confirmer raises `IndexError` when there are enough touches but fewer than six 5-minute candles.
  The orchestrator's minimum of 20 candles rules that out (`Analysis.AnalyzedReport`).
- The code never validates the OHLC invariant. `Candles.WellFormed` is an assumption of two lemmas only.
  Without it, the code's `abs` in the wick still forces a signalled sweep candle to have a positive range
  (`SweepDetector.WickNeedsPositiveRange`).

## Model

| member | source | states |
|---|---|---|
| `Candles.LastN` | bot.py:108 | Python's `s[-k:]`: a suffix of `s` of `k` elements, or all of `s` when it is shorter or `k == 0` |
| `Candles.HasSubstringIff` | bot.py:162 | the scanning substring test holds exactly when the pattern occurs at some position |
| `Rounding.Round3Error` | bot.py:141 | `round(x, 3)` moves a value by at most 0.0005 |
| `Rounding.Round3OnGrid` | bot.py:141 | a multiple of 0.001 rounds to itself |
| `Rounding.Round3Idempotent` | bot.py:171-172 | rounding an already rounded entry changes nothing |
| `Rounding.Round3Monotone` | bot.py:171-172 | rounding keeps non-strict order |
| `SweepDetector.FirstSweepFrom` | bot.py:109-123 | the returned window index is a sweep, no earlier index from the start point is one, and `None` means no index from it is one |
| `SweepDetector.Detect` | bot.py:104-107 | `not_enough_data` exactly when the series has fewer than `lookback + 2` candles |
| `SweepDetector.DetectSweepAndGreen` | bot.py:104-124 | the source's loop, with `continue` on a zero range and an early return, yields exactly `Detect` |
| `SweepDetector.WindowIsTail` | bot.py:108 | the window is the last `lookback + 1` candles of the series |
| `SweepDetector.SweepShift` | bot.py:110-122 | the sweep test at window index `i` equals the test at series index `len - (lookback + 1) + i` |
| `SweepDetector.SignalGuarantees` | bot.py:108-123 | on a signal, `len - lookback <= sweep_idx <= len - 2`; the sweep candle is the series element there and the confirm candle the next one; its low is below both neighbours' lows; its range is positive; its wick fraction is above 0.35; the confirm candle is green |
| `SweepDetector.WickNeedsPositiveRange` | bot.py:111-115 | a candle that passes the nonzero-range and wick tests has `high > low` |
| `SweepDetector.SignalIsFirst` | bot.py:109-123 | first match: no interior candle of the window before the signalled one is a sweep |
| `SweepDetector.NoSweepIff` | bot.py:109-124 | `no_sweep` exactly when there is enough data and no interior candle of the window is a sweep |
| `SweepDetector.ZeroRangeNeverSweeps` | bot.py:112-114 | a zero-range candle never qualifies |
| `SweepDetector.WellFormedWick` | bot.py:111-115 | on a well-formed candle the wick test is `(close - low) / (high - low) > 0.35` |
| `RetestConfirmer.CountTouches` | bot.py:131-134 | the running count never exceeds the number of candles seen |
| `RetestConfirmer.CountTouchesIsCardinality` | bot.py:131-134 | the counter equals the number of candles with `sweep_low - 0.5 <= low <= breakout_high` |
| `RetestConfirmer.FirstGreenFrom` | bot.py:138-141 | the returned index holds a green candle and no earlier index from the start point does; `None` means none does |
| `RetestConfirmer.ScanOutcome` | bot.py:138-142 | the IndexError exactly on fewer than 6 candles; a confirmation carries a green candle and its rounded close; never `not_enough_touches` |
| `RetestConfirmer.CountRecentTouches` | bot.py:131-134 | the counting loop over `candles_5m[-60:]` yields exactly the touch count |
| `RetestConfirmer.ScanLastSix` | bot.py:138-142 | the early-return loop over indices -6..-1 yields exactly `ScanOutcome`, including the IndexError on a short series |
| `RetestConfirmer.Confirm` | bot.py:137-141 | a confirmation carries a green candle and the rounded close of that candle as entry |
| `RetestConfirmer.DetectSecondTouchAndConfirmation` | bot.py:127-142 | counting the touches, returning `not_enough_touches` below 2, and otherwise scanning the last six yields exactly `Confirm` |
| `RetestConfirmer.NotEnoughTouchesIff` | bot.py:132-136 | `not_enough_touches` exactly when fewer than 2 of the last `min(60, n)` candles touch the zone, whatever the later candles |
| `RetestConfirmer.TouchesSeeOnlyLastSixty` | bot.py:132 | candles older than the last 60 do not change the touch count |
| `RetestConfirmer.ConfirmedGuarantees` | bot.py:135-141 | on ok there were at least 2 touches and at least 6 candles; the confirm candle is the earliest green one among the last 6; the entry is its rounded close |
| `RetestConfirmer.ConfirmOutcome` | bot.py:137-142 | with enough touches and at least 6 candles the result is ok or `no_confirm`, and `no_confirm` exactly when none of the last 6 is green |
| `RetestConfirmer.IndexErrorIff` | bot.py:135-139 | the IndexError happens exactly on enough touches with fewer than 6 candles |
| `LiquidityZones.MinLow` | bot.py:146-148 | `min` of the lows is at most every low and equals some candle's low |
| `LiquidityZones.MaxHigh` | bot.py:147-148 | `max` of the highs is at least every high and equals some candle's high |
| `LiquidityZones.ComputeLiquidityZones` | bot.py:145-148 | undefined (error) exactly on an empty series; otherwise the low is at most every low and equals one, the high is at least every high and equals one, and `last_close` is the final close |
| `LiquidityZones.SummaryBracketsLastClose` | bot.py:145-148 | on well-formed candles the last close lies between the recent low and the recent high |
| `TradePlans.StopBuffer` | bot.py:162-166 | the buffer is 0.05 for symbols containing `XAU` and 350 for all others, so never below 0.05 |
| `TradePlans.StopLoss` | bot.py:163-166 | the unrounded stop is at least 0.05 under the sweep low |
| `TradePlans.TakeProfit` | bot.py:164-167 | `tp - entry = 4 * (entry - sl)`, so `tp > entry` exactly when `entry > sl` |
| `TradePlans.BuildTradePlan` | bot.py:158-160 | the plan builder propagates an IndexError only on a series of fewer than 6 candles |
| `TradePlans.PlanIffConfirmedSignal` | bot.py:154-160 | a plan exists exactly when detection signalled and the retest returned ok; otherwise `None`, except for the propagated IndexError |
| `TradePlans.PlanFields` | bot.py:161-176 | side `LONG`, confidence 0.85, logic `bull_confirm`, the confirmer's entry and candle, and `sl`, `tp` rounded once from `sweep.low - (0.05 if XAU else 350)` and `entry + (entry - sl) * 4` |
| `TradePlans.StopBelowSweep` | bot.py:163-171 | the rounded stop of every plan is strictly below the sweep low, for either instrument |
| `TradePlans.PlanSides` | bot.py:161-172 | with the entry the rounded close of the confirm candle: if it is above the unrounded stop then `sl <= entry <= tp`, and if below then `tp <= entry <= sl` |
| `Analysis.PlanFor` | bot.py:193 | the plan is present only if detection signalled |
| `Analysis.Analyze` | bot.py:189-190 | `not_enough_candles` exactly when either series has fewer than 20 candles |
| `Analysis.AnalyzedReport` | bot.py:189-194 | otherwise the report has the symbol, the summary of the 15-minute series and its latest candle; detection never lacks data; the IndexError cannot happen; a plan is present exactly when the builder makes one |
| `Analysis.PlanJustified` | bot.py:189-194 | a reported plan stands on a sweep among the last interior 15-minute candles, at least 2 touches, the earliest green candle of the last 6 five-minute ones, and a stop under the sweep low |
| `Scenarios.SevenCandlesAreTooFew` | bot.py:106-107 | seven candles give `not_enough_data` with the default lookback |
| `Scenarios.HammerThenGreenSignals` | bot.py:108-123 | a hammer at index 3 of eight candles followed by a green candle is the signal at index 3 |
| `Scenarios.HammerThenRedNoSweep` | bot.py:117-124 | the same series with a red follow-up candle gives `no_sweep` |
| `Scenarios.SymbolsClassified` | bot.py:162 | `XAU/USD` takes the gold buffer and `BTC/USD` does not |
| `Scenarios.RiskArithmetic` | bot.py:162-167 | a gold sweep low of 100 and an entry of 107 give a stop of 99.95 and a target of 135.2; bitcoin's stop is 350 under the low |
| `Scenarios.OneTouchIsNotEnough` | bot.py:135-136 | one touch gives `not_enough_touches` even with green candles after it |
| `Scenarios.EmptySeriesHasNoSummary` | bot.py:148 | an empty series has no summary |

## Left out

- Network I/O: `twelvedata_get_series` (HTTP fetch, bot.py:65-82), `send_telegram_message` (HTTP post,
  bot.py:46-62), and the fetch-failure branch of `get_and_analyze` (bot.py:182-186). The series arrive
  already fetched as arguments.
- `parse_candles` (bot.py:85-99): it relies on Python's `float()` and `datetime.fromisoformat`. Parsed
  candles are the model's input. Timestamps and volume are dropped because no decision reads them.
- `format_plan_message` (bot.py:197-211): HTML and float rendering.
- Scheduling (bot.py:216-261): `job_pre_alert`, `job_post_open`, `start_scheduler`, the PK clock, the
  weekend check and the main block.
- Floating point: prices are exact reals, so float rounding in `sweep.low - 0.05`, in the wick division
  and in the target is not modelled. For the same reason, `round(x, 3)` is modelled on the exact value
  and its result is not re-rounded to the nearest float.
- The unused `candles_15m` parameter of the confirmer and of `build_trade_plan` is dropped.
  `CONFIRM_VOLUME_MULT` and `XAU_SL_PIPS` are never read. `LOOKBACK_15M` and `LOOKBACK_5M` only size
  the fetch, which is left out.
- `SweepDetector.Detect`: `lookback` is a `nat`. The source accepts any int, but a negative lookback
  makes Python's slice take a prefix-trimmed list whose `sweep_idx` points past the series. Every call
  in the source uses the default of 6.
- The short / sweep-high variant, which does not exist in this source.
