/** The long trade plan: a stop a fixed buffer under the sweep low, a target
    four times the risk above the entry, built only when the sweep signalled
    and the retest confirmed. */
module TradePlans {
  import opened Candles
  import opened Rounding
  import opened SweepDetector
  import opened RetestConfirmer

  const SlBufferPips: real := 5.0
  const XauPip: real := 0.01
  const BtcSlUsd: real := 350.0
  const RewardRisk: real := 4.0
  const PlanConfidence: real := 0.85

  datatype Side = Long

  datatype TradePlan = TradePlan(
    side: Side,
    entry: real,
    sl: real,
    tp: real,
    logic: string,
    confirm: Candle,
    confidence: real)

  datatype PlanOutcome =
    | NoPlan
    | Planned(plan: TradePlan)
      /** The confirmer's IndexError, propagated. */
    | PlanIndexError

  /** Python's `"XAU" in symbol`. */
  predicate IsGold(symbol: string) {
    HasSubstring(symbol, "XAU")
  }

  /** The stop distance under the sweep low: five pips of 0.01 for gold, 350 otherwise. */
  function StopBuffer(symbol: string): (b: real)
    ensures b >= 0.05
    ensures IsGold(symbol) ==> b == 0.05
    ensures !IsGold(symbol) ==> b == BtcSlUsd
  {
    if IsGold(symbol) then SlBufferPips * XauPip else BtcSlUsd
  }

  /** The unrounded stop. */
  function StopLoss(symbol: string, sweepLow: real): (sl: real)
    ensures sl <= sweepLow - 0.05
  {
    sweepLow - StopBuffer(symbol)
  }

  /** The unrounded target, from the unrounded stop. */
  function TakeProfit(entry: real, sl: real): (tp: real)
    ensures tp - entry == RewardRisk * (entry - sl)
    ensures tp > entry <==> entry > sl
  {
    entry + (entry - sl) * RewardRisk
  }

  /** The plan dict built from the sweep low and the confirmer's entry and candle. */
  function MakePlan(symbol: string, sweepLow: real, entry: real, confirm: Candle): TradePlan {
    var sl := StopLoss(symbol, sweepLow);
    var tp := TakeProfit(entry, sl);
    TradePlan(Long, entry, Round3(sl), Round3(tp), "bull_confirm", confirm, PlanConfidence)
  }

  /** What `build_trade_plan` returns. */
  function BuildTradePlan(symbol: string, detection: Detection, c5: seq<Candle>): (r: PlanOutcome)
    ensures r.PlanIndexError? ==> |c5| < ConfirmWindow
  {
    if !detection.Signal? then NoPlan
    else
      match Confirm(c5, detection.sweep.low, detection.confirm.high)
      case NotEnoughTouches => NoPlan
      case NoConfirm => NoPlan
      case IndexError => PlanIndexError
      case Confirmed(entry, confirm) => Planned(MakePlan(symbol, detection.sweep.low, entry, confirm))
  }

  /** A plan exists exactly when the detection signalled and the retest confirmed. */
  lemma PlanIffConfirmedSignal(symbol: string, d: Detection, c5: seq<Candle>)
    ensures BuildTradePlan(symbol, d, c5).Planned? <==>
            d.Signal? && Confirm(c5, d.sweep.low, d.confirm.high).Confirmed?
    ensures BuildTradePlan(symbol, d, c5) == NoPlan <==>
            d.NoSignal? ||
            Confirm(c5, d.sweep.low, d.confirm.high) in {NotEnoughTouches, NoConfirm}
  {
  }

  /** The fields of a plan: a long at the confirmer's entry, stop and target
      rounded once from their unrounded values, fixed logic and confidence. */
  lemma PlanFields(symbol: string, d: Detection, c5: seq<Candle>)
    ensures BuildTradePlan(symbol, d, c5).Planned? ==>
      var p := BuildTradePlan(symbol, d, c5).plan;
      var retest := Confirm(c5, d.sweep.low, d.confirm.high);
      var sl := StopLoss(symbol, d.sweep.low);
      p.side == Long && p.confidence == 0.85 && p.logic == "bull_confirm" &&
      p.entry == retest.entry && p.confirm == retest.confirm && IsGreen(p.confirm) &&
      p.sl == Round3(sl) && p.tp == Round3(TakeProfit(p.entry, sl)) &&
      sl == d.sweep.low - (if IsGold(symbol) then 0.05 else 350.0)
  {
  }

  /** The rounded stop is strictly below the sweep low, for either instrument. */
  lemma StopBelowSweep(symbol: string, sweepLow: real, entry: real, confirm: Candle)
    ensures MakePlan(symbol, sweepLow, entry, confirm).sl < sweepLow
  {
    Round3Error(StopLoss(symbol, sweepLow));
  }

  /** With the confirmer's entry, the rounded close of the confirm candle, target
      and stop fall on the sides of the entry a long needs exactly when the entry
      is above the unrounded stop; the source does not ensure that. */
  lemma PlanSides(symbol: string, sweepLow: real, confirm: Candle)
    ensures var p := MakePlan(symbol, sweepLow, Round3(confirm.close), confirm);
      var sl := StopLoss(symbol, sweepLow);
      (p.entry > sl ==> p.sl <= p.entry <= p.tp) &&
      (p.entry < sl ==> p.tp <= p.entry <= p.sl)
  {
    var entry := Round3(confirm.close);
    var sl := StopLoss(symbol, sweepLow);
    var tp := TakeProfit(entry, sl);
    Round3Idempotent(confirm.close);
    if entry > sl {
      Round3Monotone(sl, entry);
      Round3Monotone(entry, tp);
    } else if entry < sl {
      Round3Monotone(entry, sl);
      Round3Monotone(tp, entry);
    }
  }
}
