/** The 5-minute retest confirmer: at least two of the last 60 candles must have
    their low back in the zone `[sweepLow - 0.5, breakoutHigh]`, and then the
    earliest green candle among the last 6 gives the entry. */
module RetestConfirmer {
  import opened Candles
  import opened Rounding

  const RetestTouchAllowance: nat := 2
  const TouchWindow: nat := 60
  const ConfirmWindow: nat := 6
  const ZoneTolerance: real := 0.5

  datatype Retest =
    | NotEnoughTouches
    | NoConfirm
      /** The source's `{"ok": True, "reason": "bull_confirm", ...}`. */
    | Confirmed(entry: real, confirm: Candle)
      /** `candles_5m[-6]` raises IndexError on fewer than six candles. */
    | IndexError

  predicate InZone(c: Candle, sweepLow: real, breakoutHigh: real) {
    sweepLow - ZoneTolerance <= c.low <= breakoutHigh
  }

  /** The source's running counter after it has seen all of `s`, front to back. */
  function CountTouches(s: seq<Candle>, sweepLow: real, breakoutHigh: real): (n: nat)
    ensures n <= |s|
  {
    if s == [] then 0
    else CountTouches(s[..|s| - 1], sweepLow, breakoutHigh)
         + (if InZone(s[|s| - 1], sweepLow, breakoutHigh) then 1 else 0)
  }

  /** The positions of `s` whose low lies in the zone. */
  ghost function TouchIndices(s: seq<Candle>, sweepLow: real, breakoutHigh: real): set<int> {
    set i | 0 <= i < |s| && InZone(s[i], sweepLow, breakoutHigh)
  }

  /** The counter counts exactly the candles in the zone. */
  lemma {:induction false} CountTouchesIsCardinality(s: seq<Candle>, sweepLow: real, breakoutHigh: real)
    ensures CountTouches(s, sweepLow, breakoutHigh) == |TouchIndices(s, sweepLow, breakoutHigh)|
  {
    if s != [] {
      var p := s[..|s| - 1];
      CountTouchesIsCardinality(p, sweepLow, breakoutHigh);
      var last := |s| - 1;
      var rest := TouchIndices(p, sweepLow, breakoutHigh);
      if InZone(s[last], sweepLow, breakoutHigh) {
        assert TouchIndices(s, sweepLow, breakoutHigh) == rest + {last};
      } else {
        assert TouchIndices(s, sweepLow, breakoutHigh) == rest;
      }
    }
  }

  /** The number of touches the source counts over the last 60 candles. */
  function Touches(c5: seq<Candle>, sweepLow: real, breakoutHigh: real): nat {
    CountTouches(LastN(c5, TouchWindow), sweepLow, breakoutHigh)
  }

  /** The first green candle of `s` at or after position `i`. */
  function FirstGreenFrom(s: seq<Candle>, i: nat): (r: Option<nat>)
    ensures r.Some? ==> i <= r.value < |s| && IsGreen(s[r.value])
    ensures r.Some? ==> forall j :: i <= j < r.value ==> !IsGreen(s[j])
    ensures r.None? ==> forall j :: i <= j < |s| ==> !IsGreen(s[j])
    decreases |s| - i
  {
    if i >= |s| then None
    else if IsGreen(s[i]) then Some(i)
    else FirstGreenFrom(s, i + 1)
  }

  /** The scan of `candles_5m[i]` for `i` from -6 to -1: the IndexError of
      `candles_5m[-6]` on a short series, else the earliest green candle. */
  function ScanOutcome(c5: seq<Candle>): (r: Retest)
    ensures r != NotEnoughTouches
    ensures r == IndexError <==> |c5| < ConfirmWindow
    ensures r.Confirmed? ==> IsGreen(r.confirm) && r.entry == Round3(r.confirm.close)
  {
    if |c5| < ConfirmWindow then IndexError
    else match FirstGreenFrom(c5, |c5| - ConfirmWindow)
         case None => NoConfirm
         case Some(j) => Confirmed(Round3(c5[j].close), c5[j])
  }

  /** What `detect_second_touch_and_confirmation` returns. */
  function Confirm(c5: seq<Candle>, sweepLow: real, breakoutHigh: real): (r: Retest)
    ensures r.Confirmed? ==> IsGreen(r.confirm) && r.entry == Round3(r.confirm.close)
  {
    if Touches(c5, sweepLow, breakoutHigh) < RetestTouchAllowance then NotEnoughTouches
    else ScanOutcome(c5)
  }

  /** The touch counter over `candles_5m[-60:]`. */
  method CountRecentTouches(c5: seq<Candle>, sweepLow: real, breakoutHigh: real) returns (touches: nat)
    ensures touches == Touches(c5, sweepLow, breakoutHigh)
  {
    var zoneTop := breakoutHigh;
    var zoneBottom := sweepLow;
    var recent := LastN(c5, TouchWindow);
    touches := 0;
    for k := 0 to |recent|
      invariant touches == CountTouches(recent[..k], sweepLow, breakoutHigh)
    {
      assert recent[..k + 1][..k] == recent[..k];
      if zoneBottom - ZoneTolerance <= recent[k].low <= zoneTop {
        touches := touches + 1;
      }
    }
    assert recent[..|recent|] == recent;
  }

  /** The early-return loop over `candles_5m[i]` for `i` from -6 to -1. */
  method ScanLastSix(c5: seq<Candle>) returns (r: Retest)
    ensures r == ScanOutcome(c5)
  {
    for i := -(ConfirmWindow as int) to 0
      invariant i > -(ConfirmWindow as int) ==> |c5| >= ConfirmWindow
      invariant |c5| >= ConfirmWindow ==>
        FirstGreenFrom(c5, |c5| - ConfirmWindow) == FirstGreenFrom(c5, |c5| + i)
    {
      if |c5| + i < 0 {
        return IndexError;
      }
      var cand := c5[|c5| + i];
      if cand.close > cand.open {
        return Confirmed(Round3(cand.close), cand);
      }
    }
    return NoConfirm;
  }

  /** The confirmer of the source: count the touches, give up below the
      allowance, otherwise scan the last six candles. */
  method DetectSecondTouchAndConfirmation(c5: seq<Candle>, sweepLow: real, breakoutHigh: real)
    returns (r: Retest)
    ensures r == Confirm(c5, sweepLow, breakoutHigh)
  {
    var touches := CountRecentTouches(c5, sweepLow, breakoutHigh);
    if touches < RetestTouchAllowance {
      return NotEnoughTouches;
    }
    r := ScanLastSix(c5);
  }

  /** Too few touches: `not_enough_touches`, whatever the candles after them. */
  lemma NotEnoughTouchesIff(c5: seq<Candle>, sweepLow: real, breakoutHigh: real)
    ensures Confirm(c5, sweepLow, breakoutHigh) == NotEnoughTouches <==>
            |TouchIndices(LastN(c5, TouchWindow), sweepLow, breakoutHigh)| < RetestTouchAllowance
  {
    CountTouchesIsCardinality(LastN(c5, TouchWindow), sweepLow, breakoutHigh);
  }

  /** The touch count looks at the last `min(60, n)` candles only. */
  lemma TouchesSeeOnlyLastSixty(c5: seq<Candle>, older: seq<Candle>, sweepLow: real, breakoutHigh: real)
    requires |c5| >= TouchWindow
    ensures Touches(older + c5, sweepLow, breakoutHigh) == Touches(c5, sweepLow, breakoutHigh)
  {
    assert LastN(older + c5, TouchWindow) == LastN(c5, TouchWindow);
  }

  /** A confirmation is the earliest green candle among the last six, with
      enough touches before it, and the entry is its rounded close. */
  lemma {:induction false} ConfirmedGuarantees(c5: seq<Candle>, sweepLow: real, breakoutHigh: real)
    requires Confirm(c5, sweepLow, breakoutHigh).Confirmed?
    ensures var r := Confirm(c5, sweepLow, breakoutHigh);
      |TouchIndices(LastN(c5, TouchWindow), sweepLow, breakoutHigh)| >= RetestTouchAllowance &&
      |c5| >= ConfirmWindow &&
      exists j :: |c5| - ConfirmWindow <= j < |c5| && c5[j] == r.confirm &&
        IsGreen(c5[j]) && r.entry == Round3(c5[j].close) &&
        forall k :: |c5| - ConfirmWindow <= k < j ==> !IsGreen(c5[k])
  {
    CountTouchesIsCardinality(LastN(c5, TouchWindow), sweepLow, breakoutHigh);
    var j := FirstGreenFrom(c5, |c5| - ConfirmWindow).value;
    assert c5[j] == Confirm(c5, sweepLow, breakoutHigh).confirm;
  }

  /** With enough touches and at least six candles the confirmer says ok
      exactly when one of the last six is green, and `no_confirm` otherwise. */
  lemma {:induction false} ConfirmOutcome(c5: seq<Candle>, sweepLow: real, breakoutHigh: real)
    requires |c5| >= ConfirmWindow
    requires |TouchIndices(LastN(c5, TouchWindow), sweepLow, breakoutHigh)| >= RetestTouchAllowance
    ensures var r := Confirm(c5, sweepLow, breakoutHigh);
      (r.Confirmed? || r == NoConfirm) &&
      (r == NoConfirm <==> forall k :: |c5| - ConfirmWindow <= k < |c5| ==> !IsGreen(c5[k]))
  {
    CountTouchesIsCardinality(LastN(c5, TouchWindow), sweepLow, breakoutHigh);
    var r := FirstGreenFrom(c5, |c5| - ConfirmWindow);
    if r.Some? {
      assert IsGreen(c5[r.value]);
    }
  }

  /** The IndexError of the source happens exactly on enough touches and fewer than six candles. */
  lemma IndexErrorIff(c5: seq<Candle>, sweepLow: real, breakoutHigh: real)
    ensures Confirm(c5, sweepLow, breakoutHigh) == IndexError <==>
            |TouchIndices(LastN(c5, TouchWindow), sweepLow, breakoutHigh)| >= RetestTouchAllowance &&
            |c5| < ConfirmWindow
  {
    CountTouchesIsCardinality(LastN(c5, TouchWindow), sweepLow, breakoutHigh);
  }
}
