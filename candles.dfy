/** Candles, the values every part of the engine reads, and the small helpers
    on them: the colour of a candle, its range, Python's tail slice `s[-k:]`,
    and Python's substring test `t in s`. */
module Candles {

  /** One parsed OHLC bar. Timestamps and volume play no part in any decision. */
  datatype Candle = Candle(open: real, high: real, low: real, close: real)

  datatype Option<+T> = None | Some(value: T)

  /** A green (bullish) candle closes above its open. */
  predicate IsGreen(c: Candle) {
    c.close > c.open
  }

  function Range(c: Candle): real {
    c.high - c.low
  }

  function Abs(x: real): (r: real)
    ensures r >= 0.0 && (r == x || r == -x)
  {
    if x < 0.0 then -x else x
  }

  /** The usual OHLC invariant. The engine never checks it; only some lemmas assume it. */
  predicate WellFormed(c: Candle) {
    c.low <= c.open <= c.high && c.low <= c.close <= c.high
  }

  /** Python's `s[-k:]`: the last `k` elements, the whole sequence when it is
      shorter, and also the whole sequence for `k == 0` (since `-0 == 0`). */
  function LastN<T>(s: seq<T>, k: nat): (r: seq<T>)
    ensures |r| <= |s| && r == s[|s| - |r|..]
    ensures k > 0 ==> |r| == if |s| <= k then |s| else k
    ensures k == 0 ==> r == s
  {
    if k == 0 || |s| <= k then s else s[|s| - k..]
  }

  /** Python's `t in s` on strings, scanning the start positions left to right. */
  predicate HasSubstring(s: string, t: string)
    decreases |s|
  {
    if |s| < |t| then false
    else s[..|t|] == t || HasSubstring(s[1..], t)
  }

  /** `t` occurs in `s` starting at position `i`. */
  predicate OccursAt(s: string, t: string, i: int) {
    0 <= i <= |s| - |t| && s[i..i + |t|] == t
  }

  /** The scan agrees with the declarative reading: `t` occurs at some position of `s`. */
  lemma {:induction false} HasSubstringIff(s: string, t: string)
    ensures HasSubstring(s, t) <==> exists i :: OccursAt(s, t, i)
    decreases |s|
  {
    if |s| < |t| {
    } else if s[..|t|] == t {
      assert OccursAt(s, t, 0);
    } else {
      assert |s| > 0;
      HasSubstringIff(s[1..], t);
      if HasSubstring(s, t) {
        var i :| OccursAt(s[1..], t, i);
        assert s[i + 1..i + 1 + |t|] == s[1..][i..i + |t|];
        assert OccursAt(s, t, i + 1);
      } else {
        forall i | OccursAt(s, t, i)
          ensures false
        {
          if i > 0 {
            assert s[i..i + |t|] == s[1..][i - 1..i - 1 + |t|];
            assert OccursAt(s[1..], t, i - 1);
          }
        }
      }
    }
  }
}
