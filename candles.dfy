/** Candle windows and the list arithmetic detect_trade performs on them
    (ai_engine.py:107-116): field projections, Python's `arr[-k:]`, sums, means,
    true range and the 14-period average true range. */
module Candles {

  /** One OHLCV candle, oldest first in a window; `time` is the data source's datetime text. */
  datatype Candle = Candle(time: string, open: real, high: real, low: real, close: real, volume: real)

  function Abs(x: real): real { if x < 0.0 then -x else x }
  function Max(x: real, y: real): real { if x < y then y else x }
  function Min(x: real, y: real): real { if x < y then x else y }

  /** Python's sum(), adding left to right. */
  function Sum(xs: seq<real>): real {
    if xs == [] then 0.0 else Sum(xs[..|xs| - 1]) + xs[|xs| - 1]
  }

  lemma {:induction false} SumNonNegative(xs: seq<real>)
    requires forall i :: 0 <= i < |xs| ==> xs[i] >= 0.0
    ensures Sum(xs) >= 0.0
  {
    if xs != [] {
      SumNonNegative(xs[..|xs| - 1]);
    }
  }

  /** Python's `xs[-k:]` for k > 0: the last k elements, or all of them when there are fewer. */
  function Tail<T>(xs: seq<T>, k: nat): (r: seq<T>)
    requires k > 0
    ensures |r| == if k <= |xs| then k else |xs|
    ensures forall i :: 0 <= i < |r| ==> r[i] == xs[|xs| - |r| + i]
  {
    if k >= |xs| then xs else xs[|xs| - k..]
  }

  lemma TailOfTail<T>(xs: seq<T>, k: nat, m: nat)
    requires 0 < k <= m
    ensures Tail(Tail(xs, m), k) == Tail(xs, k)
  {
  }

  function Closes(cs: seq<Candle>): (r: seq<real>)
    ensures |r| == |cs| && forall i :: 0 <= i < |cs| ==> r[i] == cs[i].close
  {
    seq(|cs|, i requires 0 <= i < |cs| => cs[i].close)
  }

  function Volumes(cs: seq<Candle>): (r: seq<real>)
    ensures |r| == |cs| && forall i :: 0 <= i < |cs| ==> r[i] == cs[i].volume
  {
    seq(|cs|, i requires 0 <= i < |cs| => cs[i].volume)
  }

  /** The source's `ema` (ai_engine.py:111): despite its name, the plain mean of the last `l` values,
      always divided by `l`. */
  function TrailingMean(xs: seq<real>, l: nat): real
    requires l > 0
  {
    Sum(Tail(xs, l)) / (l as real)
  }

  /** One true-range term (ai_engine.py:115). */
  function TrueRange(c: Candle, prevClose: real): (r: real)
    ensures r >= 0.0
    ensures r >= c.high - c.low
  {
    var a, b, d := c.high - c.low, Abs(c.high - prevClose), Abs(c.low - prevClose);
    Max(Max(a, b), d)
  }

  /** The list `tr` of ai_engine.py:115: one term for each candle after the first. */
  function TrueRanges(cs: seq<Candle>): (r: seq<real>)
    ensures |r| == if |cs| > 0 then |cs| - 1 else 0
  {
    if |cs| == 0 then [] else seq(|cs| - 1, i requires 0 <= i < |cs| - 1 => TrueRange(cs[i + 1], cs[i].close))
  }

  /** `atr` of ai_engine.py:116: the last 14 true ranges summed and divided by 14. */
  function Atr(cs: seq<Candle>): real {
    Sum(Tail(TrueRanges(cs), 14)) / 14.0
  }

  /** Every true-range term is at least 0, so the average true range is too. */
  lemma AtrNonNegative(cs: seq<Candle>)
    ensures Atr(cs) >= 0.0
  {
    var t := Tail(TrueRanges(cs), 14);
    SumNonNegative(t);
  }
}
