/** detect_trade (ai_engine.py:103-144): from a candle window to at most one BUY or SELL signal. */
module Detector {
  import opened Wrappers
  import opened Candles

  const MinCandles: nat := 60
  const RiskRewardRatio: real := 2.0
  const MinBosDistance: real := 50.0
  const MinObVolume: real := 50.0

  datatype Direction = Buy | Sell

  /** The candles kept with a signal: the one before the break (`bos`) and the entry candle. */
  datatype Setup = Setup(bos: Candle, entryCandle: Candle)

  /** `timestamp` is the detection time (datetime.now in the source), supplied by the caller. */
  datatype Signal = Signal(direction: Direction, entry: real, sl: real, tp: real,
                           time: string, timestamp: string, setup: Setup)

  /** An order-block candle: heavy volume and a body of at least a tenth of its range. */
  predicate IsOrderBlock(ob: Candle) {
    ob.volume > MinObVolume && Abs(ob.close - ob.open) >= 0.1 * (ob.high - ob.low)
  }

  /** Python's any(...) over the window `candles[-5:-2]`. */
  predicate HasOrderBlock(window: seq<Candle>) {
    exists i :: 0 <= i < |window| && IsOrderBlock(window[i])
  }

  // The conditions of ai_engine.py:111-128, each over the window as the source computes it
  // (negative slices, `closes[-60:]`). All are used only on windows of at least 60 candles.

  /** `mtf_bull`: mean of the last 9 of `closes[-60:]` above the mean of its last 21. */
  predicate MtfBull(cs: seq<Candle>) {
    TrailingMean(Tail(Closes(cs), 60), 9) > TrailingMean(Tail(Closes(cs), 60), 21)
  }

  /** `mtf_bear`: the strict opposite comparison. */
  predicate MtfBear(cs: seq<Candle>) {
    TrailingMean(Tail(Closes(cs), 60), 9) < TrailingMean(Tail(Closes(cs), 60), 21)
  }

  /** `bos_up`: candles[-2].high above candles[-3].high by more than the minimum distance. */
  predicate BosUp(cs: seq<Candle>) requires |cs| >= 3 {
    cs[|cs| - 2].high > cs[|cs| - 3].high + MinBosDistance
  }

  /** `bos_down`: candles[-2].low below candles[-3].low by more than the minimum distance. */
  predicate BosDown(cs: seq<Candle>) requires |cs| >= 3 {
    cs[|cs| - 2].low < cs[|cs| - 3].low - MinBosDistance
  }

  /** `valid_ob`: an order block among candles[-5:-2]. */
  predicate ValidOb(cs: seq<Candle>) requires |cs| >= 5 {
    HasOrderBlock(cs[|cs| - 5..|cs| - 2])
  }

  /** `volume_spike`: last volume above 1.5 times the mean of `volumes[-5:-1]`. */
  predicate VolumeSpike(cs: seq<Candle>) requires |cs| >= 5 {
    var volumes := Volumes(cs);
    volumes[|cs| - 1] > 1.5 * Sum(volumes[|cs| - 5..|cs| - 1]) / 4.0
  }

  /** Last low at or under both means, and a close above its open and the previous close. */
  predicate BullishEntry(cs: seq<Candle>) requires |cs| >= 2 {
    var last, prev := cs[|cs| - 1], cs[|cs| - 2];
    last.low <= Min(TrailingMean(Closes(cs), 9), TrailingMean(Closes(cs), 21))
    && last.close > Max(last.open, prev.close)
  }

  /** Last high at or over both means, and a close under its open and the previous close. */
  predicate BearishEntry(cs: seq<Candle>) requires |cs| >= 2 {
    var last, prev := cs[|cs| - 1], cs[|cs| - 2];
    last.high >= Max(TrailingMean(Closes(cs), 9), TrailingMean(Closes(cs), 21))
    && last.close < Min(last.open, prev.close)
  }

  /** The condition of the BUY branch (ai_engine.py:129). */
  predicate BullishTrigger(cs: seq<Candle>) requires |cs| >= MinCandles {
    MtfBull(cs) && BosUp(cs) && ValidOb(cs) && BullishEntry(cs) && VolumeSpike(cs)
  }

  /** The condition of the SELL branch (ai_engine.py:136). */
  predicate BearishTrigger(cs: seq<Candle>) requires |cs| >= MinCandles {
    MtfBear(cs) && BosDown(cs) && ValidOb(cs) && BearishEntry(cs) && VolumeSpike(cs)
  }

  /** The BUY signal of ai_engine.py:130-134. */
  function BuySignal(cs: seq<Candle>, now: string): (s: Signal)
    requires |cs| >= MinCandles
    ensures s.direction == Buy
    ensures s.tp - s.entry == RiskRewardRatio * (s.entry - s.sl)
  {
    var last := cs[|cs| - 1];
    var entry, sl := last.high, last.low - Atr(cs) * 0.5;
    var tp := entry + RiskRewardRatio * (entry - sl);
    Signal(Buy, entry, sl, tp, last.time, now, Setup(cs[|cs| - 3], last))
  }

  /** The SELL signal of ai_engine.py:137-141. */
  function SellSignal(cs: seq<Candle>, now: string): (s: Signal)
    requires |cs| >= MinCandles
    ensures s.direction == Sell
    ensures s.entry - s.tp == RiskRewardRatio * (s.sl - s.entry)
  {
    var last := cs[|cs| - 1];
    var entry, sl := last.low, last.high + Atr(cs) * 0.5;
    var tp := entry - RiskRewardRatio * (sl - entry);
    Signal(Sell, entry, sl, tp, last.time, now, Setup(cs[|cs| - 3], last))
  }

  function DetectTrade(candles: seq<Candle>, now: string): (r: Option<Signal>)
    ensures r.Some? ==> |candles| >= MinCandles
    ensures r.Some? ==>
      && r.value.setup.entryCandle == candles[|candles| - 1]
      && r.value.setup.bos == candles[|candles| - 3]
      && r.value.time == candles[|candles| - 1].time
      && r.value.timestamp == now
    ensures r.Some? && r.value.direction == Buy ==>
      r.value.tp - r.value.entry == RiskRewardRatio * (r.value.entry - r.value.sl)
    ensures r.Some? && r.value.direction == Sell ==>
      r.value.entry - r.value.tp == RiskRewardRatio * (r.value.sl - r.value.entry)
  {
    if |candles| < MinCandles then None
    else if BullishTrigger(candles) then Some(BuySignal(candles, now))
    else if BearishTrigger(candles) then Some(SellSignal(candles, now))
    else None
  }

  // ---------------------------------------------------------------------------------------
  // A reference statement of the two setups, written on candle positions instead of the
  // source's negative slices.

  /** Mean close of the last k candles. */
  function AvgClose(cs: seq<Candle>, k: nat): real
    requires 0 < k <= |cs|
  {
    Sum(Closes(cs[|cs| - k..])) / (k as real)
  }

  /** Bullish setup on a window of at least 60 candles, n = |cs|. */
  predicate BuySetup(cs: seq<Candle>)
    requires |cs| >= MinCandles
  {
    var n := |cs|;
    var last, prev := cs[n - 1], cs[n - 2];
    && AvgClose(cs, 9) > AvgClose(cs, 21)
    && cs[n - 2].high > cs[n - 3].high + 50.0
    && (IsOrderBlock(cs[n - 5]) || IsOrderBlock(cs[n - 4]) || IsOrderBlock(cs[n - 3]))
    && last.low <= AvgClose(cs, 9) && last.low <= AvgClose(cs, 21)
    && last.close > last.open && last.close > prev.close
    && last.volume * 4.0 > 1.5 * (cs[n - 5].volume + cs[n - 4].volume + cs[n - 3].volume + cs[n - 2].volume)
  }

  /** Bearish setup: the mirror of BuySetup. */
  predicate SellSetup(cs: seq<Candle>)
    requires |cs| >= MinCandles
  {
    var n := |cs|;
    var last, prev := cs[n - 1], cs[n - 2];
    && AvgClose(cs, 9) < AvgClose(cs, 21)
    && cs[n - 2].low < cs[n - 3].low - 50.0
    && (IsOrderBlock(cs[n - 5]) || IsOrderBlock(cs[n - 4]) || IsOrderBlock(cs[n - 3]))
    && last.high >= AvgClose(cs, 9) && last.high >= AvgClose(cs, 21)
    && last.close < last.open && last.close < prev.close
    && last.volume * 4.0 > 1.5 * (cs[n - 5].volume + cs[n - 4].volume + cs[n - 3].volume + cs[n - 2].volume)
  }

  lemma TailClosesMean(cs: seq<Candle>, k: nat)
    requires 0 < k <= 60 <= |cs|
    ensures TrailingMean(Tail(Closes(cs), 60), k) == AvgClose(cs, k)
    ensures TrailingMean(Closes(cs), k) == AvgClose(cs, k)
  {
    TailOfTail(Closes(cs), k, 60);
    assert Tail(Closes(cs), k) == Closes(cs[|cs| - k..]);
  }

  lemma SumOfFour(xs: seq<real>)
    requires |xs| == 4
    ensures Sum(xs) == xs[0] + xs[1] + xs[2] + xs[3]
  {
    var a, b, c := xs[..3], xs[..2], xs[..1];
    assert a[..2] == b && b[..1] == c && c[..0] == [];
    assert Sum(c) == xs[0];
    assert Sum(b) == xs[0] + xs[1];
    assert Sum(a) == xs[0] + xs[1] + xs[2];
  }

  lemma WindowFacts(cs: seq<Candle>)
    requires |cs| >= MinCandles
    ensures var n := |cs|;
      HasOrderBlock(cs[n - 5..n - 2]) <==>
        (IsOrderBlock(cs[n - 5]) || IsOrderBlock(cs[n - 4]) || IsOrderBlock(cs[n - 3]))
    ensures var n := |cs|;
      Sum(Volumes(cs)[n - 5..n - 1]) == cs[n - 5].volume + cs[n - 4].volume + cs[n - 3].volume + cs[n - 2].volume
  {
    var n := |cs|;
    var w := cs[n - 5..n - 2];
    assert w[0] == cs[n - 5] && w[1] == cs[n - 4] && w[2] == cs[n - 3];
    SumOfFour(Volumes(cs)[n - 5..n - 1]);
  }

  /** The trend and entry conditions, read on candle positions. */
  lemma MeansOnPositions(cs: seq<Candle>)
    requires |cs| >= MinCandles
    ensures MtfBull(cs) <==> AvgClose(cs, 9) > AvgClose(cs, 21)
    ensures MtfBear(cs) <==> AvgClose(cs, 9) < AvgClose(cs, 21)
    ensures var last, prev := cs[|cs| - 1], cs[|cs| - 2];
      BullishEntry(cs) <==>
        (last.low <= AvgClose(cs, 9) && last.low <= AvgClose(cs, 21) && last.close > last.open && last.close > prev.close)
    ensures var last, prev := cs[|cs| - 1], cs[|cs| - 2];
      BearishEntry(cs) <==>
        (last.high >= AvgClose(cs, 9) && last.high >= AvgClose(cs, 21) && last.close < last.open && last.close < prev.close)
  {
    TailClosesMean(cs, 9);
    TailClosesMean(cs, 21);
  }

  /** The order-block and volume conditions, read on candle positions. */
  lemma WindowOnPositions(cs: seq<Candle>)
    requires |cs| >= MinCandles
    ensures var n := |cs|;
      ValidOb(cs) <==> (IsOrderBlock(cs[n - 5]) || IsOrderBlock(cs[n - 4]) || IsOrderBlock(cs[n - 3]))
    ensures var n := |cs|;
      VolumeSpike(cs) <==>
        cs[n - 1].volume * 4.0 > 1.5 * (cs[n - 5].volume + cs[n - 4].volume + cs[n - 3].volume + cs[n - 2].volume)
  {
    WindowFacts(cs);
  }

  /** The BUY branch's condition is exactly the bullish setup, and the SELL branch's the bearish one. */
  lemma TriggersMatchSetups(cs: seq<Candle>)
    requires |cs| >= MinCandles
    ensures BullishTrigger(cs) <==> BuySetup(cs)
    ensures BearishTrigger(cs) <==> SellSetup(cs)
  {
    MeansOnPositions(cs);
    WindowOnPositions(cs);
  }

  /** The bullish and bearish setups never hold together: the two mean comparisons are strict opposites. */
  lemma SetupsExclusive(cs: seq<Candle>)
    requires |cs| >= MinCandles
    ensures !(BuySetup(cs) && SellSetup(cs))
  {
  }

  /** A BUY is produced exactly when the window has at least 60 candles and the bullish setup holds. */
  lemma DetectBuyIff(cs: seq<Candle>, now: string)
    ensures (DetectTrade(cs, now).Some? && DetectTrade(cs, now).value.direction == Buy)
        <==> (|cs| >= MinCandles && BuySetup(cs))
  {
    if |cs| >= MinCandles {
      TriggersMatchSetups(cs);
    }
  }

  /** A SELL is produced exactly when the window has at least 60 candles and the bearish setup holds. */
  lemma DetectSellIff(cs: seq<Candle>, now: string)
    ensures (DetectTrade(cs, now).Some? && DetectTrade(cs, now).value.direction == Sell)
        <==> (|cs| >= MinCandles && SellSetup(cs))
  {
    if |cs| >= MinCandles {
      TriggersMatchSetups(cs);
      SetupsExclusive(cs);
    }
  }

  /** No signal exactly when the window is short or neither setup holds. */
  lemma DetectNoneIff(cs: seq<Candle>, now: string)
    ensures DetectTrade(cs, now).None? <==> (|cs| < MinCandles || (!BuySetup(cs) && !SellSetup(cs)))
  {
    DetectBuyIff(cs, now);
    DetectSellIff(cs, now);
  }

  /** Levels of a BUY: entry at the last high, stop half an ATR under the last low, reward twice the
      risk; with high >= low on the last candle, sl <= entry <= tp. */
  lemma BuyLevels(cs: seq<Candle>, now: string)
    requires DetectTrade(cs, now).Some? && DetectTrade(cs, now).value.direction == Buy
    ensures var s, last := DetectTrade(cs, now).value, cs[|cs| - 1];
      && s.entry == last.high
      && s.sl == last.low - Atr(cs) * 0.5
      && s.tp == s.entry + 2.0 * (s.entry - s.sl)
      && (last.low <= last.high ==> s.sl <= s.entry <= s.tp)
  {
    assert |cs| >= MinCandles && BullishTrigger(cs);
    AtrNonNegative(cs);
  }

  /** Levels of a SELL, the mirror of BuyLevels: tp <= entry <= sl when high >= low. */
  lemma SellLevels(cs: seq<Candle>, now: string)
    requires DetectTrade(cs, now).Some? && DetectTrade(cs, now).value.direction == Sell
    ensures var s, last := DetectTrade(cs, now).value, cs[|cs| - 1];
      && s.entry == last.low
      && s.sl == last.high + Atr(cs) * 0.5
      && s.tp == s.entry - 2.0 * (s.sl - s.entry)
      && (last.low <= last.high ==> s.tp <= s.entry <= s.sl)
  {
    assert |cs| >= MinCandles && !BullishTrigger(cs) && BearishTrigger(cs);
    AtrNonNegative(cs);
  }

  /** Both directions put the stop at the same distance from the entry: the entry candle's range
      plus half the ATR. */
  lemma StopDistance(cs: seq<Candle>, now: string)
    requires DetectTrade(cs, now).Some?
    ensures var s, last := DetectTrade(cs, now).value, cs[|cs| - 1];
      Abs(s.entry - s.sl) == Abs((last.high - last.low) + Atr(cs) * 0.5)
  {
    var s, last := DetectTrade(cs, now).value, cs[|cs| - 1];
    if s.direction == Buy {
      BuyLevels(cs, now);
    } else {
      SellLevels(cs, now);
    }
    AbsOfEither(s.entry - s.sl, (last.high - last.low) + Atr(cs) * 0.5);
  }

  lemma AbsOfEither(x: real, y: real)
    requires x == y || x == -y
    ensures Abs(x) == Abs(y)
  {
  }
}
