/** The per-ticker analyzer (`get_guru_analysis`): it resolves the price, derives
    the float, computes the indicators from the daily bars, adds up the "guru"
    score and the stop-loss figures. Market data arrive already fetched, as a
    `Snapshot`; RSI and ATR are computed by a foreign library and enter as reals. */
module Guru {
  import opened Options

  // The constants of the analyzer.
  const MinBars: nat := 50                  // shorter histories are rejected
  const LongWindow: nat := 200              // SMA200 only for strictly more bars
  const LowFloat: real := 10_000_000.0      // +25 below this float
  const SmallFloat: real := 20_000_000.0    // +15 below this float
  const StopFloor: real := 0.01             // the stop loss never goes below this
  const AtrMultiple: real := 2.5            // stop distance in ATRs

  /** One daily bar of the six-month history. */
  datatype Bar = Bar(high: real, low: real, close: real, volume: real)

  /** What the market-data library returned for one ticker. */
  datatype Snapshot = Snapshot(
    currentPrice: real,         // info.get('currentPrice', 0)
    fastPrice: Option<real>,    // fast_info['last_price']; None when that lookup raises
    dayCloses: seq<real>,       // the closes of the one-day history (backup price)
    floatShares: Option<real>,  // info.get('floatShares', None)
    marketCap: real,            // info.get('marketCap', 0)
    bars: seq<Bar>,             // the six-month daily history, oldest bar first
    rsi: real,                  // RSI(14) at the last bar
    atr: real)                  // ATR(14) at the last bar

  /** The values the score is computed from. */
  datatype Indicators = Indicators(
    price: real, float: Option<real>, volume: real, avgVolume: real,
    sma20: real, sma50: real, sma200: real, closePos: real)

  /** The result dictionary of one analysis. */
  datatype Analysis = Analysis(
    ticker: string, price: real, score: int, floatMillions: real, rvol: real,
    rsi: real, closePct: real, atr: real, stopLoss: real)

  // ---------------------------------------------------------------------------
  // Price and float

  /** The price chain: `currentPrice` unless it is 0, else the fast-info price,
      else the last close of the one-day history, else no price at all. */
  function ResolvePrice(s: Snapshot): (r: Option<real>)
    ensures r.None? <==> s.currentPrice == 0.0 && s.fastPrice.None? && s.dayCloses == []
    ensures s.currentPrice != 0.0 ==> r == Some(s.currentPrice)
    ensures s.currentPrice == 0.0 && s.fastPrice.Some? ==> r == s.fastPrice
    ensures s.currentPrice == 0.0 && s.fastPrice.None? && s.dayCloses != [] ==>
              r == Some(s.dayCloses[|s.dayCloses| - 1])
  {
    if s.currentPrice != 0.0 then Some(s.currentPrice)
    else if s.fastPrice.Some? then s.fastPrice
    else if s.dayCloses != [] then Some(s.dayCloses[|s.dayCloses| - 1])
    else None
  }

  /** A reported float is kept; a missing one is estimated as market cap over
      price, but only for a positive price. */
  function DeriveFloat(reported: Option<real>, marketCap: real, price: real): (f: Option<real>)
    ensures reported.Some? ==> f == reported
    ensures f.Some? <==> reported.Some? || price > 0.0
    ensures reported.None? && price > 0.0 ==> f.value * price == marketCap
  {
    if reported.None? && price > 0.0 then Some(marketCap / price) else reported
  }

  /** Python truthiness of the float: neither None nor zero. */
  predicate Truthy(f: Option<real>) {
    f.Some? && f.value != 0.0
  }

  /** The "Float (M)" column. */
  function FloatMillions(f: Option<real>): (m: real)
    ensures m == 0.0 <==> !Truthy(f)
    ensures Truthy(f) ==> m * 1_000_000.0 == f.value
  {
    if Truthy(f) then f.value / 1_000_000.0 else 0.0
  }

  // ---------------------------------------------------------------------------
  // Trailing means over the bar series

  function Sum(xs: seq<real>): real {
    if xs == [] then 0.0 else Sum(xs[..|xs| - 1]) + xs[|xs| - 1]
  }

  function Mean(xs: seq<real>): real
    requires |xs| > 0
  {
    Sum(xs) / |xs| as real
  }

  /** The last `n` values: the window of a rolling mean read at the last row. */
  function Trailing(xs: seq<real>, n: nat): seq<real>
    requires n <= |xs|
  {
    xs[|xs| - n..]
  }

  function Closes(bars: seq<Bar>): seq<real> {
    seq(|bars|, i requires 0 <= i < |bars| => bars[i].close)
  }

  function Volumes(bars: seq<Bar>): seq<real> {
    seq(|bars|, i requires 0 <= i < |bars| => bars[i].volume)
  }

  lemma RatioInUnit(a: real, b: real)
    ensures b > 0.0 && 0.0 <= a <= b ==> 0.0 <= a / b <= 1.0
    ensures b > 0.0 && a < b ==> a / b < 1.0
  {
  }

  lemma RatioAbove(x: real, y: real, c: real)
    requires y > 0.0
    ensures x / y > c <==> x > c * y
  {
  }

  lemma {:induction false} SumBelow(xs: seq<real>, p: real)
    requires |xs| > 0
    requires forall k :: 0 <= k < |xs| ==> xs[k] < p
    ensures Sum(xs) < |xs| as real * p
  {
    var n := |xs|;
    if n > 1 {
      SumBelow(xs[..n - 1], p);
      assert (n as real) * p == (n - 1) as real * p + p;
    }
  }

  lemma MeanBelow(xs: seq<real>, p: real)
    requires |xs| > 0
    requires forall k :: 0 <= k < |xs| ==> xs[k] < p
    ensures Mean(xs) < p
  {
    SumBelow(xs, p);
  }

  /** Where the last close sits in the last bar's range; 0 for an empty range. */
  function ClosePosition(b: Bar): (r: real)
    ensures b.high - b.low <= 0.0 ==> r == 0.0
    ensures b.low <= b.close <= b.high ==> 0.0 <= r <= 1.0
    ensures b.high - b.low > 0.0 ==> r * (b.high - b.low) == b.close - b.low
  {
    var range := b.high - b.low;
    if range > 0.0 then
      RatioInUnit(b.close - b.low, range);
      (b.close - b.low) / range
    else 0.0
  }

  /** The indicators read at the last bar. */
  function Measure(price: real, float: Option<real>, bars: seq<Bar>): (ind: Indicators)
    requires |bars| >= MinBars
    ensures ind.price == price && ind.float == float && ind.volume == bars[|bars| - 1].volume
    ensures ind.avgVolume * 20.0 == Sum(Trailing(Volumes(bars), 20))
    ensures ind.sma20 * 20.0 == Sum(Trailing(Closes(bars), 20))
    ensures ind.sma50 * 50.0 == Sum(Trailing(Closes(bars), 50))
    ensures |bars| > LongWindow ==> ind.sma200 * 200.0 == Sum(Trailing(Closes(bars), LongWindow))
    ensures |bars| <= LongWindow ==> ind.sma200 == 0.0
    ensures ind.closePos == ClosePosition(bars[|bars| - 1])
  {
    var closes := Closes(bars);
    var last := bars[|bars| - 1];
    Indicators(
      price, float, last.volume, Mean(Trailing(Volumes(bars), 20)),
      Mean(Trailing(closes, 20)), Mean(Trailing(closes, 50)),
      if |bars| > LongWindow then Mean(Trailing(closes, LongWindow)) else 0.0,
      ClosePosition(last))
  }

  // ---------------------------------------------------------------------------
  // The score

  /** Relative volume: today's volume over the 20-bar mean, 0 when that mean is not positive. */
  function Rvol(volume: real, avgVolume: real): (r: real)
    ensures avgVolume <= 0.0 ==> r == 0.0
    ensures avgVolume > 0.0 ==> r * avgVolume == volume
  {
    if avgVolume > 0.0 then volume / avgVolume else 0.0
  }

  /** A. Supply shock. */
  function SupplyPoints(f: Option<real>): int {
    if Truthy(f) && f.value < LowFloat then 25
    else if Truthy(f) && f.value < SmallFloat then 15
    else 0
  }

  /** B. Volume blast: more shares traded today than the whole float. */
  function TurnoverPoints(f: Option<real>, volume: real): int {
    if Truthy(f) && volume > f.value then 25 else 0
  }

  /** C. Relative volume tiers. */
  function RvolPoints(rvol: real): int {
    if rvol > 5.0 then 20 else if rvol > 3.0 then 10 else 0
  }

  /** D. Trend, short and long. */
  function TrendPoints(ind: Indicators): int {
    if ind.price > ind.sma20 && ind.price > ind.sma50 then 10 else 0
  }

  function LongTrendPoints(ind: Indicators): int {
    if ind.price > ind.sma200 then 5 else 0
  }

  /** E. Price action: a close in the top quarter of the day's range. */
  function PriceActionPoints(ind: Indicators): int {
    if ind.closePos > 0.75 then 15 else 0
  }

  function Score(ind: Indicators): (score: int)
    ensures 0 <= score <= 100
  {
    SupplyPoints(ind.float) + TurnoverPoints(ind.float, ind.volume)
    + RvolPoints(Rvol(ind.volume, ind.avgVolume))
    + TrendPoints(ind) + LongTrendPoints(ind) + PriceActionPoints(ind)
  }

  /** All six conditions of the score at once. */
  predicate AllTermsFire(ind: Indicators) {
    && Truthy(ind.float) && ind.float.value < LowFloat
    && ind.volume > ind.float.value
    && Rvol(ind.volume, ind.avgVolume) > 5.0
    && ind.price > ind.sma20 && ind.price > ind.sma50
    && ind.price > ind.sma200
    && ind.closePos > 0.75
  }

  /** 100 = 25 + 25 + 20 + 10 + 5 + 15, and nothing else reaches it. */
  lemma PerfectScore(ind: Indicators)
    ensures Score(ind) == 100 <==> AllTermsFire(ind)
  {
  }

  /** The two float tiers exclude each other, and a falsy float earns neither
      them nor the turnover term. */
  lemma FloatTiers(f: Option<real>, volume: real)
    ensures SupplyPoints(f) == 25 <==> Truthy(f) && f.value < LowFloat
    ensures SupplyPoints(f) == 15 <==> Truthy(f) && LowFloat <= f.value < SmallFloat
    ensures SupplyPoints(f) == 0 <==> !Truthy(f) || f.value >= SmallFloat
    ensures TurnoverPoints(f, volume) == 25 <==> Truthy(f) && volume > f.value
    ensures !Truthy(f) ==> SupplyPoints(f) + TurnoverPoints(f, volume) == 0
  {
  }

  /** The relative-volume tiers in terms of the two volumes. */
  lemma RvolTiers(volume: real, avgVolume: real)
    ensures RvolPoints(Rvol(volume, avgVolume)) == 20 <==> avgVolume > 0.0 && volume > 5.0 * avgVolume
    ensures RvolPoints(Rvol(volume, avgVolume)) == 10 <==>
              avgVolume > 0.0 && 3.0 * avgVolume < volume <= 5.0 * avgVolume
  {
    if avgVolume > 0.0 {
      RatioAbove(volume, avgVolume, 5.0);
      RatioAbove(volume, avgVolume, 3.0);
    }
  }

  /** With at most 200 bars the long-trend term compares against 0, so every
      positive price earns it. */
  lemma ShortHistoryLongTrend(price: real, float: Option<real>, bars: seq<Bar>)
    requires MinBars <= |bars| <= LongWindow
    ensures Measure(price, float, bars).sma200 == 0.0
    ensures LongTrendPoints(Measure(price, float, bars)) == 5 <==> price > 0.0
  {
  }

  /** A price above every close of the last 50 bars lies above both moving
      averages of the trend term. */
  lemma TrendFromRecentCloses(price: real, float: Option<real>, bars: seq<Bar>)
    requires |bars| >= MinBars
    requires forall k :: |bars| - 50 <= k < |bars| ==> bars[k].close < price
    ensures TrendPoints(Measure(price, float, bars)) == 10
  {
    var closes := Closes(bars);
    var w20, w50 := Trailing(closes, 20), Trailing(closes, 50);
    forall k | 0 <= k < 20 ensures w20[k] < price {
      assert w20[k] == bars[|bars| - 20 + k].close;
    }
    forall k | 0 <= k < 50 ensures w50[k] < price {
      assert w50[k] == bars[|bars| - 50 + k].close;
    }
    MeanBelow(w20, price);
    MeanBelow(w50, price);
  }

  // ---------------------------------------------------------------------------
  // Risk

  /** `max(price - 2.5 * atr, 0.01)`. */
  function StopLoss(price: real, atr: real): (stop: real)
    ensures stop >= StopFloor
    ensures stop >= price - AtrMultiple * atr
    ensures stop == StopFloor || stop == price - AtrMultiple * atr
  {
    if StopFloor > price - AtrMultiple * atr then StopFloor else price - AtrMultiple * atr
  }

  /** The "Riesgo %" column, computed by the batch loop for kept results. */
  function RiskPct(price: real, stop: real): (r: real)
    requires price != 0.0
    ensures r * price == (price - stop) * 100.0
    ensures 0.0 < stop <= price ==> 0.0 <= r < 100.0
  {
    var q := (price - stop) / price;
    RatioInUnit(price - stop, price);
    q * 100.0
  }

  /** For a non-negative ATR and a price at or above the floor, the stop lies in
      (0, price], so the risk is a percentage in [0, 100). */
  lemma RiskBounds(price: real, atr: real)
    requires atr >= 0.0 && price >= StopFloor
    ensures 0.0 < StopLoss(price, atr) <= price
    ensures 0.0 <= RiskPct(price, StopLoss(price, atr)) < 100.0
  {
    var stop := StopLoss(price, atr);
    var q := (price - stop) / price;
    assert q * price == price - stop;
    assert 0.0 <= q < 1.0;
  }

  // ---------------------------------------------------------------------------
  // The analyzer

  /** `get_guru_analysis`: None when the data could not be fetched (`snap` is
      None), when no price resolves, or when fewer than 50 bars came back. */
  function Analyze(ticker: string, snap: Option<Snapshot>): (r: Option<Analysis>)
    ensures r.None? <==> snap.None? || ResolvePrice(snap.value).None? || |snap.value.bars| < MinBars
    ensures r.Some? ==>
              && r.value.ticker == ticker
              && ResolvePrice(snap.value) == Some(r.value.price)
              && 0 <= r.value.score <= 100
              && r.value.stopLoss >= StopFloor
              && r.value.rsi == snap.value.rsi && r.value.atr == snap.value.atr
    ensures r.Some? ==>
              var s := snap.value;
              var f := DeriveFloat(s.floatShares, s.marketCap, r.value.price);
              var ind := Measure(r.value.price, f, s.bars);
              && r.value.score == Score(ind)
              && r.value.floatMillions == FloatMillions(f)
              && (r.value.floatMillions == 0.0 <==> !Truthy(f))
              && r.value.rvol == Rvol(ind.volume, ind.avgVolume)
              && r.value.stopLoss == StopLoss(r.value.price, s.atr)
    ensures r.Some? ==>
              var last := snap.value.bars[|snap.value.bars| - 1];
              && r.value.closePct == ClosePosition(last) * 100.0
              && (last.low <= last.close <= last.high ==> 0.0 <= r.value.closePct <= 100.0)
  {
    if snap.None? then None
    else
      var s := snap.value;
      match ResolvePrice(s)
      case None => None
      case Some(price) =>
        if |s.bars| < MinBars then None
        else
          var f := DeriveFloat(s.floatShares, s.marketCap, price);
          var ind := Measure(price, f, s.bars);
          Some(Analysis(
            ticker, price, Score(ind), FloatMillions(f),
            Rvol(ind.volume, ind.avgVolume), s.rsi, ind.closePos * 100.0,
            s.atr, StopLoss(price, s.atr)))
  }
}
