/** The feature folds of the composer, over exact reals. */
module Features {
  import opened Ordering
  import opened Reals

  datatype Side = Buy | Sell | NoSide

  /** The fields of a raw event that features read; a value that is no finite number is none. */
  datatype Body =
    | Trade(price: Option<real>, quantity: Option<real>, side: Side)
    | Candle(interval: Option<int>, isFinal: bool, high: Option<real>, low: Option<real>, close: Option<real>)
    | OpenInterest(value: Option<real>)
    | OtherBody

  datatype MarketEvent = MarketEvent(symbol: string, ts: Option<int>, body: Body)

  const WINDOW_3M := 180000
  const ATR_WINDOW := 14
  const Z_WINDOW := 50

  // ----- Trades of the last three minutes -----

  predicate IsTradeIn(event: MarketEvent, symbol: string, start: int, end: int) {
    event.symbol == symbol && event.body.Trade? && event.ts.Some? && start <= event.ts.value <= end
  }

  function TradesIn(events: seq<MarketEvent>, symbol: string, start: int, end: int): seq<MarketEvent> {
    Filter((e: MarketEvent) => IsTradeIn(e, symbol, start, end), events)
  }

  method TradeEvents(events: seq<MarketEvent>, symbol: string, start: int, end: int) returns (trades: seq<MarketEvent>)
    ensures trades == TradesIn(events, symbol, start, end)
  {
    trades := [];
    var i := 0;
    while i < |events|
      invariant i <= |events|
      invariant trades + TradesIn(events[i..], symbol, start, end) == TradesIn(events, symbol, start, end)
    {
      assert events[i..][1..] == events[i + 1..];
      if events[i].symbol == symbol && events[i].body.Trade? && events[i].ts.Some? {
        var ts := events[i].ts.value;
        if !(ts < start) && !(ts > end) {
          trades := trades + [events[i]];
        }
      }
      i := i + 1;
    }
  }

  /** A trade with a positive quantity. */
  predicate HasQuantity(e: MarketEvent) {
    e.body.Trade? && e.body.quantity.Some? && e.body.quantity.value > 0.0
  }

  predicate IsPriced(e: MarketEvent) {
    HasQuantity(e) && e.body.price.Some?
  }

  function Notional(trades: seq<MarketEvent>): real {
    if |trades| == 0 then 0.0
    else
      var last := trades[|trades| - 1];
      Notional(trades[..|trades| - 1])
        + (if IsPriced(last) then last.body.price.value * last.body.quantity.value else 0.0)
  }

  function PricedQuantity(trades: seq<MarketEvent>): real {
    if |trades| == 0 then 0.0
    else
      var last := trades[|trades| - 1];
      PricedQuantity(trades[..|trades| - 1]) + (if IsPriced(last) then last.body.quantity.value else 0.0)
  }

  function Vwap(trades: seq<MarketEvent>): Option<real> {
    if PricedQuantity(trades) <= 0.0 then None else Some(Notional(trades) / PricedQuantity(trades))
  }

  method Vwap3m(events: seq<MarketEvent>, symbol: string, now: int) returns (vwap: Option<real>)
    ensures vwap == Vwap(TradesIn(events, symbol, now - WINDOW_3M, now))
  {
    hide Notional, PricedQuantity, TradesIn;
    var trades := TradeEvents(events, symbol, now - WINDOW_3M, now);
    var quantity, notional := 0.0, 0.0;
    var i := 0;
    NothingPriced();
    assert trades[..0] == [];
    while i < |trades|
      invariant i <= |trades|
      invariant quantity == PricedQuantity(trades[..i]) && notional == Notional(trades[..i])
    {
      NotionalStep(trades, i);
      var t := trades[i];
      if t.body.Trade? && t.body.price.Some? && t.body.quantity.Some? && t.body.quantity.value > 0.0 {
        quantity := quantity + t.body.quantity.value;
        notional := notional + t.body.price.value * t.body.quantity.value;
      }
      i := i + 1;
    }
    assert trades[..i] == trades;
    if quantity <= 0.0 {
      return None;
    }
    return Some(notional / quantity);
  }

  lemma {:induction false} NotionalBounds(trades: seq<MarketEvent>, low: real, high: real)
    requires forall i :: 0 <= i < |trades| && IsPriced(trades[i]) ==> low <= trades[i].body.price.value <= high
    ensures low * PricedQuantity(trades) <= Notional(trades) <= high * PricedQuantity(trades)
    ensures PricedQuantity(trades) >= 0.0
  {
    hide Notional, PricedQuantity;
    if |trades| == 0 {
      NothingPriced();
    } else {
      var n := |trades| - 1;
      NotionalBounds(trades[..n], low, high);
      NotionalStep(trades, n);
      assert trades[..n + 1] == trades;
      if IsPriced(trades[n]) {
        WithinBounds(low, high, PricedQuantity(trades[..n]), Notional(trades[..n]), trades[n].body.price.value,
                     trades[n].body.quantity.value);
      }
    }
  }

  lemma WithinBounds(low: real, high: real, total: real, notional: real, p: real, q: real)
    requires low * total <= notional <= high * total && low <= p <= high && q > 0.0
    ensures low * (total + q) <= notional + p * q <= high * (total + q)
  {
    AddProducts(low, total, p, q);
    AddProducts(-high, total, -p, q);
    Negate(high, total, p, q);
  }

  lemma Negate(high: real, total: real, p: real, q: real)
    ensures -high * (total + q) == -(high * (total + q)) && -high * total == -(high * total) && -p * q == -(p * q)
  {
  }

  lemma NothingPriced()
    ensures Notional([]) == 0.0 && PricedQuantity([]) == 0.0
  {
  }

  lemma NotionalStep(trades: seq<MarketEvent>, i: nat)
    requires i < |trades|
    ensures var t := trades[i];
            && Notional(trades[..i + 1])
               == Notional(trades[..i]) + (if IsPriced(t) then t.body.price.value * t.body.quantity.value else 0.0)
            && PricedQuantity(trades[..i + 1])
               == PricedQuantity(trades[..i]) + (if IsPriced(t) then t.body.quantity.value else 0.0)
  {
    assert trades[..i + 1][..i] == trades[..i];
  }

  lemma AddProducts(low: real, total: real, p: real, q: real)
    ensures low <= p && q >= 0.0 ==> low * (total + q) <= low * total + p * q
  {
    assert low * (total + q) == low * total + low * q;
    if low <= p && q >= 0.0 { assert (p - low) * q >= 0.0; }
  }

  /** The volume weighted price lies between any bounds on the prices of the trades that count. */
  lemma VwapIsAnAverage(trades: seq<MarketEvent>, low: real, high: real)
    requires forall i :: 0 <= i < |trades| && IsPriced(trades[i]) ==> low <= trades[i].body.price.value <= high
    ensures Vwap(trades).Some? ==> low <= Vwap(trades).value <= high
  {
    NotionalBounds(trades, low, high);
    if Vwap(trades).Some? {
      QuotientBounds(Notional(trades), PricedQuantity(trades), low, high);
    }
  }

  lemma QuotientBounds(n: real, q: real, low: real, high: real)
    requires q > 0.0 && low * q <= n <= high * q
    ensures low <= n / q <= high
  {
    var x := n / q;
    assert x * q == n;
    NotNegative(x - low, q);
    NotNegative(high - x, q);
  }

  lemma NotNegative(a: real, q: real)
    requires q > 0.0 && a * q >= 0.0
    ensures a >= 0.0
  {
  }

  function SideQuantity(trades: seq<MarketEvent>, side: Side): real {
    if |trades| == 0 then 0.0
    else
      var last := trades[|trades| - 1];
      SideQuantity(trades[..|trades| - 1], side)
      + (if HasQuantity(last) && last.body.side == side then last.body.quantity.value else 0.0)
  }

  lemma NoSideQuantity()
    ensures SideQuantity([], Buy) == 0.0 && SideQuantity([], Sell) == 0.0
  {
  }

  lemma SideQuantityStep(trades: seq<MarketEvent>, i: nat, side: Side)
    requires i < |trades|
    ensures SideQuantity(trades[..i + 1], side)
         == SideQuantity(trades[..i], side)
            + (if HasQuantity(trades[i]) && trades[i].body.side == side then trades[i].body.quantity.value else 0.0)
  {
    assert trades[..i + 1][..i] == trades[..i];
  }

  predicate IsSided(e: MarketEvent) {
    HasQuantity(e) && e.body.side != NoSide
  }

  method Cvd3m(events: seq<MarketEvent>, symbol: string, now: int) returns (cvd: Option<real>)
    ensures var trades := TradesIn(events, symbol, now - WINDOW_3M, now);
            cvd == if exists i :: 0 <= i < |trades| && IsSided(trades[i])
                   then Some(SideQuantity(trades, Buy) - SideQuantity(trades, Sell)) else None
  {
    hide SideQuantity, TradesIn;
    var trades := TradeEvents(events, symbol, now - WINDOW_3M, now);
    var total, eligible := 0.0, 0;
    var i := 0;
    NoSideQuantity();
    assert trades[..0] == [];
    while i < |trades|
      invariant 0 <= i <= |trades| && eligible >= 0
      invariant total == SideQuantity(trades[..i], Buy) - SideQuantity(trades[..i], Sell)
      invariant eligible > 0 <==> exists k :: 0 <= k < i && IsSided(trades[k])
    {
      SideQuantityStep(trades, i, Buy);
      SideQuantityStep(trades, i, Sell);
      var t := trades[i];
      if t.body.Trade? && t.body.side != NoSide && t.body.quantity.Some? && t.body.quantity.value > 0.0 {
        eligible := eligible + 1;
        if t.body.side == Buy {
          total := total + t.body.quantity.value;
        } else {
          total := total - t.body.quantity.value;
        }
      }
      i := i + 1;
    }
    assert trades[..i] == trades;
    return if eligible == 0 then None else Some(total);
  }

  method AggressiveVolumeRatio3m(events: seq<MarketEvent>, symbol: string, now: int) returns (ratio: Option<real>)
    ensures var trades := TradesIn(events, symbol, now - WINDOW_3M, now);
            var total := SideQuantity(trades, Buy) + SideQuantity(trades, Sell);
            ratio == if total <= 0.0 then None else Some(SideQuantity(trades, Buy) / total)
  {
    hide SideQuantity, TradesIn;
    var trades := TradeEvents(events, symbol, now - WINDOW_3M, now);
    var buy, sell := 0.0, 0.0;
    var i := 0;
    NoSideQuantity();
    assert trades[..0] == [];
    while i < |trades|
      invariant i <= |trades|
      invariant buy == SideQuantity(trades[..i], Buy) && sell == SideQuantity(trades[..i], Sell)
    {
      SideQuantityStep(trades, i, Buy);
      SideQuantityStep(trades, i, Sell);
      var t := trades[i];
      if t.body.Trade? && t.body.side != NoSide && t.body.quantity.Some? && t.body.quantity.value > 0.0 {
        if t.body.side == Buy {
          buy := buy + t.body.quantity.value;
        } else {
          sell := sell + t.body.quantity.value;
        }
      }
      i := i + 1;
    }
    assert trades[..i] == trades;
    var total := buy + sell;
    if total <= 0.0 {
      return None;
    }
    return Some(buy / total);
  }

  lemma {:induction false} SideQuantityPositive(trades: seq<MarketEvent>)
    ensures SideQuantity(trades, Buy) >= 0.0 && SideQuantity(trades, Sell) >= 0.0
    ensures SideQuantity(trades, Buy) + SideQuantity(trades, Sell) > 0.0
            <==> exists i :: 0 <= i < |trades| && IsSided(trades[i])
  {
    if |trades| > 0 {
      var n := |trades| - 1;
      var before := trades[..n];
      SideQuantityPositive(before);
      if i :| 0 <= i < |before| && IsSided(before[i]) { assert IsSided(trades[i]); }
      if i :| 0 <= i < |trades| && IsSided(trades[i]) { assert i < n ==> IsSided(before[i]); }
    }
  }

  /** The two flow features are present for the same events, the ratio is a proportion, and the one determines the
      other up to the volume: the delta is the volume times twice the ratio less one. */
  lemma FlowFeaturesAgree(trades: seq<MarketEvent>)
    ensures var buy, sell := SideQuantity(trades, Buy), SideQuantity(trades, Sell);
            && (buy + sell > 0.0 <==> exists i :: 0 <= i < |trades| && IsSided(trades[i]))
            && (buy + sell > 0.0 ==>
                  var ratio := buy / (buy + sell);
                  0.0 <= ratio <= 1.0 && buy - sell == (buy + sell) * (2.0 * ratio - 1.0))
  {
    SideQuantityPositive(trades);
    var buy, sell := SideQuantity(trades, Buy), SideQuantity(trades, Sell);
    if buy + sell > 0.0 {
      QuotientBounds(buy, buy + sell, 0.0, 1.0);
      assert buy / (buy + sell) * (buy + sell) == buy;
      assert (buy + sell) * (2.0 * (buy / (buy + sell)) - 1.0)
             == 2.0 * (buy / (buy + sell) * (buy + sell)) - (buy + sell);
    }
  }

  // ----- Candles and true ranges -----

  datatype Bar = Bar(ts: int, index: int, high: real, low: real, close: real)

  predicate IsBar(e: MarketEvent, symbol: string, now: int) {
    && e.symbol == symbol && e.body.Candle? && e.ts.Some? && e.ts.value <= now
    && e.body.interval == Some(WINDOW_3M) && e.body.isFinal
    && e.body.high.Some? && e.body.low.Some? && e.body.close.Some?
  }

  function BarsOf(events: seq<MarketEvent>, symbol: string, now: int): seq<Bar> {
    if |events| == 0 then []
    else
      var n := |events| - 1;
      var last := events[n];
      BarsOf(events[..n], symbol, now)
      + (if IsBar(last, symbol, now)
         then [Bar(last.ts.value, n, last.body.high.value, last.body.low.value, last.body.close.value)] else [])
  }

  predicate EarlierBar(a: Bar, b: Bar) {
    a.ts < b.ts || (a.ts == b.ts && a.index <= b.index)
  }

  /** In place, by time and then by position. */
  method EligibleCandles(events: seq<MarketEvent>, symbol: string, now: int) returns (candles: seq<Bar>)
    ensures candles == Sort(EarlierBar, BarsOf(events, symbol, now))
  {
    candles := [];
    var i := 0;
    while i < |events|
      invariant i <= |events|
      invariant candles == BarsOf(events[..i], symbol, now)
    {
      assert events[..i + 1][..i] == events[..i];
      var e := events[i];
      if IsBar(e, symbol, now) {
        candles := candles + [Bar(e.ts.value, i, e.body.high.value, e.body.low.value, e.body.close.value)];
      }
      i := i + 1;
    }
    assert events[..i] == events;
    candles := Sort(EarlierBar, candles);
  }

  function Abs(x: real): real {
    if x < 0.0 then -x else x
  }

  function Max(x: real, y: real): real {
    if x >= y then x else y
  }

  function TrueRanges(candles: seq<Bar>): (ranges: seq<real>)
    ensures |ranges| == |candles|
  {
    if |candles| == 0 then []
    else
      var n := |candles| - 1;
      var c := candles[n];
      TrueRanges(candles[..n])
      + [if n == 0 then c.high - c.low
         else Max(c.high - c.low, Max(Abs(c.high - candles[n - 1].close), Abs(c.low - candles[n - 1].close)))]
  }

  function Sum(s: seq<real>): real {
    if |s| == 0 then 0.0 else Sum(s[..|s| - 1]) + s[|s| - 1]
  }

  function Mean(s: seq<real>): real
    requires |s| > 0
  {
    Sum(s) / (|s| as real)
  }

  /** The mean of the last 14 true ranges, together with all of them. */
  method Atr14(candles: seq<Bar>) returns (atr: Option<real>, ranges: seq<real>)
    ensures ranges == TrueRanges(candles)
    ensures atr == if |ranges| < ATR_WINDOW then None else Some(Mean(ranges[|ranges| - ATR_WINDOW..]))
  {
    ranges := [];
    var prev: Option<real> := None;
    var i := 0;
    while i < |candles|
      invariant i <= |candles|
      invariant ranges == TrueRanges(candles[..i])
      invariant prev == if i == 0 then None else Some(candles[i - 1].close)
    {
      assert candles[..i + 1][..i] == candles[..i];
      var c := candles[i];
      var range := c.high - c.low;
      if prev.Some? {
        range := Max(c.high - c.low, Max(Abs(c.high - prev.value), Abs(c.low - prev.value)));
      }
      ranges := ranges + [range];
      prev := Some(c.close);
      i := i + 1;
    }
    assert candles[..i] == candles;
    if |ranges| < ATR_WINDOW {
      return None, ranges;
    }
    return Some(Sum(ranges[|ranges| - ATR_WINDOW..]) / 14.0), ranges;
  }

  /** True ranges are never negative, but for the first: it alone trusts that the low is not above the high. */
  lemma {:induction false} TrueRangesAreNotNegative(candles: seq<Bar>, i: nat)
    requires 0 < i < |candles|
    ensures TrueRanges(candles)[i] >= 0.0
  {
    if i < |candles| - 1 { TrueRangesAreNotNegative(candles[..|candles| - 1], i); }
  }

  /** A true range is the largest of three distances: of high and low, and of both from the close before. */
  lemma {:induction false} TrueRangeIs(candles: seq<Bar>, i: nat)
    requires i < |candles|
    ensures i == 0 ==> TrueRanges(candles)[0] == candles[0].high - candles[0].low
    ensures i > 0 ==>
              var c, close, range := candles[i], candles[i - 1].close, TrueRanges(candles)[i];
              && range >= c.high - c.low
              && range >= c.high - close && range >= close - c.high
              && range >= c.low - close && range >= close - c.low
              && range in {c.high - c.low, c.high - close, close - c.high, c.low - close, close - c.low}
  {
    if i < |candles| - 1 { TrueRangeIs(candles[..|candles| - 1], i); }
  }

  // ----- The z-score of the last average -----

  /** The average of every 14 true ranges in a row. */
  function Rolling(ranges: seq<real>): seq<real> {
    if |ranges| < ATR_WINDOW then []
    else seq(|ranges| - ATR_WINDOW + 1, k requires 0 <= k < |ranges| - ATR_WINDOW + 1 =>
               Mean(ranges[k..k + ATR_WINDOW]))
  }

  function Square(x: real): real {
    x * x
  }

  function Deviations(s: seq<real>, mean: real): seq<real> {
    seq(|s|, i requires 0 <= i < |s| => s[i] - mean)
  }

  function SumSquares(s: seq<real>): real {
    if |s| == 0 then 0.0 else SumSquares(s[..|s| - 1]) + Square(s[|s| - 1])
  }

  function Variance(s: seq<real>): real
    requires |s| > 0
  {
    SumSquares(Deviations(s, Mean(s))) / (|s| as real)
  }

  /** The last 50 averages, if there are that many. */
  function ZWindow(ranges: seq<real>): seq<real> {
    var series := Rolling(ranges);
    if |series| < Z_WINDOW then [] else series[|series| - Z_WINDOW..]
  }

  /** The positive square root of a positive number. */
  predicate IsRoot(root: real, x: real) {
    root > 0.0 && Square(root) == x
  }

  function ZScore(window: seq<real>, root: real): Option<real> {
    if |window| == 0 || Variance(window) <= 0.0 || root == 0.0 then None
    else Some((window[|window| - 1] - Mean(window)) / root)
  }

  /** The caller supplies the square root of the variance. */
  method AtrZ50(ranges: seq<real>, root: real) returns (z: Option<real>)
    requires var window := ZWindow(ranges); |window| > 0 && Variance(window) > 0.0 ==> IsRoot(root, Variance(window))
    ensures z == ZScore(ZWindow(ranges), root)
    ensures z.Some? <==> |ranges| >= ATR_WINDOW + Z_WINDOW - 1 && Variance(ZWindow(ranges)) > 0.0
  {
    hide Sum, SquaredDeviations, Mean, Variance, ZScore, Rolling, IsRoot;
    ZScoreCases(ranges, root);
    if |ranges| < ATR_WINDOW {
      return None;
    }
    var series: seq<real> := [];
    var end := ATR_WINDOW - 1;
    while end < |ranges|
      invariant ATR_WINDOW - 1 <= end <= |ranges|
      invariant |series| == end - (ATR_WINDOW - 1)
      invariant forall k :: 0 <= k < |series| ==> series[k] == Mean(ranges[k..k + ATR_WINDOW])
    {
      var window := ranges[end - (ATR_WINDOW - 1)..end + 1];
      MeanIs(window);
      series := series + [Sum(window) / 14.0];
      end := end + 1;
    }
    RollingIs(ranges, series);
    if |series| < Z_WINDOW {
      return None;
    }
    var window := series[|series| - Z_WINDOW..];
    MeanIs(window);
    var mean := Sum(window) / 50.0;
    var variance := SquaredDeviations(window, mean) / 50.0;
    if variance <= 0.0 {
      return None;
    }
    PositiveRoot(root, variance);
    return Some((series[|series| - 1] - mean) / root);
  }

  lemma MeanIs(s: seq<real>)
    ensures |s| == ATR_WINDOW ==> Mean(s) == Sum(s) / 14.0
    ensures |s| == Z_WINDOW ==> Mean(s) == Sum(s) / 50.0 && Variance(s) == SquaredDeviations(s, Mean(s)) / 50.0
  {
  }

  lemma RollingIs(ranges: seq<real>, series: seq<real>)
    requires |ranges| >= ATR_WINDOW && |series| == |ranges| - ATR_WINDOW + 1
    requires forall k :: 0 <= k < |series| ==> series[k] == Mean(ranges[k..k + ATR_WINDOW])
    ensures series == Rolling(ranges)
  {
  }

  lemma PositiveRoot(root: real, x: real)
    requires IsRoot(root, x)
    ensures root > 0.0
  {
  }

  lemma ZScoreCases(ranges: seq<real>, root: real)
    ensures |Rolling(ranges)| == if |ranges| < ATR_WINDOW then 0 else |ranges| - ATR_WINDOW + 1
    ensures var window := ZWindow(ranges);
            ZScore(window, root)
            == if |window| == 0 || Variance(window) <= 0.0 || root == 0.0 then None
               else Some((window[|window| - 1] - Mean(window)) / root)
  {
  }

  function SquaredDeviations(s: seq<real>, mean: real): real {
    SumSquares(Deviations(s, mean))
  }

  /** The average that the z-score rates is the feature `atr_14` itself. */
  lemma LastAverageIsAtr(ranges: seq<real>)
    requires |ranges| >= ATR_WINDOW
    ensures var series := Rolling(ranges);
            |series| > 0 && series[|series| - 1] == Mean(ranges[|ranges| - ATR_WINDOW..])
    ensures ZWindow(ranges) != [] ==> ZWindow(ranges)[Z_WINDOW - 1] == Mean(ranges[|ranges| - ATR_WINDOW..])
  {
    var k := |ranges| - ATR_WINDOW;
    assert ranges[k..k + ATR_WINDOW] == ranges[k..];
  }

  // ----- Samuelson's inequality -----

  lemma CauchyStep(n: real, sum: real, squares: real, x: real)
    requires n >= 1.0 && sum * sum <= n * squares
    ensures (sum + x) * (sum + x) <= (n + 1.0) * (squares + x * x)
    ensures (sum + x) * (sum + x) == (n + 1.0) * (squares + x * x) <==> sum * sum == n * squares && sum == n * x
  {
    var gap := (n + 1.0) * (squares + x * x) - (sum + x) * (sum + x);
    var d, e := n * squares - sum * sum, sum - n * x;
    GapIs(n, sum, squares, x, gap, d, e);
    NotNegativeProduct(n + 1.0, d);
    SquareSign(e, e * e);
    if d > 0.0 { assert (n + 1.0) * d > 0.0; }
    GapSign(n, gap, (n + 1.0) * d, e * e);
  }

  lemma GapSign(n: real, gap: real, a: real, b: real)
    requires n >= 1.0 && a >= 0.0 && b >= 0.0 && n * gap == a + b
    ensures gap >= 0.0
    ensures gap == 0.0 <==> a == 0.0 && b == 0.0
  {
    NotNegative(gap, n);
    if a == 0.0 && b == 0.0 { ZeroFactor(gap, n); }
  }

  lemma GapIs(n: real, sum: real, squares: real, x: real, gap: real, d: real, e: real)
    requires gap == (n + 1.0) * (squares + x * x) - (sum + x) * (sum + x)
    requires d == n * squares - sum * sum && e == sum - n * x
    ensures n * gap == (n + 1.0) * d + e * e
  {
    assert gap == n * squares + squares + n * (x * x) - sum * sum - 2.0 * (sum * x);
    assert n * gap == n * (n * squares) + n * squares + n * (n * (x * x)) - n * (sum * sum) - 2.0 * (n * (sum * x));
    assert (n + 1.0) * d == n * (n * squares) - n * (sum * sum) + n * squares - sum * sum;
    assert e * e == sum * sum - 2.0 * (n * (sum * x)) + n * (n * (x * x));
  }

  ghost predicate AllEqual(s: seq<real>) {
    forall i :: 0 <= i < |s| ==> s[i] == s[0]
  }

  lemma {:induction false} SumOfEqual(s: seq<real>)
    requires |s| > 0 && AllEqual(s)
    ensures Sum(s) == (|s| as real) * s[0]
  {
    if |s| > 1 {
      SumOfEqual(s[..|s| - 1]);
    }
  }

  lemma SingleValue(s: seq<real>)
    requires |s| == 1
    ensures Sum(s) == s[0] && SumSquares(s) == Square(s[0]) && AllEqual(s)
  {
    assert s[..0] == [];
  }

  /** Cauchy's inequality for a sum, and when it is an equality. */
  lemma {:induction false} SumSquaredBound(s: seq<real>)
    requires |s| > 0
    ensures Square(Sum(s)) <= (|s| as real) * SumSquares(s)
    ensures Square(Sum(s)) == (|s| as real) * SumSquares(s) <==> AllEqual(s)
  {
    hide Sum, SumSquares, AllEqual;
    var n := |s| - 1;
    if n == 0 {
      SingleValue(s);
    } else {
      var before, x := s[..n], s[n];
      SumSquaredBound(before);
      Unfold(s);
      CauchyStep(n as real, Sum(before), SumSquares(before), x);
      if AllEqual(before) {
        SumOfEqual(before);
        SameProduct(n as real, s[0], x);
      }
      EqualStep(s);
    }
  }

  lemma SameProduct(n: real, a: real, b: real)
    requires n >= 1.0
    ensures n * a == n * b <==> a == b
  {
    if n * a == n * b {
      assert n * (a - b) == 0.0;
    }
  }

  lemma EqualStep(s: seq<real>)
    requires |s| > 1
    ensures AllEqual(s) <==> AllEqual(s[..|s| - 1]) && s[|s| - 1] == s[0]
  {
  }

  lemma {:induction false} SumOfDeviations(s: seq<real>, mean: real)
    ensures Sum(Deviations(s, mean)) == Sum(s) - (|s| as real) * mean
  {
    if |s| > 0 {
      var n := |s| - 1;
      SumOfDeviations(s[..n], mean);
      assert Deviations(s, mean)[..n] == Deviations(s[..n], mean);
      assert ((n + 1) as real) * mean == (n as real) * mean + mean;
    }
  }

  /** With the others summing to its opposite, a deviation is bounded by all of them. */
  lemma SamuelsonStep(n: real, x: real, squares: real, z: real, root: real, variance: real)
    requires n >= 2.0 && variance > 0.0 && root > 0.0 && root * root == variance && z * root == x
    requires squares + x * x == n * variance
    requires x * x <= (n - 1.0) * squares
    ensures z * z <= n - 1.0
    ensures z * z == n - 1.0 <==> x * x == (n - 1.0) * squares
  {
    var gap := n - 1.0 - z * z;
    assert z * z * variance == x * x by {
      assert z * z * (root * root) == (z * root) * (z * root);
    }
    assert gap * variance == (n - 1.0) * variance - x * x;
    assert n * (gap * variance) == (n - 1.0) * squares - x * x by {
      assert n * (gap * variance) == (n - 1.0) * (n * variance) - n * (x * x);
    }
    NotNegative(gap * variance, n);
    NotNegative(gap, variance);
    if x * x == (n - 1.0) * squares {
      ZeroFactor(gap * variance, n);
      ZeroFactor(gap, variance);
    }
  }

  lemma ZeroFactor(a: real, q: real)
    requires q > 0.0 && q * a == 0.0
    ensures a == 0.0
  {
  }

  /** Samuelson's inequality: the z-score of the last of n values is at most the square root of n - 1, and reaches
      it exactly if the other values are all the same. */
  lemma Samuelson(window: seq<real>, root: real)
    requires |window| >= 2 && Variance(window) > 0.0 && IsRoot(root, Variance(window))
    ensures var z := ZScore(window, root).value;
            && Square(z) <= (|window| as real) - 1.0
            && (Square(z) == (|window| as real) - 1.0 <==> AllEqual(window[..|window| - 1]))
  {
    hide Sum, SumSquares, AllEqual;
    var n := |window|;
    var mean := Mean(window);
    var d := Deviations(window, mean);
    var before, x := d[..n - 1], d[n - 1];
    SumOfDeviations(window, mean);
    Unfold(d);
    SumSquaredBound(before);
    SumCancels(Sum(window), n as real, mean);
    assert Square(Sum(before)) == x * x by { assert Sum(before) == -x; }
    var squares, variance := SumSquares(before), Variance(window);
    ScaleBack(SumSquares(d), n as real, variance);
    SamuelsonStep(n as real, x, squares, ZScore(window, root).value, root, variance);
    DeviationsAllEqual(window, mean);
  }

  lemma Unfold(d: seq<real>)
    requires |d| > 0
    ensures Sum(d) == Sum(d[..|d| - 1]) + d[|d| - 1]
    ensures SumSquares(d) == SumSquares(d[..|d| - 1]) + d[|d| - 1] * d[|d| - 1]
  {
  }

  lemma SumCancels(sum: real, n: real, mean: real)
    requires n > 0.0 && mean == sum / n
    ensures sum - n * mean == 0.0
  {
  }

  lemma ScaleBack(total: real, n: real, variance: real)
    requires n > 0.0 && variance == total / n
    ensures total == n * variance
  {
  }

  lemma DeviationsAllEqual(window: seq<real>, mean: real)
    requires |window| > 0
    ensures var n := |window| - 1; AllEqual(Deviations(window, mean)[..n]) <==> AllEqual(window[..n])
  {
    var n := |window| - 1;
    var d, w := Deviations(window, mean)[..n], window[..n];
    assert forall i :: 0 <= i < n ==> d[i] == w[i] - mean;
    if AllEqual(d) {
      forall i | 0 <= i < n ensures w[i] == w[0] { assert d[i] == d[0]; }
    }
  }

  /** Whenever the z-score has a value, its square is at most 49. */
  lemma ZScoreBound(ranges: seq<real>, root: real)
    requires ZWindow(ranges) != [] && Variance(ZWindow(ranges)) > 0.0 && IsRoot(root, Variance(ZWindow(ranges)))
    ensures var z := ZScore(ZWindow(ranges), root);
            && z.Some? && Square(z.value) <= 49.0
            && (Square(z.value) == 49.0 <==> AllEqual(ZWindow(ranges)[..Z_WINDOW - 1]))
  {
    hide Rolling, Variance;
    Samuelson(ZWindow(ranges), root);
  }

  // ----- Nothing later than the engine time counts -----

  /** What has happened by then. */
  function UpTo(events: seq<MarketEvent>, now: int): seq<MarketEvent> {
    Filter((e: MarketEvent) => e.ts.Some? && e.ts.value <= now, events)
  }

  function Strip(bars: seq<Bar>): seq<Bar> {
    seq(|bars|, i requires 0 <= i < |bars| => bars[i].(index := 0))
  }

  ghost predicate Indexed(bars: seq<Bar>, from: int) {
    && (forall i :: 0 <= i < |bars| ==> from <= bars[i].index)
    && (forall i, j :: 0 <= i < j < |bars| ==> bars[i].index < bars[j].index)
  }

  lemma {:induction false} BarsAreIndexed(events: seq<MarketEvent>, symbol: string, now: int)
    ensures Indexed(BarsOf(events, symbol, now), 0)
    ensures forall i :: 0 <= i < |BarsOf(events, symbol, now)| ==> BarsOf(events, symbol, now)[i].index < |events|
  {
    if |events| > 0 { BarsAreIndexed(events[..|events| - 1], symbol, now); }
  }

  lemma {:induction false} StripInsert(x: Bar, s: seq<Bar>, y: Bar, t: seq<Bar>)
    requires Strip(s) == Strip(t) && x.(index := 0) == y.(index := 0)
    requires forall i :: 0 <= i < |s| ==> x.index < s[i].index
    requires forall i :: 0 <= i < |t| ==> y.index < t[i].index
    ensures Strip(Insert(EarlierBar, x, s)) == Strip(Insert(EarlierBar, y, t))
  {
    assert |Strip(s)| == |s| && |Strip(t)| == |t|;
    if |s| > 0 {
      assert Strip(s)[0] == s[0].(index := 0) && Strip(t)[0] == t[0].(index := 0);
      if !EarlierBar(x, s[0]) {
        assert Strip(s[1..]) == Strip(s)[1..] && Strip(t[1..]) == Strip(t)[1..];
        StripInsert(x, s[1..], y, t[1..]);
        StripCons(s[0], Insert(EarlierBar, x, s[1..]));
        StripCons(t[0], Insert(EarlierBar, y, t[1..]));
      } else {
        StripCons(x, s);
        StripCons(y, t);
      }
    }
  }

  lemma StripCons(x: Bar, s: seq<Bar>)
    ensures Strip([x] + s) == [x.(index := 0)] + Strip(s)
  {
  }

  lemma SortKeepsIndices(x: Bar, s: seq<Bar>)
    requires forall i :: 0 <= i < |s| ==> x.index < s[i].index
    ensures forall i :: 0 <= i < |Sort(EarlierBar, s)| ==> x.index < Sort(EarlierBar, s)[i].index
  {
    SortPermutes(EarlierBar, s);
    var t := Sort(EarlierBar, s);
    forall i | 0 <= i < |t| ensures x.index < t[i].index {
      assert t[i] in multiset(t);
      assert t[i] in s;
    }
  }

  /** Candles of equal content sort alike, wherever they stood among the events. */
  lemma {:induction false} StripSort(s: seq<Bar>, t: seq<Bar>, from: int, start: int)
    requires Strip(s) == Strip(t) && Indexed(s, from) && Indexed(t, start)
    ensures Strip(Sort(EarlierBar, s)) == Strip(Sort(EarlierBar, t))
    decreases |s|
  {
    assert |Strip(s)| == |s| && |Strip(t)| == |t|;
    if |s| > 0 {
      assert Strip(s)[0] == s[0].(index := 0) && Strip(t)[0] == t[0].(index := 0);
      assert Strip(s[1..]) == Strip(s)[1..] && Strip(t[1..]) == Strip(t)[1..];
      StripSort(s[1..], t[1..], from, start);
      SortKeepsIndices(s[0], s[1..]);
      SortKeepsIndices(t[0], t[1..]);
      StripInsert(s[0], Sort(EarlierBar, s[1..]), t[0], Sort(EarlierBar, t[1..]));
    }
  }

  lemma {:induction false} StripRanges(s: seq<Bar>, t: seq<Bar>)
    requires Strip(s) == Strip(t)
    ensures TrueRanges(s) == TrueRanges(t)
  {
    assert |Strip(s)| == |s| && |Strip(t)| == |t|;
    if |s| > 0 {
      var n := |s| - 1;
      assert Strip(s[..n]) == Strip(s)[..n] && Strip(t[..n]) == Strip(t)[..n];
      assert Strip(s)[n] == Strip(t)[n] && (n > 0 ==> Strip(s)[n - 1] == Strip(t)[n - 1]);
      StripRanges(s[..n], t[..n]);
    }
  }

  lemma BarsSnoc(events: seq<MarketEvent>, e: MarketEvent, symbol: string, now: int)
    ensures Strip(BarsOf(events + [e], symbol, now))
         == Strip(BarsOf(events, symbol, now))
            + (if IsBar(e, symbol, now)
               then [Bar(e.ts.value, 0, e.body.high.value, e.body.low.value, e.body.close.value)] else [])
  {
    assert (events + [e])[..|events|] == events;
  }

  lemma {:induction false} BarsUpTo(events: seq<MarketEvent>, symbol: string, now: int)
    ensures Strip(BarsOf(events, symbol, now)) == Strip(BarsOf(UpTo(events, now), symbol, now))
  {
    if |events| > 0 {
      var n := |events| - 1;
      BarsUpTo(events[..n], symbol, now);
      assert events == events[..n] + [events[n]];
      FilterSnoc((e: MarketEvent) => e.ts.Some? && e.ts.value <= now, events[..n], events[n]);
      var known := UpTo(events, now);
      if events[n].ts.Some? && events[n].ts.value <= now {
        assert known == UpTo(events[..n], now) + [events[n]];
        BarsSnoc(events[..n], events[n], symbol, now);
        BarsSnoc(UpTo(events[..n], now), events[n], symbol, now);
      } else {
        assert known == UpTo(events[..n], now);
        assert BarsOf(events, symbol, now) == BarsOf(events[..n], symbol, now);
      }
    }
  }

  /** No look-ahead: what comes later than the engine time, or carries no time, changes none of the features that are
      folded from trades and candles, whatever its place among the events. */
  lemma NoLookAhead(events: seq<MarketEvent>, symbol: string, now: int)
    ensures TradesIn(events, symbol, now - WINDOW_3M, now) == TradesIn(UpTo(events, now), symbol, now - WINDOW_3M, now)
    ensures TrueRanges(Sort(EarlierBar, BarsOf(events, symbol, now)))
         == TrueRanges(Sort(EarlierBar, BarsOf(UpTo(events, now), symbol, now)))
  {
    FilterTwice((e: MarketEvent) => IsTradeIn(e, symbol, now - WINDOW_3M, now),
                (e: MarketEvent) => e.ts.Some? && e.ts.value <= now, events);
    hide BarsOf;
    BarsUpTo(events, symbol, now);
    BarsAreIndexed(events, symbol, now);
    BarsAreIndexed(UpTo(events, now), symbol, now);
    StripSort(BarsOf(events, symbol, now), BarsOf(UpTo(events, now), symbol, now), 0, 0);
    StripRanges(Sort(EarlierBar, BarsOf(events, symbol, now)),
                Sort(EarlierBar, BarsOf(UpTo(events, now), symbol, now)));
  }

  // ----- Open interest -----

  predicate IsInterest(e: MarketEvent, symbol: string) {
    e.symbol == symbol && e.body.OpenInterest? && e.body.value.Some?
  }

  /** The last one of those with the latest time; without any time, the last one. */
  ghost predicate IsLatestInterest(events: seq<MarketEvent>, symbol: string, i: nat)
  {
    && i < |events| && IsInterest(events[i], symbol)
    && forall k :: 0 <= k < |events| && IsInterest(events[k], symbol) ==>
         if events[i].ts.None? then events[k].ts.None? && k <= i
         else events[k].ts.Some? ==> events[k].ts.value < events[i].ts.value || (events[k].ts == events[i].ts && k <= i)
  }

  /** A later event takes over from the one found so far, unless only the latter has a time or has a later one. */
  predicate TakesOver(e: MarketEvent, found: Option<MarketEvent>) {
    found.None? || found.value.ts.None? || (e.ts.Some? && e.ts.value >= found.value.ts.value)
  }

  function LatestInterest(events: seq<MarketEvent>, symbol: string): Option<MarketEvent> {
    if |events| == 0 then None
    else
      var found, e := LatestInterest(events[..|events| - 1], symbol), events[|events| - 1];
      if IsInterest(e, symbol) && TakesOver(e, found) then Some(e) else found
  }

  lemma LatestInterestSnoc(events: seq<MarketEvent>, e: MarketEvent, symbol: string)
    ensures var found := LatestInterest(events, symbol);
            LatestInterest(events + [e], symbol)
            == if IsInterest(e, symbol) && TakesOver(e, found) then Some(e) else found
  {
    assert (events + [e])[..|events|] == events;
  }

  /** The fold finds nothing exactly when there is no interest, and otherwise an event that is the latest. */
  ghost predicate Finds(events: seq<MarketEvent>, symbol: string, found: Option<MarketEvent>) {
    match found
    case None => forall k :: 0 <= k < |events| ==> !IsInterest(events[k], symbol)
    case Some(e) => exists i: nat :: IsLatestInterest(events, symbol, i) && e == events[i]
  }

  lemma FindsSnoc(before: seq<MarketEvent>, e: MarketEvent, symbol: string, found: Option<MarketEvent>)
    requires Finds(before, symbol, found)
    ensures Finds(before + [e], symbol, if IsInterest(e, symbol) && TakesOver(e, found) then Some(e) else found)
  {
    var n, events := |before|, before + [e];
    assert forall k :: 0 <= k < n ==> events[k] == before[k];
    if IsInterest(e, symbol) && TakesOver(e, found) {
      assert events[n] == e && IsLatestInterest(events, symbol, n);
    } else if found.Some? {
      var i: nat :| IsLatestInterest(before, symbol, i) && found.value == before[i];
      assert events[i] == before[i] && IsLatestInterest(events, symbol, i);
    }
  }

  lemma {:induction false} LatestInterestFinds(events: seq<MarketEvent>, symbol: string)
    ensures Finds(events, symbol, LatestInterest(events, symbol))
  {
    hide Finds;
    if |events| == 0 {
      FindsNothing(symbol);
      assert events == [];
    } else {
      var before, e := events[..|events| - 1], events[|events| - 1];
      assert events == before + [e];
      LatestInterestFinds(before, symbol);
      LatestInterestSnoc(before, e, symbol);
      FindsSnoc(before, e, symbol, LatestInterest(before, symbol));
    }
  }

  lemma FindsNothing(symbol: string)
    ensures Finds([], symbol, None)
  {
  }

  /** The fold finds the event that the order singles out. */
  lemma LatestInterestIs(events: seq<MarketEvent>, symbol: string)
    ensures LatestInterest(events, symbol).None? <==> forall k :: 0 <= k < |events| ==> !IsInterest(events[k], symbol)
    ensures LatestInterest(events, symbol).Some? ==>
              exists i: nat :: IsLatestInterest(events, symbol, i) && LatestInterest(events, symbol) == Some(events[i])
    ensures forall i: nat :: IsLatestInterest(events, symbol, i) ==> LatestInterest(events, symbol) == Some(events[i])
  {
    LatestInterestFinds(events, symbol);
  }

  method OpenInterestLatest(events: seq<MarketEvent>, symbol: string) returns (latest: Option<real>)
    ensures latest.None? <==> forall i :: 0 <= i < |events| ==> !IsInterest(events[i], symbol)
    ensures latest.Some? ==> exists i: nat :: IsLatestInterest(events, symbol, i) && events[i].body.value == latest
    ensures var found := LatestInterest(events, symbol);
            if found.Some? then found.value.body.OpenInterest? && latest == found.value.body.value else latest.None?
  {
    var best: Option<(int, real)>, fallback: Option<real> := None, None;
    var i := 0;
    while i < |events|
      invariant i <= |events|
      invariant var found := LatestInterest(events[..i], symbol);
                && (found.Some? ==> found.value.body.OpenInterest? && found.value.body.value.Some?)
                && (best.Some? <==> found.Some? && found.value.ts.Some?)
                && (best.Some? ==> best.value == (found.value.ts.value, found.value.body.value.value))
                && (best.None? ==> fallback == if found.Some? then found.value.body.value else None)
    {
      assert events[..i + 1][..i] == events[..i];
      var e := events[i];
      if IsInterest(e, symbol) {
        if e.ts.None? {
          fallback := e.body.value;
        } else if best.None? || e.ts.value >= best.value.0 {
          best := Some((e.ts.value, e.body.value.value));
        }
      }
      i := i + 1;
    }
    assert events[..i] == events;
    LatestInterestIs(events, symbol);
    return if best.Some? then Some(best.value.1) else fallback;
  }

  /** An interest with a time later than the engine time. */
  predicate IsLateInterest(e: MarketEvent, symbol: string, now: int) {
    IsInterest(e, symbol) && e.ts.Some? && e.ts.value > now
  }

  ghost predicate SomeLate(events: seq<MarketEvent>, symbol: string, now: int) {
    exists k :: 0 <= k < |events| && IsLateInterest(events[k], symbol, now)
  }

  ghost predicate SomeTimed(events: seq<MarketEvent>, symbol: string) {
    exists k :: 0 <= k < |events| && IsInterest(events[k], symbol) && events[k].ts.Some?
  }

  predicate Late(found: Option<MarketEvent>, symbol: string, now: int) {
    found.Some? && IsLateInterest(found.value, symbol, now)
  }

  predicate HasTime(found: Option<MarketEvent>) {
    found.Some? && found.value.ts.Some?
  }

  /** What the fold takes is late exactly when some interest is, and it has a time exactly when some interest has. */
  lemma LatestInterestIsLate(events: seq<MarketEvent>, symbol: string, now: int)
    ensures SomeLate(events, symbol, now) <==> Late(LatestInterest(events, symbol), symbol, now)
    ensures SomeTimed(events, symbol) <==> HasTime(LatestInterest(events, symbol))
  {
    hide LatestInterest;
    LatestInterestIs(events, symbol);
  }

  /** Cut off at the engine time, the fold finds nothing late. Unless it finds something late without the cut, it finds
      the same event if that has a time and nothing otherwise. */
  lemma {:induction false} LatestInterestCutOff(events: seq<MarketEvent>, symbol: string, now: int)
    ensures var found, known := LatestInterest(events, symbol), LatestInterest(UpTo(events, now), symbol);
            && (known.Some? ==> HasTime(known) && known.value.ts.value <= now)
            && (found.Some? ==> IsInterest(found.value, symbol))
            && (!Late(found, symbol, now) ==> known == if HasTime(found) then found else None)
  {
    if |events| > 0 {
      var before, e := events[..|events| - 1], events[|events| - 1];
      LatestInterestCutOff(before, symbol, now);
      UpToSnoc(before, e, now);
      assert events == before + [e];
      LatestInterestSnoc(before, e, symbol);
      LatestInterestSnoc(UpTo(before, now), e, symbol);
    }
  }

  lemma UpToSnoc(events: seq<MarketEvent>, e: MarketEvent, now: int)
    ensures UpTo(events + [e], now)
         == if e.ts.Some? && e.ts.value <= now then UpTo(events, now) + [e] else UpTo(events, now)
  {
    FilterSnoc((e: MarketEvent) => e.ts.Some? && e.ts.value <= now, events, e);
    assert UpTo(events, now) + [] == UpTo(events, now);
  }

  /** The one feature that can look ahead, and exactly when. The event it takes is within the engine time exactly when
      every interest with a time is; and what comes later than the engine time, or carries no time, plays no part
      exactly when no interest is late and an interest without a time is not the only kind there is. */
  lemma InterestLooksAheadExactly(events: seq<MarketEvent>, symbol: string, now: int)
    ensures forall i: nat :: IsLatestInterest(events, symbol, i) ==>
              ((events[i].ts.Some? ==> events[i].ts.value <= now)
               <==> forall k :: 0 <= k < |events| && IsInterest(events[k], symbol) && events[k].ts.Some? ==>
                      events[k].ts.value <= now)
    ensures LatestInterest(events, symbol) == LatestInterest(UpTo(events, now), symbol) <==>
            && (forall k :: 0 <= k < |events| && IsInterest(events[k], symbol) && events[k].ts.Some? ==>
                  events[k].ts.value <= now)
            && ((exists k :: 0 <= k < |events| && IsInterest(events[k], symbol)) ==>
                  exists k :: 0 <= k < |events| && IsInterest(events[k], symbol) && events[k].ts.Some?)
  {
    hide LatestInterest;
    LatestInterestCutOff(events, symbol, now);
    LatestInterestIs(events, symbol);
    LatestInterestIsLate(events, symbol, now);
    assert SomeLate(events, symbol, now)
      <==> !forall k :: 0 <= k < |events| && IsInterest(events[k], symbol) && events[k].ts.Some? ==>
             events[k].ts.value <= now;
  }

  /** An event of the future displaces the present one. */
  lemma OpenInterestLooksAhead(symbol: string, now: int)
    ensures var present := MarketEvent(symbol, Some(now), OpenInterest(Some(1.0)));
            var future := MarketEvent(symbol, Some(now + 1), OpenInterest(Some(2.0)));
            && LatestInterest([present, future], symbol) == Some(future)
            && LatestInterest(UpTo([present, future], now), symbol) == Some(present)
  {
    var present := MarketEvent(symbol, Some(now), OpenInterest(Some(1.0)));
    var future := MarketEvent(symbol, Some(now + 1), OpenInterest(Some(2.0)));
    assert [] + [present] == [present] && [present] + [future] == [present, future];
    LatestInterestSnoc([], present, symbol);
    LatestInterestSnoc([present], future, symbol);
    UpToSnoc([], present, now);
    UpToSnoc([present], future, now);
  }
}
