/** What the folded features mean, told by index over the events. */
module FeatureMeaning {
  import opened Ordering
  import opened Features

  // ----- Trades -----

  predicate IsTradeBetween(e: MarketEvent, symbol: string, start: int, end: int) {
    e.symbol == symbol && e.body.Trade? && e.ts.Some? && start <= e.ts.value && e.ts.value <= end
  }

  /** The window holds exactly the trades of the symbol between its ends, both included, as often as they occur. */
  lemma {:induction false} TradesTell(events: seq<MarketEvent>, symbol: string, start: int, end: int, e: MarketEvent)
    ensures multiset(TradesIn(events, symbol, start, end))[e]
         == if IsTradeBetween(e, symbol, start, end) then multiset(events)[e] else 0
  {
    if |events| > 0 {
      var rest := events[1..];
      TradesTell(rest, symbol, start, end, e);
      assert events == [events[0]] + rest;
      if IsTradeIn(events[0], symbol, start, end) {
        assert TradesIn(events, symbol, start, end) == [events[0]] + TradesIn(rest, symbol, start, end);
      } else {
        assert TradesIn(events, symbol, start, end) == TradesIn(rest, symbol, start, end);
      }
    }
  }

  /** What a trade counts for in the average price: its quantity, if that is positive and the price is known. */
  function Weight(e: MarketEvent): real {
    if e.body.Trade? && e.body.price.Some? && e.body.quantity.Some? && e.body.quantity.value > 0.0
    then e.body.quantity.value else 0.0
  }

  function Weights(trades: seq<MarketEvent>): seq<real> {
    seq(|trades|, i requires 0 <= i < |trades| => Weight(trades[i]))
  }

  function Payment(e: MarketEvent): real {
    if Weight(e) > 0.0 then e.body.price.value * Weight(e) else 0.0
  }

  function Payments(trades: seq<MarketEvent>): seq<real> {
    seq(|trades|, i requires 0 <= i < |trades| => Payment(trades[i]))
  }

  /** The quantity of a trade of this side, if it is positive. */
  function SideWeight(e: MarketEvent, side: Side): real {
    if e.body.Trade? && e.body.side == side && e.body.quantity.Some? && e.body.quantity.value > 0.0
    then e.body.quantity.value else 0.0
  }

  function SideWeights(trades: seq<MarketEvent>, side: Side): seq<real> {
    seq(|trades|, i requires 0 <= i < |trades| => SideWeight(trades[i], side))
  }

  lemma {:induction false} TradeSums(trades: seq<MarketEvent>)
    ensures PricedQuantity(trades) == Sum(Weights(trades)) && Notional(trades) == Sum(Payments(trades))
  {
    if |trades| > 0 {
      var n := |trades| - 1;
      TradeSums(trades[..n]);
      assert Weights(trades)[..n] == Weights(trades[..n]) && Payments(trades)[..n] == Payments(trades[..n]);
    }
  }

  /** The quantity of one side is the sum of its positive quantities. */
  lemma {:induction false} SideTells(trades: seq<MarketEvent>, side: Side)
    ensures SideQuantity(trades, side) == Sum(SideWeights(trades, side))
  {
    if |trades| > 0 {
      var n := |trades| - 1;
      SideTells(trades[..n], side);
      assert SideWeights(trades, side)[..n] == SideWeights(trades[..n], side);
    }
  }

  lemma {:induction false} WeightsAreNotNegative(trades: seq<MarketEvent>)
    ensures Sum(Weights(trades)) >= 0.0
    ensures Sum(Weights(trades)) > 0.0 <==> exists i :: 0 <= i < |trades| && Weight(trades[i]) > 0.0
  {
    if |trades| > 0 {
      var n := |trades| - 1;
      WeightsAreNotNegative(trades[..n]);
      assert Weights(trades)[..n] == Weights(trades[..n]);
      assert forall i :: 0 <= i < n ==> trades[..n][i] == trades[i];
    }
  }

  /** The volume weighted price: present exactly if some trade counts, and then the payments over the quantities. */
  lemma VwapTells(trades: seq<MarketEvent>)
    ensures Vwap(trades).Some? <==> exists i :: 0 <= i < |trades| && Weight(trades[i]) > 0.0
    ensures Vwap(trades).Some? ==> Vwap(trades).value * Sum(Weights(trades)) == Sum(Payments(trades))
  {
    hide Sum, PricedQuantity, Notional;
    TradeSums(trades);
    WeightsAreNotNegative(trades);
    if Vwap(trades).Some? {
      Quotient(Notional(trades), PricedQuantity(trades));
    }
  }

  lemma Quotient(a: real, b: real)
    requires b != 0.0
    ensures a / b * b == a
  {
  }

  // ----- Candles -----

  /** The bar that an event contributes: a final three-minute candle up to the engine time, with all its prices. */
  predicate Contributes(e: MarketEvent, index: int, bar: Bar, symbol: string, now: int) {
    && e.symbol == symbol && e.body.Candle? && e.ts == Some(bar.ts) && bar.ts <= now
    && e.body.interval == Some(180000) && e.body.isFinal
    && e.body.high == Some(bar.high) && e.body.low == Some(bar.low) && e.body.close == Some(bar.close)
    && bar.index == index
  }

  lemma {:induction false} BarsTell(events: seq<MarketEvent>, symbol: string, now: int, bar: Bar)
    ensures bar in BarsOf(events, symbol, now) <==>
              exists i :: 0 <= i < |events| && Contributes(events[i], i, bar, symbol, now)
    ensures forall b :: b in BarsOf(events, symbol, now) ==> 0 <= b.index < |events|
    ensures forall j, k :: 0 <= j < k < |BarsOf(events, symbol, now)| ==>
              BarsOf(events, symbol, now)[j].index < BarsOf(events, symbol, now)[k].index
  {
    if |events| > 0 {
      var n := |events| - 1;
      BarsTell(events[..n], symbol, now, bar);
      assert forall i :: 0 <= i < n ==> events[..n][i] == events[i];
    }
  }

  /** The candles are exactly these bars, in the order of their times, and of their positions at one time. */
  lemma CandlesTell(events: seq<MarketEvent>, symbol: string, now: int)
    ensures var candles := Sort(EarlierBar, BarsOf(events, symbol, now));
            && (forall bar :: bar in candles <==>
                  exists i :: 0 <= i < |events| && Contributes(events[i], i, bar, symbol, now))
            && (forall j, k :: 0 <= j < k < |candles| ==>
                  candles[j].ts < candles[k].ts
                    || (candles[j].ts == candles[k].ts && candles[j].index < candles[k].index))
  {
    hide BarsOf, Contributes;
    var bars := BarsOf(events, symbol, now);
    var candles := Sort(EarlierBar, bars);
    EarlierIsTotal();
    SortSorts(EarlierBar, bars);
    SortPermutes(EarlierBar, bars);
    forall bar
      ensures bar in candles <==> exists i :: 0 <= i < |events| && Contributes(events[i], i, bar, symbol, now)
    {
      BarsTell(events, symbol, now, bar);
      assert bar in multiset(candles) <==> bar in multiset(bars);
    }
    if |bars| > 0 { BarsTell(events, symbol, now, bars[0]); }
    DistinctIndices(bars, candles);
    forall j, k | 0 <= j < k < |candles|
      ensures candles[j].ts < candles[k].ts || (candles[j].ts == candles[k].ts && candles[j].index < candles[k].index)
    {
      assert EarlierBar(candles[j], candles[k]);
    }
  }

  lemma EarlierIsTotal()
    ensures TotalPreorder(EarlierBar)
  {
  }

  lemma DistinctIndices(bars: seq<Bar>, candles: seq<Bar>)
    requires multiset(candles) == multiset(bars)
    requires forall j, k :: 0 <= j < k < |bars| ==> bars[j].index < bars[k].index
    ensures forall j, k :: 0 <= j < k < |candles| ==> candles[j].index != candles[k].index
  {
    forall j, k | 0 <= j < k < |candles| ensures candles[j].index != candles[k].index {
      var a, b := candles[j], candles[k];
      assert a in multiset(bars) && b in multiset(bars);
      if a.index == b.index {
        var p :| 0 <= p < |bars| && bars[p] == a;
        var q :| 0 <= q < |bars| && bars[q] == b;
        assert a == b;
        TwiceIn(candles, j, k);
        OnceIn(bars, p);
        assert false;
      }
    }
  }

  lemma TwiceIn(s: seq<Bar>, j: nat, k: nat)
    requires j < k < |s| && s[j] == s[k]
    ensures multiset(s)[s[j]] >= 2
  {
    assert s == s[..k] + [s[k]] + s[k + 1..];
    assert s[..k][j] == s[j] && s[j] in multiset(s[..k]);
  }

  lemma OnceIn(s: seq<Bar>, p: nat)
    requires p < |s| && forall j, k :: 0 <= j < k < |s| ==> s[j].index < s[k].index
    ensures multiset(s)[s[p]] == 1
  {
    assert s == s[..p] + [s[p]] + s[p + 1..];
    assert s[p] !in s[..p] && s[p] !in s[p + 1..];
  }

  // ----- Averages and the score -----

  /** A sum grows by each number, and the mean times the count is the sum. */
  lemma MeanTells(s: seq<real>, x: real)
    ensures Sum([]) == 0.0 && Sum([x]) == x && Sum(s + [x]) == Sum(s) + x
    ensures |s| > 0 ==> Mean(s) * (|s| as real) == Sum(s)
  {
    hide Sum;
    SumGrows(s, x);
    if |s| > 0 { MeanTimesCount(s); }
  }

  lemma SumGrows(s: seq<real>, x: real)
    ensures Sum([]) == 0.0 && Sum([x]) == x && Sum(s + [x]) == Sum(s) + x
  {
    assert [x][..0] == [];
    assert (s + [x])[..|s|] == s;
  }

  lemma MeanTimesCount(s: seq<real>)
    requires |s| > 0
    ensures Mean(s) * (|s| as real) == Sum(s)
  {
    hide Sum;
    Quotient(Sum(s), |s| as real);
  }

  function SquareAround(x: real, mean: real): real {
    (x - mean) * (x - mean)
  }

  function SquaresAround(s: seq<real>, mean: real): seq<real> {
    seq(|s|, i requires 0 <= i < |s| => SquareAround(s[i], mean))
  }

  lemma {:induction false} SquaresSum(s: seq<real>, mean: real)
    ensures SumSquares(Deviations(s, mean)) == Sum(SquaresAround(s, mean))
  {
    if |s| > 0 {
      var n := |s| - 1;
      SquaresSum(s[..n], mean);
      assert Deviations(s, mean)[..n] == Deviations(s[..n], mean);
      assert SquaresAround(s, mean)[..n] == SquaresAround(s[..n], mean);
    }
  }

  /** The window of the score: the last fifty averages of fourteen true ranges in a row, or nothing. */
  lemma WindowTells(ranges: seq<real>)
    ensures |ZWindow(ranges)| == if |ranges| >= 63 then 50 else 0
    ensures |ranges| >= 63 ==> forall k :: 0 <= k < 50 ==>
              ZWindow(ranges)[k] * 14.0 == Sum(ranges[|ranges| - 63 + k..|ranges| - 49 + k])
  {
    hide Sum;
    if |ranges| >= 63 {
      forall k | 0 <= k < 50
        ensures ZWindow(ranges)[k] * 14.0 == Sum(ranges[|ranges| - 63 + k..|ranges| - 49 + k])
      {
        var part := ranges[|ranges| - 63 + k..|ranges| - 49 + k];
        assert ZWindow(ranges)[k] == Mean(part);
        Quotient(Sum(part), 14.0);
      }
    }
  }

  /** The score: absent exactly without a window or without variance, and otherwise the deviation of the last average in
      units of the root of the mean squared deviation. */
  lemma ScoreTells(window: seq<real>, root: real)
    requires |window| > 0 && Variance(window) > 0.0 ==> IsRoot(root, Variance(window))
    ensures ZScore(window, root).Some? <==> |window| > 0 && Sum(SquaresAround(window, Mean(window))) > 0.0
    ensures var z := ZScore(window, root);
            z.Some? ==>
              && root > 0.0 && root * root * (|window| as real) == Sum(SquaresAround(window, Mean(window)))
              && z.value * root == window[|window| - 1] - Mean(window)
  {
    hide Sum, Mean;
    if |window| > 0 {
      SquaresSum(window, Mean(window));
      var total, n := Sum(SquaresAround(window, Mean(window))), |window| as real;
      Quotient(total, n);
      SignOfQuotient(total, n);
      if ZScore(window, root).Some? {
        Quotient(window[|window| - 1] - Mean(window), root);
      }
    }
  }

  lemma SignOfQuotient(a: real, b: real)
    requires b > 0.0
    ensures a / b > 0.0 <==> a > 0.0
  {
    var x := a / b;
    assert x * b == a;
    if x > 0.0 { Positive(x, b); } else { Positive(-x, b); }
  }

  lemma Positive(x: real, b: real)
    requires b > 0.0
    ensures x > 0.0 ==> x * b > 0.0
    ensures x >= 0.0 ==> x * b >= 0.0
    ensures (-x) * b == -(x * b)
  {
  }
}
