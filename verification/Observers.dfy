/** The observers that turn features into evidence opinions, over exact reals. */
module Observers {
  import opened Ordering
  import opened Regimes
  import opened HysteresisRules
  import opened Evidence
  import F = Features

  /** The finite values of a feature snapshot by name. */
  type FeatureMap = map<string, real>

  const ALIASES: seq<(string, string)> := [
    ("price", "price_last"), ("vwap", "vwap_3m"), ("atr", "atr_14"), ("atr_z", "atr_z_50"),
    ("cvd", "cvd_3m"), ("open_interest", "open_interest_latest")]

  /** The canonical name of an alias. */
  function Canonical(key: string, i: nat): Option<string>
    requires i <= |ALIASES|
    decreases |ALIASES| - i
  {
    if i == |ALIASES| then None else if ALIASES[i].0 == key then Some(ALIASES[i].1) else Canonical(key, i + 1)
  }

  function ByAlias(features: FeatureMap, key: string, i: nat): Option<real>
    requires i <= |ALIASES|
    decreases |ALIASES| - i
  {
    if i == |ALIASES| then None
    else if ALIASES[i].1 == key && ALIASES[i].0 in features then Some(features[ALIASES[i].0])
    else ByAlias(features, key, i + 1)
  }

  /** By its own name, then by the name it is an alias of, then by an alias of it. */
  function FeatureValue(features: FeatureMap, key: string): Option<real> {
    if key in features then Some(features[key])
    else
      var canonical := Canonical(key, 0);
      if canonical.Some? && canonical.value in features then Some(features[canonical.value])
      else ByAlias(features, key, 0)
  }

  /** A feature is read under its own name, or else under the other name of the same feature. */
  lemma FeatureValueIs(features: FeatureMap, key: string)
    ensures forall a, b :: SameFeature(a, b) ==>
              FeatureValue(features, a)
              == if a in features then Some(features[a]) else if b in features then Some(features[b]) else None
    ensures (forall other :: !SameFeature(key, other)) ==>
              FeatureValue(features, key) == if key in features then Some(features[key]) else None
  {
    if forall other :: !SameFeature(key, other) {
      assert !SameFeature(key, "price_last") && !SameFeature(key, "vwap_3m") && !SameFeature(key, "atr_14");
      assert !SameFeature(key, "atr_z_50") && !SameFeature(key, "cvd_3m") && !SameFeature(key, "open_interest_latest");
      assert !SameFeature(key, "price") && !SameFeature(key, "vwap") && !SameFeature(key, "atr");
      assert !SameFeature(key, "atr_z") && !SameFeature(key, "cvd") && !SameFeature(key, "open_interest");
    }
  }

  /** Two names of one feature. */
  predicate SameFeature(a: string, b: string) {
    || (a, b) in {("price", "price_last"), ("vwap", "vwap_3m"), ("atr", "atr_14"), ("atr_z", "atr_z_50"),
                  ("cvd", "cvd_3m"), ("open_interest", "open_interest_latest")}
    || (b, a) in {("price", "price_last"), ("vwap", "vwap_3m"), ("atr", "atr_14"), ("atr_z", "atr_z_50"),
                  ("cvd", "cvd_3m"), ("open_interest", "open_interest_latest")}
  }

  function Clamp01(x: real): (r: real)
    ensures 0.0 <= r <= 1.0
    ensures 0.0 <= x <= 1.0 ==> r == x
  {
    if x <= 0.0 then 0.0 else if x >= 1.0 then 1.0 else x
  }

  function Available(features: FeatureMap, keys: seq<string>): nat {
    if |keys| == 0 then 0
    else Available(features, keys[..|keys| - 1]) + (if FeatureValue(features, keys[|keys| - 1]).Some? then 1 else 0)
  }

  function Confidence(features: FeatureMap, keys: seq<string>): real {
    if |keys| == 0 then 0.0 else (Available(features, keys) as real) / (|keys| as real)
  }

  /** The share of the required features that are there. */
  method AvailabilityConfidence(features: FeatureMap, keys: seq<string>) returns (confidence: real)
    ensures confidence == Confidence(features, keys)
  {
    if |keys| == 0 {
      return 0.0;
    }
    var available := 0;
    var i := 0;
    while i < |keys|
      invariant 0 <= i <= |keys|
      invariant available == Available(features, keys[..i])
    {
      assert keys[..i + 1][..i] == keys[..i];
      if FeatureValue(features, keys[i]).Some? {
        available := available + 1;
      }
      i := i + 1;
    }
    assert keys[..i] == keys;
    return (available as real) / (|keys| as real);
  }

  lemma {:induction false} AvailableAtMost(features: FeatureMap, keys: seq<string>)
    ensures Available(features, keys) <= |keys|
    ensures Available(features, keys) == |keys|
            <==> forall i :: 0 <= i < |keys| ==> FeatureValue(features, keys[i]).Some?
  {
    if |keys| > 0 {
      var n := |keys| - 1;
      AvailableAtMost(features, keys[..n]);
      assert forall i :: 0 <= i < n ==> keys[..n][i] == keys[i];
    }
  }

  lemma ShareOf(a: nat, n: nat)
    requires a <= n && n > 0
    ensures 0.0 <= (a as real) / (n as real) <= 1.0
    ensures (a as real) / (n as real) == 1.0 <==> a == n
  {
    var x, d := (a as real) / (n as real), n as real;
    assert x * d == a as real;
    if a == n {
      assert x == 1.0;
    }
  }

  /** The places of the features that are there. */
  function Present(features: FeatureMap, keys: seq<string>): set<int> {
    set i | 0 <= i < |keys| && FeatureValue(features, keys[i]).Some?
  }

  lemma {:induction false} AvailableIsPresent(features: FeatureMap, keys: seq<string>)
    ensures Available(features, keys) == |Present(features, keys)|
  {
    hide FeatureValue;
    if |keys| > 0 {
      var n := |keys| - 1;
      AvailableIsPresent(features, keys[..n]);
      assert Present(features, keys)
          == Present(features, keys[..n]) + (if FeatureValue(features, keys[n]).Some? then {n} else {});
    }
  }

  /** The confidence is the number of features that are there over the number asked for, and none if none is asked. */
  lemma ConfidenceTells(features: FeatureMap, keys: seq<string>)
    ensures keys == [] ==> Confidence(features, keys) == 0.0
    ensures Confidence(features, keys) * (|keys| as real) == |Present(features, keys)| as real
  {
    hide Present, Available;
    AvailableIsPresent(features, keys);
    NonePresent(features, keys);
  }

  lemma NonePresent(features: FeatureMap, keys: seq<string>)
    ensures keys == [] ==> Present(features, keys) == {}
  {
  }

  /** The confidence is a proportion, and full exactly if nothing is missing. */
  lemma ConfidenceIsAShare(features: FeatureMap, keys: seq<string>)
    ensures 0.0 <= Confidence(features, keys) <= 1.0
    ensures |keys| > 0 ==>
              (Confidence(features, keys) == 1.0
               <==> forall i :: 0 <= i < |keys| ==> FeatureValue(features, keys[i]).Some?)
  {
    AvailableAtMost(features, keys);
    if |keys| > 0 { ShareOf(Available(features, keys), |keys|); }
  }

  function FlowRatio(features: FeatureMap): Option<real> {
    var cvd, interest := FeatureValue(features, "cvd"), FeatureValue(features, "open_interest");
    if cvd.None? || interest.None? || interest.value <= 0.0 then None else Some(cvd.value / interest.value)
  }

  function TrendSign(features: FeatureMap): Option<int> {
    var price, vwap := FeatureValue(features, "price"), FeatureValue(features, "vwap");
    if price.None? || vwap.None? then None
    else Some(if price.value > vwap.value then 1 else if price.value < vwap.value then -1 else 0)
  }

  /** The flow is the delta as a share of the open interest, where that is positive; the trend is the side on which the
      price lies of its volume weighted average. */
  lemma SignsTell(features: FeatureMap)
    ensures var cvd, interest := FeatureValue(features, "cvd"), FeatureValue(features, "open_interest");
            && (FlowRatio(features).Some? <==> cvd.Some? && interest.Some? && interest.value > 0.0)
            && (FlowRatio(features).Some? ==> FlowRatio(features).value * interest.value == cvd.value)
    ensures var price, vwap := FeatureValue(features, "price"), FeatureValue(features, "vwap");
            && (TrendSign(features).None? <==> price.None? || vwap.None?)
            && (TrendSign(features) == Some(1) <==> price.Some? && vwap.Some? && price.value > vwap.value)
            && (TrendSign(features) == Some(0) <==> price.Some? && vwap.Some? && price.value == vwap.value)
            && (TrendSign(features) == Some(-1) <==> price.Some? && vwap.Some? && price.value < vwap.value)
  {
    hide FeatureValue;
  }

  /** The point at x on the line from 0 at low to 1 at high, and level outside. */
  predicate OnLine(level: real, x: real, low: real, high: real) {
    && (x <= low ==> level == 0.0)
    && (x >= high ==> level == 1.0)
    && (low <= x <= high ==> level * (high - low) == x - low)
  }

  /** The levels: of volatility from a score of -1 to 2, of high volatility from 1 to 3, and of the flow, falling up to
      0.01, and rising up to 0.02 and up to 0.05; a missing score has no level, a missing flow counts as none. */
  lemma LevelsTell(features: FeatureMap)
    ensures var c, vol, fr := ConditionsOf(features), FeatureValue(features, "atr_z"), FlowRatio(features);
            var flow := if fr.Some? then (if fr.value < 0.0 then -fr.value else fr.value) else 0.0;
            && (vol.None? ==> c.volLevel == 0.0 && c.highVol == 0.0)
            && (vol.Some? ==> OnLine(c.volLevel, vol.value, -1.0, 2.0) && OnLine(c.highVol, vol.value, 1.0, 3.0))
            && OnLine(1.0 - c.lowFlow, flow, 0.0, 0.01) && OnLine(c.medFlow, flow, 0.0, 0.02)
            && OnLine(c.highFlow, flow, 0.0, 0.05)
            && (c.flowSign > 0 <==> fr.Some? && fr.value > 0.0) && (c.flowSign < 0 <==> fr.Some? && fr.value < 0.0)
            && (c.trendSign > 0 <==> TrendSign(features) == Some(1))
            && (c.trendSign < 0 <==> TrendSign(features) == Some(-1))
  {
    hide FeatureValue, FlowRatio;
  }

  /** The scores, between 0 and 1, as products of levels and directions. */
  lemma ScoresTell(c: Conditions)
    requires Levelled(c)
    ensures Score(c, ChopBalanced) == (1.0 - c.volLevel) * c.lowFlow
    ensures Score(c, ChopStophunt) == c.volLevel * c.lowFlow
    ensures Score(c, LiquidationUp) == (if c.flowSign > 0 then c.highVol * c.highFlow else 0.0)
    ensures Score(c, LiquidationDown) == (if c.flowSign < 0 then c.highVol * c.highFlow else 0.0)
    ensures Score(c, SqueezeUp) == (if c.trendSign > 0 then c.highVol * c.medFlow else 0.0)
    ensures Score(c, SqueezeDown) == (if c.trendSign < 0 then c.highVol * c.medFlow else 0.0)
    ensures Score(c, TrendBuildUp) == (if c.trendSign > 0 then c.volLevel * c.medFlow else 0.0)
    ensures Score(c, TrendBuildDown) == (if c.trendSign < 0 then c.volLevel * c.medFlow else 0.0)
    ensures Score(c, TrendExhaustion) == c.highVol * c.lowFlow
  {
    hide Score, Levelled;
    ScoreTells(c, 1.0 - c.volLevel, c.lowFlow, ChopBalanced);
    ScoreTells(c, c.volLevel, c.lowFlow, ChopStophunt);
    ScoreTells(c, c.highVol, c.highFlow, LiquidationUp);
    ScoreTells(c, c.highVol, c.highFlow, LiquidationDown);
    ScoreTells(c, c.highVol, c.medFlow, SqueezeUp);
    ScoreTells(c, c.highVol, c.medFlow, SqueezeDown);
    ScoreTells(c, c.volLevel, c.medFlow, TrendBuildUp);
    ScoreTells(c, c.volLevel, c.medFlow, TrendBuildDown);
    ScoreTells(c, c.highVol, c.lowFlow, TrendExhaustion);
  }

  lemma ScoreTells(c: Conditions, a: real, b: real, r: Regime)
    requires Levelled(c)
    requires match r
             case ChopBalanced => (a, b) == (1.0 - c.volLevel, c.lowFlow)
             case ChopStophunt => (a, b) == (c.volLevel, c.lowFlow)
             case LiquidationUp => (a, b) == (c.highVol, c.highFlow)
             case LiquidationDown => (a, b) == (c.highVol, c.highFlow)
             case SqueezeUp => (a, b) == (c.highVol, c.medFlow)
             case SqueezeDown => (a, b) == (c.highVol, c.medFlow)
             case TrendBuildUp => (a, b) == (c.volLevel, c.medFlow)
             case TrendBuildDown => (a, b) == (c.volLevel, c.medFlow)
             case TrendExhaustion => (a, b) == (c.highVol, c.lowFlow)
    ensures Score(c, r)
         == match r
            case LiquidationUp => if c.flowSign > 0 then a * b else 0.0
            case LiquidationDown => if c.flowSign < 0 then a * b else 0.0
            case SqueezeUp => if c.trendSign > 0 then a * b else 0.0
            case SqueezeDown => if c.trendSign < 0 then a * b else 0.0
            case TrendBuildUp => if c.trendSign > 0 then a * b else 0.0
            case TrendBuildDown => if c.trendSign < 0 then a * b else 0.0
            case _ => a * b
  {
    hide Times;
    ProductInUnit(a, b);
    WithoutDirection(Times(a, b));
  }

  lemma ProductInUnit(a: real, b: real)
    requires 0.0 <= a <= 1.0 && 0.0 <= b <= 1.0
    ensures 0.0 <= Times(a, b) <= 1.0 && Times(a, b) == a * b
  {
    ProductOrder(a, 1.0, b);
  }

  /** The highest score, the first of the enumeration among equals. */
  method PickByRegimeOrder(scores: Beliefs) returns (best: Regime, bestScore: real)
    requires forall r: Regime :: r in scores && scores[r] >= 0.0
    ensures Top(scores, REGIME_ORDER) == Some(best) && bestScore == scores[best]
  {
    best, bestScore := REGIME_ORDER[0], -1.0;
    var i := 0;
    while i < |REGIME_ORDER|
      invariant i <= |REGIME_ORDER|
      invariant i == 0 ==> bestScore == -1.0
      invariant i > 0 ==> Top(scores, REGIME_ORDER[..i]) == Some(best) && bestScore == scores[best]
    {
      assert REGIME_ORDER[..i + 1][..i] == REGIME_ORDER[..i];
      var score := Belief(scores, REGIME_ORDER[i]);
      if score > bestScore {
        best, bestScore := REGIME_ORDER[i], score;
      }
      i := i + 1;
    }
    assert REGIME_ORDER[..i] == REGIME_ORDER;
  }

  const CLASSICAL_KEYS := ["price", "vwap", "atr_z", "cvd", "open_interest"]
  const FLOW_KEYS := ["cvd", "open_interest"]
  const VOLATILITY_KEYS := ["atr_z"]
  const CLASSICAL_SOURCE := "composer:classical_regime_v1"
  const FLOW_SOURCE := "composer:flow_pressure_v1"
  const VOLATILITY_SOURCE := "composer:volatility_context_v1"

  function When(c: bool): real {
    if c then 1.0 else 0.0
  }

  /** Levels between 0 and 1, and the signs of the flow and of the trend. */
  datatype Conditions = Conditions(
    volLevel: real, highVol: real, lowFlow: real, medFlow: real, highFlow: real, flowSign: int, trendSign: int)

  predicate Levelled(c: Conditions) {
    && 0.0 <= c.volLevel <= 1.0 && 0.0 <= c.highVol <= 1.0
    && 0.0 <= c.lowFlow <= 1.0 && 0.0 <= c.medFlow <= 1.0 && 0.0 <= c.highFlow <= 1.0
  }

  function ConditionsOf(features: FeatureMap): (c: Conditions)
    ensures Levelled(c)
  {
    var vol, fr, ts := FeatureValue(features, "atr_z"), FlowRatio(features), TrendSign(features);
    var flow := if fr.Some? then F.Abs(fr.value) else 0.0;
    Conditions(
      if vol.Some? then Clamp01((vol.value + 1.0) / 3.0) else 0.0,
      if vol.Some? then Clamp01((vol.value - 1.0) / 2.0) else 0.0,
      Clamp01(1.0 - flow / 0.01), Clamp01(flow / 0.02), Clamp01(flow / 0.05),
      if fr.None? then 0 else if fr.value > 0.0 then 1 else if fr.value < 0.0 then -1 else 0,
      if ts.None? then 0 else ts.value)
  }

  function Times(a: real, b: real): real {
    a * b
  }

  /** The score that the classical observer gives a regime. */
  function Score(c: Conditions, r: Regime): (score: real)
    ensures 0.0 <= score <= 1.0
  {
    match r
    case ChopBalanced => Clamp01(Times(1.0 - c.volLevel, c.lowFlow))
    case ChopStophunt => Clamp01(Times(c.volLevel, c.lowFlow))
    case LiquidationUp => Clamp01(Times(Times(c.highVol, c.highFlow), When(c.flowSign > 0)))
    case LiquidationDown => Clamp01(Times(Times(c.highVol, c.highFlow), When(c.flowSign < 0)))
    case SqueezeUp => Clamp01(Times(Times(c.highVol, c.medFlow), When(c.trendSign > 0)))
    case SqueezeDown => Clamp01(Times(Times(c.highVol, c.medFlow), When(c.trendSign < 0)))
    case TrendBuildUp => Clamp01(Times(Times(c.volLevel, c.medFlow), When(c.trendSign > 0)))
    case TrendBuildDown => Clamp01(Times(Times(c.volLevel, c.medFlow), When(c.trendSign < 0)))
    case TrendExhaustion => Clamp01(Times(c.highVol, c.lowFlow))
  }

  function Scores(features: FeatureMap): (scores: Beliefs)
    ensures forall r: Regime :: r in scores && scores[r] == Score(ConditionsOf(features), r)
  {
    AllRegimes();
    var c := ConditionsOf(features);
    map r | r in REGIME_ORDER :: Score(c, r)
  }

  // ----- What the classical scores can choose -----

  function Mirror(r: Regime): Regime {
    match r
    case LiquidationUp => LiquidationDown
    case LiquidationDown => LiquidationUp
    case SqueezeUp => SqueezeDown
    case SqueezeDown => SqueezeUp
    case TrendBuildUp => TrendBuildDown
    case TrendBuildDown => TrendBuildUp
    case _ => r
  }

  /** The same volatility, and flow and trend the other way round. */
  ghost predicate Opposite(a: FeatureMap, b: FeatureMap) {
    && FeatureValue(a, "atr_z") == FeatureValue(b, "atr_z")
    && (match FlowRatio(a) case None => FlowRatio(b).None? case Some(fr) => FlowRatio(b) == Some(-fr))
    && (match TrendSign(a) case None => TrendSign(b).None? case Some(ts) => TrendSign(b) == Some(-ts))
  }

  /** The scores do not favour a direction: opposite features give each regime the score of its mirror image. */
  lemma ScoresAreSymmetric(a: FeatureMap, b: FeatureMap, r: Regime)
    requires Opposite(a, b)
    ensures Score(ConditionsOf(b), Mirror(r)) == Score(ConditionsOf(a), r)
  {
    hide Score, Opposite, ConditionsOf;
    OppositeSigns(a, b);
    MirroredScore(ConditionsOf(a), ConditionsOf(b), r);
  }

  lemma OppositeSigns(a: FeatureMap, b: FeatureMap)
    requires Opposite(a, b)
    ensures ConditionsOf(b)
            == ConditionsOf(a).(flowSign := -ConditionsOf(a).flowSign, trendSign := -ConditionsOf(a).trendSign)
  {
    hide FeatureValue, FlowRatio, TrendSign, Clamp01;
  }

  lemma MirroredScore(c: Conditions, d: Conditions, r: Regime)
    requires d == c.(flowSign := -c.flowSign, trendSign := -c.trendSign)
    ensures Score(d, Mirror(r)) == Score(c, r)
  {
    hide Clamp01, Times;
  }

  lemma WithoutDirection(x: real)
    ensures Times(x, 0.0) == 0.0 && Times(x, 1.0) == x
  {
  }

  /** The two kinds of chop share the weight of the low flow: in a calm market all of it is on the balanced chop, and
      with rising volatility it moves on to the stop hunt. */
  lemma ChopSharesTheLowFlow(c: Conditions)
    requires Levelled(c)
    ensures Score(c, ChopBalanced) + Score(c, ChopStophunt) == c.lowFlow
    ensures Score(c, ChopStophunt) == Times(c.volLevel, c.lowFlow)
  {
    hide Times;
    ProductOrder(0.0, c.volLevel, c.lowFlow);
    ProductOrder(0.0, 1.0 - c.volLevel, c.lowFlow);
    Distributed(c.volLevel, c.lowFlow);
  }

  lemma Distributed(a: real, b: real)
    ensures Times(1.0 - a, b) + Times(a, b) == b
  {
  }

  /** High volatility never exceeds the volatility level, and they meet only at the ends. */
  lemma HighBelowLevel(features: FeatureMap)
    ensures var c, vol := ConditionsOf(features), FeatureValue(features, "atr_z");
            && c.highVol <= c.volLevel
            && (c.highVol == c.volLevel > 0.0 ==> vol.Some? && vol.value >= 3.0)
  {
    hide FeatureValue, FlowRatio, TrendSign;
  }

  lemma ProductOrder(a: real, b: real, c: real)
    requires 0.0 <= a <= b <= 1.0 && 0.0 <= c <= 1.0
    ensures 0.0 <= Times(a, c) <= Times(b, c) <= 1.0
    ensures Times(a, c) == Times(b, c) > 0.0 ==> a == b > 0.0
  {
    assert (b - a) * c >= 0.0;
    assert (1.0 - b) * c >= 0.0;
    assert a * c >= 0.0;
    if a < b {
      if c > 0.0 { assert (b - a) * c > 0.0; } else { assert b * c == 0.0; }
    } else if b == 0.0 {
      assert b * c == 0.0;
    }
  }

  /** Exhaustion never beats the stop hunt, nor a squeeze the build-up of its direction. */
  lemma ScoresAreOrdered(c: Conditions)
    requires Levelled(c) && c.highVol <= c.volLevel
    ensures Score(c, TrendExhaustion) <= Score(c, ChopStophunt)
    ensures Score(c, SqueezeUp) <= Score(c, TrendBuildUp) && Score(c, SqueezeDown) <= Score(c, TrendBuildDown)
    ensures Score(c, SqueezeUp) == Score(c, TrendBuildUp) > 0.0 ==> c.highVol == c.volLevel > 0.0
    ensures Score(c, SqueezeDown) == Score(c, TrendBuildDown) > 0.0 ==> c.highVol == c.volLevel > 0.0
  {
    hide Times;
    ProductOrder(c.highVol, c.volLevel, c.lowFlow);
    ProductOrder(c.highVol, c.volLevel, c.medFlow);
    WithoutDirection(Times(c.highVol, c.medFlow));
    WithoutDirection(Times(c.volLevel, c.medFlow));
  }

  /** From a volatility score of 3 on, the scores are the levels of the flow. */
  lemma ScoresAtHighVolatility(features: FeatureMap, r: Regime)
    requires FeatureValue(features, "atr_z").Some? && FeatureValue(features, "atr_z").value >= 3.0
    ensures var c := ConditionsOf(features);
            Score(c, r) == match r
                           case ChopBalanced => 0.0
                           case ChopStophunt => c.lowFlow
                           case LiquidationUp => if c.flowSign > 0 then c.highFlow else 0.0
                           case LiquidationDown => if c.flowSign < 0 then c.highFlow else 0.0
                           case SqueezeUp => if c.trendSign > 0 then c.medFlow else 0.0
                           case SqueezeDown => if c.trendSign < 0 then c.medFlow else 0.0
                           case TrendBuildUp => if c.trendSign > 0 then c.medFlow else 0.0
                           case TrendBuildDown => if c.trendSign < 0 then c.medFlow else 0.0
                           case TrendExhaustion => c.lowFlow
  {
    hide FeatureValue, FlowRatio, TrendSign;
  }

  /** The flows between which the middle level lies above both others. */
  predicate MiddleFlow(flow: real) {
    1.0 / 150.0 < flow < 0.05
  }

  lemma MiddleFlowLevels(features: FeatureMap)
    ensures var c, fr := ConditionsOf(features), FlowRatio(features);
            && (c.medFlow > c.lowFlow && c.medFlow > (if c.flowSign != 0 then c.highFlow else 0.0)
                <==> fr.Some? && MiddleFlow(F.Abs(fr.value)))
  {
    hide FeatureValue, FlowRatio, TrendSign;
  }

  /** A squeeze upwards, or downwards, has a trend that way, a volatility score of 3 or more, and a middle flow. */
  predicate Squeezes(features: FeatureMap, up: bool) {
    var vol, fr := FeatureValue(features, "atr_z"), FlowRatio(features);
    && vol.Some? && vol.value >= 3.0
    && TrendSign(features) == Some(if up then 1 else -1)
    && fr.Some? && MiddleFlow(F.Abs(fr.value))
  }

  lemma TrendIsSign(features: FeatureMap)
    ensures ConditionsOf(features).trendSign > 0 <==> TrendSign(features) == Some(1)
    ensures ConditionsOf(features).trendSign < 0 <==> TrendSign(features) == Some(-1)
  {
  }

  function Squeeze(up: bool): Regime {
    if up then SqueezeUp else SqueezeDown
  }

  lemma SqueezeNeeds(features: FeatureMap, up: bool)
    requires IsTop(Scores(features), REGIME_ORDER, Squeeze(up))
    ensures Squeezes(features, up)
  {
    hide FeatureValue, FlowRatio, TrendSign, Score, ConditionsOf, MiddleFlow, IsTop;
    var scores, choice := Scores(features), Squeeze(up);
    FirstIsStrict(scores, choice, ChopBalanced);
    FirstIsStrict(scores, choice, ChopStophunt);
    FirstIsStrict(scores, choice, LiquidationUp);
    FirstIsStrict(scores, choice, LiquidationDown);
    NoneScoresMore(scores, choice, if up then TrendBuildUp else TrendBuildDown);
    HighBelowLevel(features);
    ScoresAreOrdered(ConditionsOf(features));
    ScoresAtHighVolatility(features, ChopStophunt);
    ScoresAtHighVolatility(features, LiquidationUp);
    ScoresAtHighVolatility(features, LiquidationDown);
    ScoresAtHighVolatility(features, choice);
    MiddleFlowLevels(features);
    TrendIsSign(features);
  }

  lemma SqueezeSuffices(features: FeatureMap, up: bool, choice: Regime)
    requires IsTop(Scores(features), REGIME_ORDER, choice) && Squeezes(features, up)
    ensures choice == Squeeze(up)
  {
    hide FeatureValue, FlowRatio, TrendSign, Score, ConditionsOf, MiddleFlow, IsTop;
    var scores := Scores(features);
    NoneScoresMore(scores, choice, Squeeze(up));
    ScoresAtHighVolatility(features, choice);
    ScoresAtHighVolatility(features, Squeeze(up));
    MiddleFlowLevels(features);
    TrendIsSign(features);
    if choice == (if up then TrendBuildUp else TrendBuildDown) {
      FirstIsStrict(scores, choice, Squeeze(up));
    }
  }

  lemma NoneScoresMore(scores: Beliefs, choice: Regime, other: Regime)
    requires IsTop(scores, REGIME_ORDER, choice) && other in scores
    ensures scores[other] <= scores[choice]
  {
    AllRegimes();
  }

  /** The classical observer never decides for trend exhaustion: the stop hunt, declared earlier, scores no less. */
  lemma ClassicalNeverExhausted(features: FeatureMap)
    ensures Top(Scores(features), REGIME_ORDER) != Some(TrendExhaustion)
  {
    hide FeatureValue, Score, ConditionsOf, IsTop;
    var scores := Scores(features);
    TopIsFirstMaximum(scores, REGIME_ORDER);
    HighBelowLevel(features);
    ScoresAreOrdered(ConditionsOf(features));
    if Top(scores, REGIME_ORDER) == Some(TrendExhaustion) {
      FirstIsStrict(scores, TrendExhaustion, ChopStophunt);
    }
  }

  /** It decides for a squeeze exactly when the features squeeze that way. */
  lemma ClassicalSqueezesExactly(features: FeatureMap, up: bool)
    ensures Top(Scores(features), REGIME_ORDER) == Some(Squeeze(up)) <==> Squeezes(features, up)
  {
    hide FeatureValue, Score, ConditionsOf, Squeezes, IsTop;
    var scores := Scores(features);
    TopIsFirstMaximum(scores, REGIME_ORDER);
    AllRegimes();
    var choice := Top(scores, REGIME_ORDER).value;
    if choice == Squeeze(up) { SqueezeNeeds(features, up); }
    if Squeezes(features, up) { SqueezeSuffices(features, up, choice); }
  }

  /** What is declared before the choice scores strictly less. */
  lemma FirstIsStrict(scores: Beliefs, choice: Regime, other: Regime)
    requires IsTop(scores, REGIME_ORDER, choice) && other in scores && RegimeIndex(other) < RegimeIndex(choice)
    ensures scores[other] < scores[choice]
  {
    var i :| 0 <= i < |REGIME_ORDER| && REGIME_ORDER[i] == choice &&
             forall j :: 0 <= j < i && REGIME_ORDER[j] in scores ==> scores[REGIME_ORDER[j]] < scores[choice];
    assert i == RegimeIndex(choice);
  }

  /** The one opinion of the classical observer: the best of the nine scores, the first declared among equals. */
  ghost predicate ClassicalTells(features: FeatureMap, opinions: seq<Opinion>) {
    && |opinions| == 1 && InBounds(opinions[0]) && opinions[0].source == "composer:classical_regime_v1"
    && Top(Scores(features), REGIME_ORDER) == Some(opinions[0].regime)
    && opinions[0].strength == Scores(features)[opinions[0].regime]
    && opinions[0].confidence * 5.0 == |Present(features, ["price", "vwap", "atr_z", "cvd", "open_interest"])| as real
  }

  method ClassicalEmit(features: FeatureMap) returns (opinions: seq<Opinion>)
    ensures ClassicalTells(features, opinions)
    ensures opinions[0].confidence == 1.0 <==>
              forall i :: 0 <= i < |CLASSICAL_KEYS| ==> FeatureValue(features, CLASSICAL_KEYS[i]).Some?
  {
    hide Confidence;
    var winner, score := PickByRegimeOrder(Scores(features));
    var confidence := AvailabilityConfidence(features, CLASSICAL_KEYS);
    ConfidenceIsAShare(features, CLASSICAL_KEYS);
    ConfidenceTells(features, CLASSICAL_KEYS);
    return [Opinion(winner, Clamp01(score), Clamp01(confidence), CLASSICAL_SOURCE)];
  }

  /** The opinion of the flow observer, where the flow is strong enough: the regime it presses towards, in its
      direction. */
  ghost predicate FlowTells(features: FeatureMap, opinions: seq<Opinion>) {
    && (opinions == [] <==> FlowRatio(features).None? || F.Abs(FlowRatio(features).value) < 0.002)
    && (opinions != [] ==>
          var fr, vol, r := FlowRatio(features).value, FeatureValue(features, "atr_z"), opinions[0].regime;
          && |opinions| == 1 && InBounds(opinions[0]) && opinions[0].source == "composer:flow_pressure_v1"
          && OnLine(opinions[0].strength, F.Abs(fr), 0.0, 0.02) && opinions[0].confidence == 1.0
          && r in {LiquidationUp, SqueezeUp, TrendBuildUp, LiquidationDown, SqueezeDown, TrendBuildDown}
          && (fr > 0.0 <==> r in {LiquidationUp, SqueezeUp, TrendBuildUp})
          && (r in {LiquidationUp, LiquidationDown} <==> F.Abs(fr) >= 0.02 && vol.Some? && vol.value >= 1.5)
          && (r in {TrendBuildUp, TrendBuildDown} <==> vol.None? || vol.value < 1.0))
  }

  method FlowEmit(features: FeatureMap) returns (opinions: seq<Opinion>)
    ensures FlowTells(features, opinions)
  {
    var fr := FlowRatio(features);
    if fr.None? || F.Abs(fr.value) < 0.002 {
      return [];
    }
    var up := fr.value > 0.0;
    var vol := FeatureValue(features, "atr_z");
    var regime: Regime;
    if vol.Some? && vol.value >= 1.5 && F.Abs(fr.value) >= 0.02 {
      regime := if up then LiquidationUp else LiquidationDown;
    } else if vol.Some? && vol.value >= 1.0 {
      regime := if up then SqueezeUp else SqueezeDown;
    } else {
      regime := if up then TrendBuildUp else TrendBuildDown;
    }
    var confidence := AvailabilityConfidence(features, FLOW_KEYS);
    FlowKeysAvailable(features);
    return [Opinion(regime, Clamp01(F.Abs(fr.value) / 0.02), Clamp01(confidence), FLOW_SOURCE)];
  }

  lemma FlowKeysAvailable(features: FeatureMap)
    ensures FlowRatio(features).Some? ==> Confidence(features, FLOW_KEYS) == 1.0
  {
    ConfidenceIsAShare(features, FLOW_KEYS);
  }

  /** The opinion of the volatility observer: between the calm and the wild the trend decides, and without a trend there
      is none. */
  ghost predicate VolatilityTells(features: FeatureMap, opinions: seq<Opinion>) {
    && (var vol, ts := FeatureValue(features, "atr_z"), TrendSign(features);
        opinions == [] <==> vol.None? || (0.8 < vol.value < 1.8 && (ts.None? || ts.value == 0)))
    && (opinions != [] ==>
          && |opinions| == 1 && InBounds(opinions[0]) && opinions[0].source == "composer:volatility_context_v1"
          && opinions[0].confidence == 1.0
          && var vol, r := FeatureValue(features, "atr_z").value, opinions[0].regime;
             && OnLine(opinions[0].strength, vol, 0.2, 2.2)
             && (r == ChopBalanced <==> vol <= 0.2) && (r == ChopStophunt <==> 0.2 < vol <= 0.8)
             && (r == TrendExhaustion <==> vol >= 1.8)
             && (r == SqueezeUp <==> 0.8 < vol < 1.8 && TrendSign(features) == Some(1))
             && (r == SqueezeDown <==> 0.8 < vol < 1.8 && TrendSign(features) == Some(-1)))
  }

  method VolatilityEmit(features: FeatureMap) returns (opinions: seq<Opinion>)
    ensures VolatilityTells(features, opinions)
  {
    var vol := FeatureValue(features, "atr_z");
    if vol.None? {
      return [];
    }
    var regime: Regime;
    if vol.value <= 0.2 {
      regime := ChopBalanced;
    } else if vol.value <= 0.8 {
      regime := ChopStophunt;
    } else if vol.value >= 1.8 {
      regime := TrendExhaustion;
    } else {
      var ts := TrendSign(features);
      if ts.None? || ts.value == 0 {
        return [];
      }
      regime := if ts.value > 0 then SqueezeUp else SqueezeDown;
    }
    var confidence := AvailabilityConfidence(features, VOLATILITY_KEYS);
    ConfidenceIsAShare(features, VOLATILITY_KEYS);
    assert FeatureValue(features, VOLATILITY_KEYS[0]).Some?;
    return [Opinion(regime, Clamp01((vol.value - 0.2) / 2.0), Clamp01(confidence), VOLATILITY_SOURCE)];
  }

  /** All observers together: exactly their opinions, always at least one, all of them within bounds and in canonical
      order. So the evidence, embedded into a snapshot of its symbol and time, is read back as it is, without
      invalidations. */
  method ComputeEvidence(symbol: string, timestamp: int, features: FeatureMap, snapshot: InputSnapshot)
    returns (evidence: EvidenceSnapshot)
    requires snapshot.symbol == symbol && snapshot.timestamp == timestamp
    ensures evidence.symbol == symbol && evidence.timestamp == timestamp && 1 <= |evidence.opinions| <= 3
    ensures forall i :: 0 <= i < |evidence.opinions| ==> InBounds(evidence.opinions[i])
    ensures OrderOpinions(evidence.opinions) == evidence.opinions
    ensures exists a, b, c ::
              && ClassicalTells(features, a) && FlowTells(features, b) && VolatilityTells(features, c)
              && multiset(evidence.opinions) == multiset(a + b + c)
    ensures var read := Extract(Embed(snapshot, evidence));
            read.Some? && read.value.evidence == evidence && read.value.invalidations == []
  {
    hide *;
    var a := ClassicalEmit(features);
    var b := FlowEmit(features);
    var c := VolatilityEmit(features);
    var all := a + b + c;
    EmittedInBounds(features, a, b, c);
    OrderIsCanonical(all, all);
    StillInBounds(all);
    evidence := EvidenceSnapshot(symbol, timestamp, OrderOpinions(all));
    AllValid(evidence.opinions);
    EmbedThenExtract(snapshot, evidence);
  }

  lemma EmittedInBounds(features: FeatureMap, a: seq<Opinion>, b: seq<Opinion>, c: seq<Opinion>)
    requires ClassicalTells(features, a) && FlowTells(features, b) && VolatilityTells(features, c)
    ensures 1 <= |a + b + c| <= 3 && forall i :: 0 <= i < |a + b + c| ==> InBounds((a + b + c)[i])
  {
    hide FeatureValue, FlowRatio, TrendSign, Scores, Top, Present;
  }

  lemma StillInBounds(opinions: seq<Opinion>)
    requires forall i :: 0 <= i < |opinions| ==> InBounds(opinions[i])
    ensures var ordered := OrderOpinions(opinions);
            |ordered| == |opinions| && forall i :: 0 <= i < |ordered| ==> InBounds(ordered[i])
  {
    SortPermutes(OpinionLe, opinions);
    var ordered := OrderOpinions(opinions);
    assert |multiset(ordered)| == |multiset(opinions)|;
    forall i | 0 <= i < |ordered| ensures InBounds(ordered[i]) {
      assert ordered[i] in multiset(ordered);
      assert ordered[i] in opinions;
    }
  }
}
