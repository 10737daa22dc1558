/** Regimes, beliefs and the outputs of the regime engine. */
module Regimes {
  import opened Ordering

  datatype Regime =
    | ChopBalanced | ChopStophunt
    | LiquidationUp | LiquidationDown
    | SqueezeUp | SqueezeDown
    | TrendBuildUp | TrendBuildDown
    | TrendExhaustion

  /** The declaration order of the enumeration, which breaks ties. */
  const REGIME_ORDER: seq<Regime> := [
    ChopBalanced, ChopStophunt, LiquidationUp, LiquidationDown, SqueezeUp, SqueezeDown,
    TrendBuildUp, TrendBuildDown, TrendExhaustion]

  function RegimeIndex(r: Regime): (i: nat)
    ensures i < |REGIME_ORDER| && REGIME_ORDER[i] == r
  {
    match r
    case ChopBalanced => 0
    case ChopStophunt => 1
    case LiquidationUp => 2
    case LiquidationDown => 3
    case SqueezeUp => 4
    case SqueezeDown => 5
    case TrendBuildUp => 6
    case TrendBuildDown => 7
    case TrendExhaustion => 8
  }

  lemma AllRegimes()
    ensures forall r: Regime :: r in REGIME_ORDER
  {
    forall r: Regime ensures r in REGIME_ORDER {
      assert REGIME_ORDER[RegimeIndex(r)] == r;
    }
  }

  /** The text that stands for a regime in payloads. */
  function RegimeValue(r: Regime): string {
    match r
    case ChopBalanced => "CHOP_BALANCED"
    case ChopStophunt => "CHOP_STOPHUNT"
    case LiquidationUp => "LIQUIDATION_UP"
    case LiquidationDown => "LIQUIDATION_DOWN"
    case SqueezeUp => "SQUEEZE_UP"
    case SqueezeDown => "SQUEEZE_DOWN"
    case TrendBuildUp => "TREND_BUILD_UP"
    case TrendBuildDown => "TREND_BUILD_DOWN"
    case TrendExhaustion => "TREND_EXHAUSTION"
  }

  /** Different regimes have different texts. */
  lemma RegimeTextsDiffer(a: Regime, b: Regime)
    requires RegimeValue(a) == RegimeValue(b)
    ensures a == b
  {
  }

  /** The regime that a text stands for: the first of the enumeration with that value. */
  function RegimeFromValue(value: string): (r: Option<Regime>)
    ensures r.Some? ==> RegimeValue(r.value) == value
    ensures r.None? ==> forall x: Regime :: RegimeValue(x) != value
  {
    FirstWithValue(value, 0)
  }

  function FirstWithValue(value: string, i: nat): (r: Option<Regime>)
    requires i <= |REGIME_ORDER|
    ensures r.Some? ==> RegimeValue(r.value) == value
    ensures r.None? ==> forall x: Regime :: RegimeIndex(x) >= i ==> RegimeValue(x) != value
    decreases |REGIME_ORDER| - i
  {
    if i == |REGIME_ORDER| then None
    else if RegimeValue(REGIME_ORDER[i]) == value then Some(REGIME_ORDER[i])
    else
      assert forall x: Regime :: RegimeIndex(x) == i ==> x == REGIME_ORDER[i];
      FirstWithValue(value, i + 1)
  }

  type Beliefs = map<Regime, real>

  /** What a regime is believed with; absent regimes count as 0. */
  function Belief(beliefs: Beliefs, r: Regime): real {
    if r in beliefs then beliefs[r] else 0.0
  }

  /** The belief state that the engine derives for one update of a symbol. */
  datatype RegimeState = RegimeState(symbol: string, timestamp: int, beliefs: Beliefs, anchor: Regime)

  datatype RegimeOutput = RegimeOutput(
    symbol: string,
    timestamp: int,
    regime: Regime,
    confidence: real,
    drivers: seq<string>,
    invalidations: seq<string>,
    permissions: seq<string>)
}
