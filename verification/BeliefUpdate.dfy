/** From opinions to beliefs, from beliefs to a regime, and on to the hysteresis anchor. */
module BeliefUpdate {
  import opened Ordering
  import opened Regimes
  import opened HysteresisRules
  import opened HysteresisRuns
  import opened Evidence

  // ----- Selecting an opinion -----

  /** The stronger first, then the more confident, then the regime declared first; the source does not count. */
  predicate Preferred(a: Opinion, b: Opinion) {
    if a.strength != b.strength then a.strength > b.strength
    else if a.confidence != b.confidence then a.confidence > b.confidence
    else RegimeIndex(a.regime) <= RegimeIndex(b.regime)
  }

  function SelectOpinion(opinions: seq<Opinion>): Option<Opinion> {
    var ordered := Sort(Preferred, opinions);
    if ordered == [] then None else Some(ordered[0])
  }

  lemma SelectedIsPreferred(opinions: seq<Opinion>)
    ensures SelectOpinion(opinions).None? <==> opinions == []
    ensures SelectOpinion(opinions).Some? ==>
              SelectOpinion(opinions).value in opinions &&
              forall o :: o in opinions ==> Preferred(SelectOpinion(opinions).value, o)
  {
    SortPermutes(Preferred, opinions);
    SortSorts(Preferred, opinions);
    var ordered := Sort(Preferred, opinions);
    assert |multiset(ordered)| == |multiset(opinions)|;
    if ordered != [] {
      assert ordered[0] in multiset(ordered);
      forall o | o in opinions ensures Preferred(ordered[0], o) {
        assert o in multiset(ordered);
        var i :| 0 <= i < |ordered| && ordered[i] == o;
      }
    }
  }

  /** The selected opinion is one of them: none is stronger, none as strong is more confident, and none as strong and as
      confident has a regime declared earlier. */
  lemma SelectedIsStrongest(opinions: seq<Opinion>)
    ensures SelectOpinion(opinions).None? <==> opinions == []
    ensures SelectOpinion(opinions).Some? ==> SelectOpinion(opinions).value in opinions
    ensures forall o :: o in opinions ==>
              var s := SelectOpinion(opinions).value;
              && s.strength >= o.strength
              && (s.strength == o.strength ==> s.confidence >= o.confidence)
              && (s.strength == o.strength && s.confidence == o.confidence ==>
                    RegimeIndex(s.regime) <= RegimeIndex(o.regime))
  {
    hide SelectOpinion;
    SelectedIsPreferred(opinions);
  }

  /** The regime, strength and confidence selected do not depend on the order of the opinions. */
  lemma SelectionIgnoresOrder(opinions: seq<Opinion>, shuffled: seq<Opinion>)
    requires multiset(opinions) == multiset(shuffled)
    ensures SelectOpinion(opinions).Some? <==> SelectOpinion(shuffled).Some?
    ensures SelectOpinion(opinions).Some? ==>
              var a, b := SelectOpinion(opinions).value, SelectOpinion(shuffled).value;
              a.regime == b.regime && a.strength == b.strength && a.confidence == b.confidence
  {
    hide SelectOpinion;
    SelectedIsPreferred(opinions);
    SelectedIsPreferred(shuffled);
    assert |multiset(opinions)| == |multiset(shuffled)|;
    assert forall o :: o in opinions <==> o in multiset(opinions);
    if opinions != [] {
      SameRank(SelectOpinion(opinions).value, SelectOpinion(shuffled).value);
    }
  }

  lemma SameRank(a: Opinion, b: Opinion)
    requires Preferred(a, b) && Preferred(b, a)
    ensures a.regime == b.regime && a.strength == b.strength && a.confidence == b.confidence
  {
    assert REGIME_ORDER[RegimeIndex(a.regime)] == a.regime && REGIME_ORDER[RegimeIndex(b.regime)] == b.regime;
  }

  // ----- Beliefs -----

  function Total(beliefs: Beliefs, order: seq<Regime>): real {
    if |order| == 0 then 0.0 else Total(beliefs, order[..|order| - 1]) + Belief(beliefs, order[|order| - 1])
  }

  /** What the engine asserts of every belief state. */
  ghost predicate Sound(state: RegimeState) {
    && state.anchor in state.beliefs
    && (forall r :: r in state.beliefs ==> 0.0 <= state.beliefs[r] <= 1.0)
    && Total(state.beliefs, REGIME_ORDER) == 1.0
  }

  function OneHot(r: Regime): (beliefs: Beliefs)
    ensures forall x: Regime :: x in beliefs && beliefs[x] == if x == r then 1.0 else 0.0
  {
    AllRegimes();
    map x | x in REGIME_ORDER :: if x == r then 1.0 else 0.0
  }

  function Uniform(): (beliefs: Beliefs)
    ensures forall x: Regime :: x in beliefs && beliefs[x] == 1.0 / 9.0
  {
    AllRegimes();
    map x | x in REGIME_ORDER :: 1.0 / 9.0
  }

  function InitialState(symbol: string, timestamp: int): RegimeState {
    RegimeState(symbol, timestamp, Uniform(), REGIME_ORDER[0])
  }

  datatype UpdateError = SymbolMismatch

  function Updated(state: RegimeState, evidence: EvidenceSnapshot): Result<RegimeState, UpdateError> {
    if state.symbol != evidence.symbol then Err(SymbolMismatch)
    else
      match SelectOpinion(evidence.opinions)
      case None => Ok(state.(timestamp := evidence.timestamp))
      case Some(o) => Ok(RegimeState(state.symbol, evidence.timestamp, OneHot(o.regime), o.regime))
  }

  /** An update by its fields: it is refused exactly for evidence of another symbol, takes the time of the evidence, and
      puts all belief on the regime of an opinion that no other precedes; without opinions beliefs and anchor stay. */
  lemma UpdateTells(state: RegimeState, evidence: EvidenceSnapshot)
    ensures Updated(state, evidence).Err? <==> state.symbol != evidence.symbol
    ensures Updated(state, evidence).Ok? ==>
              var next := Updated(state, evidence).value;
              && next.symbol == state.symbol == evidence.symbol && next.timestamp == evidence.timestamp
              && (evidence.opinions == [] ==> next.beliefs == state.beliefs && next.anchor == state.anchor)
              && (evidence.opinions != [] ==>
                    && (forall x: Regime ::
                          x in next.beliefs && next.beliefs[x] == if x == next.anchor then 1.0 else 0.0)
                    && exists s :: && s in evidence.opinions && s.regime == next.anchor
                                   && forall o :: o in evidence.opinions ==> Precedes(s, o))
  {
    hide SelectOpinion;
    SelectedIsStrongest(evidence.opinions);
  }

  /** Not weaker, nor as strong and less confident, nor as strong and confident and declared later. */
  predicate Precedes(s: Opinion, o: Opinion) {
    || s.strength > o.strength
    || (s.strength == o.strength && s.confidence > o.confidence)
    || (s.strength == o.strength && s.confidence == o.confidence && RegimeIndex(s.regime) <= RegimeIndex(o.regime))
  }

  /** A first state names its symbol and time, and believes in each regime alike. */
  lemma InitialTells(symbol: string, timestamp: int)
    ensures var state := InitialState(symbol, timestamp);
            && state.symbol == symbol && state.timestamp == timestamp && RegimeIndex(state.anchor) == 0
            && forall x: Regime, y: Regime :: x in state.beliefs && state.beliefs[x] == state.beliefs[y]
  {
  }

  lemma NineTerms(beliefs: Beliefs)
    ensures Total(beliefs, REGIME_ORDER)
         == Belief(beliefs, ChopBalanced) + Belief(beliefs, ChopStophunt) + Belief(beliefs, LiquidationUp)
            + Belief(beliefs, LiquidationDown) + Belief(beliefs, SqueezeUp) + Belief(beliefs, SqueezeDown)
            + Belief(beliefs, TrendBuildUp) + Belief(beliefs, TrendBuildDown) + Belief(beliefs, TrendExhaustion)
  {
    hide Belief;
    var o := REGIME_ORDER;
    TotalStep(beliefs, 0);
    TotalStep(beliefs, 1);
    TotalStep(beliefs, 2);
    TotalStep(beliefs, 3);
    TotalStep(beliefs, 4);
    TotalStep(beliefs, 5);
    TotalStep(beliefs, 6);
    TotalStep(beliefs, 7);
    TotalStep(beliefs, 8);
    assert o[..0] == [] && o[..9] == o;
  }

  lemma TotalStep(beliefs: Beliefs, n: nat)
    requires n < 9
    ensures Total(beliefs, REGIME_ORDER[..n + 1])
            == Total(beliefs, REGIME_ORDER[..n]) + Belief(beliefs, REGIME_ORDER[n])
  {
    assert REGIME_ORDER[..n + 1][..n] == REGIME_ORDER[..n];
  }

  /** Beliefs stay a distribution with the anchor in it, from the first state on and through every update. */
  lemma BeliefsStaySound(state: RegimeState, evidence: EvidenceSnapshot, symbol: string, timestamp: int)
    ensures Sound(InitialState(symbol, timestamp))
    ensures Sound(state) && Updated(state, evidence).Ok? ==> Sound(Updated(state, evidence).value)
  {
    hide SelectOpinion, Total, OneHot, Uniform;
    UniformTotal();
    if Updated(state, evidence).Ok? && SelectOpinion(evidence.opinions).Some? {
      OneHotTotal(SelectOpinion(evidence.opinions).value.regime);
    }
  }

  lemma UniformTotal()
    ensures Total(Uniform(), REGIME_ORDER) == 1.0
  {
    hide Total, Uniform;
    NineTerms(Uniform());
  }

  lemma OneHotTotal(r: Regime)
    ensures Total(OneHot(r), REGIME_ORDER) == 1.0
  {
    hide Total, OneHot;
    NineTerms(OneHot(r));
  }

  // ----- Projecting a regime -----

  datatype Item = Item(regime: Regime, belief: real)

  predicate HigherItem(a: Item, b: Item) {
    if a.belief != b.belief then a.belief > b.belief else RegimeIndex(a.regime) <= RegimeIndex(b.regime)
  }

  /** The items of a belief map, in whatever order the map lists them. */
  ghost predicate ListsItems(items: seq<Item>, beliefs: Beliefs) {
    && (forall i :: 0 <= i < |items| ==> items[i].regime in beliefs && beliefs[items[i].regime] == items[i].belief)
    && (forall r :: r in beliefs ==> Item(r, beliefs[r]) in items)
  }

  function ProjectRegime(items: seq<Item>): Option<Regime> {
    var ordered := Sort(HigherItem, items);
    if ordered == [] then None else Some(ordered[0].regime)
  }

  lemma HigherItemTransitive()
    ensures TotalPreorder(HigherItem)
  {
  }

  /** The projection is the top regime of the hysteresis rules: the highest belief, the first declared among equals,
      whatever order the map lists its items in. */
  lemma ProjectionIsTop(items: seq<Item>, beliefs: Beliefs)
    requires ListsItems(items, beliefs)
    ensures ProjectRegime(items) == Top(beliefs, REGIME_ORDER)
  {
    hide Top;
    AllRegimes();
    TopIsFirstMaximum(beliefs, REGIME_ORDER);
    HigherItemTransitive();
    SortPermutes(HigherItem, items);
    SortSorts(HigherItem, items);
    var ordered := Sort(HigherItem, items);
    assert |multiset(ordered)| == |multiset(items)|;
    if ordered == [] {
      assert items == [];
    } else {
      var first := ordered[0];
      assert first in multiset(ordered) && first in items;
      var r := first.regime;
      forall x | x in beliefs ensures HigherItem(first, Item(x, beliefs[x])) {
        assert Item(x, beliefs[x]) in multiset(items);
        var i :| 0 <= i < |ordered| && ordered[i] == Item(x, beliefs[x]);
      }
      HighestIsTop(beliefs, r);
      TopIsUnique(beliefs, REGIME_ORDER, r, Top(beliefs, REGIME_ORDER).value);
    }
  }

  lemma HighestIsTop(beliefs: Beliefs, r: Regime)
    requires r in beliefs && forall x :: x in beliefs ==> HigherItem(Item(r, beliefs[r]), Item(x, beliefs[x]))
    ensures IsTop(beliefs, REGIME_ORDER, r)
  {
    var i := RegimeIndex(r);
    forall x | x in REGIME_ORDER && x in beliefs ensures beliefs[x] <= beliefs[r] {
      assert HigherItem(Item(r, beliefs[r]), Item(x, beliefs[x]));
    }
    forall j | 0 <= j < i && REGIME_ORDER[j] in beliefs ensures beliefs[REGIME_ORDER[j]] < beliefs[r] {
      var x := REGIME_ORDER[j];
      assert HigherItem(Item(r, beliefs[r]), Item(x, beliefs[x]));
      IndexOfPosition(j);
    }
  }

  lemma IndexOfPosition(j: nat)
    requires j < 9
    ensures RegimeIndex(REGIME_ORDER[j]) == j
  {
  }

  lemma OneHotTop(r: Regime, order: seq<Regime>)
    requires r in order
    ensures Top(OneHot(r), order) == Some(r)
  {
    TopIsFirstMaximum(OneHot(r), order);
    var top := Top(OneHot(r), order).value;
    assert r in order && r in OneHot(r);
    assert OneHot(r)[r] <= OneHot(r)[top];
  }

  /** An update with opinions is projected back to the regime of the selected opinion, and is the same for every order
      of the opinions. */
  lemma SelectedIsProjected(state: RegimeState, evidence: EvidenceSnapshot, shuffled: seq<Opinion>, items: seq<Item>)
    requires state.symbol == evidence.symbol && evidence.opinions != []
             && multiset(evidence.opinions) == multiset(shuffled)
    requires ListsItems(items, Updated(state, evidence).value.beliefs)
    ensures Updated(state, evidence.(opinions := shuffled)) == Updated(state, evidence)
    ensures SelectOpinion(evidence.opinions).Some?
    ensures ProjectRegime(items) == Some(SelectOpinion(evidence.opinions).value.regime)
  {
    hide SelectOpinion, ProjectRegime, OneHot, Top;
    SelectedIsPreferred(evidence.opinions);
    SelectionIgnoresOrder(evidence.opinions, shuffled);
    ProjectionIsTop(items, Updated(state, evidence).value.beliefs);
    AllRegimes();
    OneHotTop(SelectOpinion(evidence.opinions).value.regime, REGIME_ORDER);
  }

  // ----- From opinions to the anchor -----

  /** Thresholds that a full belief can meet. */
  predicate Reachable(config: Config) {
    config.enterThreshold <= 1.0 && config.commitThreshold <= 1.0
      && (config.minLead.Some? ==> config.minLead.value <= 1.0)
  }

  /** The beliefs that a run of evidence for one symbol leads to. */
  ghost predicate Follows(updates: seq<Beliefs>, evidence: seq<EvidenceSnapshot>) {
    && |updates| == |evidence|
    && forall i :: 0 <= i < |updates| ==>
         SelectOpinion(evidence[i].opinions).Some?
           && updates[i] == OneHot(SelectOpinion(evidence[i].opinions).value.regime)
  }

  /** Opinions reach the anchor: after as many updates in a row as the window asks for, each with its preferred opinion
      for an allowed regime, that regime is the settled anchor, whatever was pending before. */
  lemma OpinionsReachTheAnchor(start: Core, updates: seq<Beliefs>, evidence: seq<EvidenceSnapshot>, config: Config,
                               r: Regime)
    requires Sensible(config) && Reachable(config) && Consistent(start, config) && start.anchor != r
    requires r in Order(config.allowed)
    requires Follows(updates, evidence) && |updates| >= config.windowUpdates
    requires forall i :: 0 <= i < |evidence| && SelectOpinion(evidence[i].opinions).Some? ==>
               SelectOpinion(evidence[i].opinions).value.regime == r
    ensures Run(start, updates, config) == Core(r, None, 0)
  {
    hide SelectOpinion, Run, Top, Order;
    OneHotTop(r, Order(config.allowed));
    forall i | 0 <= i < |updates| ensures Favours(updates[i], r, start.anchor, config) {
      assert updates[i] == OneHot(r);
    }
    Convergence(start, updates, config, r);
  }
}
