/** Which configurations never let a leading anchor go, over the beliefs that the engine accepts and over those that its
    pipeline yields. */
module LeaderSafety {
  import opened Ordering
  import opened Reals
  import opened Regimes
  import opened HysteresisRules
  import opened HysteresisRuns
  import opened BeliefUpdate

  /** What a symbol's hysteresis has come to; a symbol never seen starts on the anchor of the update itself. */
  function CoreAfter(past: seq<RegimeState>, update: RegimeState, config: Config): Core {
    if |past| == 0 then Fresh(update.anchor) else Run(Fresh(past[0].anchor), BeliefsOf(past), config)
  }

  /** The update does not drop an anchor that is its own top regime. */
  ghost predicate KeepsLeader(past: seq<RegimeState>, update: RegimeState, config: Config) {
    var core := CoreAfter(past, update, config);
    Top(update.beliefs, Order(config.allowed)) == Some(core.anchor) ==>
      Step(core, update.beliefs, config).anchor == core.anchor
  }

  ghost predicate AllSound(past: seq<RegimeState>) {
    forall i :: 0 <= i < |past| ==> Sound(past[i])
  }

  /** No run of belief distributions leads to an anchor that an update drops although it is the top regime. */
  ghost predicate LeaderIsSafe(config: Config) {
    forall past: seq<RegimeState>, update: RegimeState :: AllSound(past) && Sound(update) ==>
      KeepsLeader(past, update, config)
  }

  // ----- The condition -----

  predicate AllAllowed(order: seq<Regime>) {
    forall r :: r in REGIME_ORDER ==> r in order
  }

  predicate HasRival(order: seq<Regime>) {
    exists i :: 0 < i < |order| && order[i] != order[0]
  }

  /** The lead that the gate asks for, as far as it asks for one at all. */
  function Lead(config: Config): real {
    if config.minLead.Some? && config.minLead.value > 0.0 then config.minLead.value else 0.0
  }

  /** The least belief with which a regime can be on top with that lead. If a regime is not allowed, it can take up all
      the rest; otherwise the nine have to share. */
  function Floor(config: Config): real {
    if AllAllowed(Order(config.allowed)) then (1.0 + Lead(config)) / 9.0 else 0.0
  }

  /** Nothing decays, two regimes are allowed, a candidate can wait below the commit threshold, and the threshold leaves
      room for a leader beside it. */
  predicate Losable(config: Config) {
    && config.decayStep == 0
    && HasRival(Order(config.allowed))
    && config.enterThreshold < config.commitThreshold
    && Lead(config) < config.commitThreshold
    && Floor(config) < config.commitThreshold <= 0.5
  }

  // ----- A full window -----

  /** A window is filled by an update that lets its candidate in but not commit. */
  lemma {:induction false} FullWindow(anchor: Regime, updates: seq<Beliefs>, config: Config) returns (i: nat)
    requires Sensible(config) && Run(Fresh(anchor), updates, config).progress == config.windowUpdates
    ensures var core := Run(Fresh(anchor), updates, config);
            && i < |updates| && core.candidate.Some?
            && EligibleFor(updates[i], core.anchor, config) == core.candidate
            && Belief(updates[i], core.candidate.value) < config.commitThreshold
  {
    hide Top, EligibleFor;
    var n := |updates| - 1;
    var before := Run(Fresh(anchor), updates[..n], config);
    ReachableConsistent(Fresh(anchor), updates[..n], config);
    if EligibleFor(updates[n], before.anchor, config).Some? {
      i := n;
    } else {
      i := FullWindow(anchor, updates[..n], config);
    }
  }

  /** How a leader can be lost at all. */
  lemma LostLeader(past: seq<RegimeState>, update: RegimeState, config: Config) returns (i: nat, r: Regime)
    requires Sensible(config) && !KeepsLeader(past, update, config)
    ensures var a := CoreAfter(past, update, config).anchor;
            && i < |past| && r != a && config.decayStep == 0
            && Top(update.beliefs, Order(config.allowed)) == Some(a)
            && Belief(update.beliefs, r) >= config.commitThreshold
            && Top(past[i].beliefs, Order(config.allowed)) == Some(r)
            && config.enterThreshold <= Belief(past[i].beliefs, r) < config.commitThreshold
            && LeadOk(past[i].beliefs, a, r, config)
  {
    hide Top, LeadOk;
    var core := CoreAfter(past, update, config);
    if |past| > 0 {
      ReachableConsistent(Fresh(past[0].anchor), BeliefsOf(past), config);
    }
    i := FullWindow(past[0].anchor, BeliefsOf(past), config);
    r := core.candidate.value;
  }

  lemma TopOf(beliefs: Beliefs, order: seq<Regime>, r: Regime)
    requires Top(beliefs, order) == Some(r)
    ensures r in order && r in beliefs && forall x :: x in order ==> x in beliefs ==> beliefs[x] <= beliefs[r]
  {
    TopIsFirstMaximum(beliefs, order);
  }

  lemma SoundBounds(state: RegimeState)
    requires Sound(state)
    ensures forall x: Regime :: 0.0 <= Belief(state.beliefs, x) <= 1.0
    ensures forall x: Regime, y: Regime :: x != y ==> Belief(state.beliefs, x) + Belief(state.beliefs, y) <= 1.0
  {
    hide Total;
    NineTerms(state.beliefs);
    forall x: Regime, y: Regime | x != y ensures Belief(state.beliefs, x) + Belief(state.beliefs, y) <= 1.0 {
      TwoOfNine(state.beliefs, x, y);
    }
  }

  lemma TwoOfNine(beliefs: Beliefs, x: Regime, y: Regime)
    requires x != y && forall r: Regime :: 0.0 <= Belief(beliefs, r)
    ensures Belief(beliefs, x) + Belief(beliefs, y) <= Total(beliefs, REGIME_ORDER)
  {
    hide Total, Belief;
    NineTerms(beliefs);
  }

  /** With all nine allowed, the top regime holds at least its share and the lead's. */
  lemma TopShare(beliefs: Beliefs, r: Regime, a: Regime, lead: real)
    requires a != r && lead >= 0.0 && forall x: Regime :: Belief(beliefs, x) <= Belief(beliefs, r)
    requires Belief(beliefs, a) <= Belief(beliefs, r) - lead
    ensures Total(beliefs, REGIME_ORDER) <= 9.0 * Belief(beliefs, r) - lead
  {
    hide Total, Belief;
    NineTerms(beliefs);
  }

  lemma LostIsLosable(past: seq<RegimeState>, update: RegimeState, config: Config)
    requires Sensible(config) && AllSound(past) && Sound(update) && !KeepsLeader(past, update, config)
    ensures Losable(config)
  {
    hide Top, KeepsLeader, CoreAfter, Total;
    var i, r := LostLeader(past, update, config);
    var a, order, w := CoreAfter(past, update, config).anchor, Order(config.allowed), past[i];
    TopOf(update.beliefs, order, a);
    TopOf(w.beliefs, order, r);
    SoundBounds(w);
    SoundBounds(update);
    RivalIn(order, a, r);
    assert 0.0 <= Belief(w.beliefs, r) < config.commitThreshold && r in update.beliefs;
    assert Belief(update.beliefs, a) + Belief(update.beliefs, r) <= 1.0;
    assert Lead(config) <= Belief(w.beliefs, r);
    if AllAllowed(order) {
      AllRegimes();
      TopShare(w.beliefs, r, a, Lead(config));
    }
  }

  lemma RivalIn(order: seq<Regime>, a: Regime, b: Regime)
    requires a in order && b in order && a != b
    ensures HasRival(order)
  {
    var i :| 0 <= i < |order| && order[i] == a;
    var j :| 0 <= j < |order| && order[j] == b;
    assert order[i] != order[0] || order[j] != order[0];
  }

  // ----- A run that loses its leader -----

  lemma {:induction false} WindowFills(config: Config, w: Beliefs, a: Regime, r: Regime, n: nat)
    requires Sensible(config) && n <= config.windowUpdates
    requires EligibleFor(w, a, config) == Some(r) && Belief(w, r) < config.commitThreshold
    ensures Run(Fresh(a), seq(n, _ => w), config) == Core(a, if n == 0 then None else Some(r), n)
  {
    hide EligibleFor;
    if n > 0 {
      WindowFills(config, w, a, r, n - 1);
      assert seq(n, _ => w)[..n - 1] == seq(n - 1, _ => w);
    }
  }

  /** The first allowed regime, and the first other one. */
  lemma FirstRival(order: seq<Regime>) returns (a: Regime, r: Regime, k: nat)
    requires HasRival(order)
    ensures 0 < k < |order| && a == order[0] && r == order[k] && a != r
    ensures forall j :: 0 <= j < k ==> order[j] == a
  {
    a, k := order[0], 1;
    while order[k] == a
      invariant 0 < k < |order| && exists i :: k <= i < |order| && order[i] != a
      invariant forall j :: 0 <= j < k ==> order[j] == a
      decreases |order| - k
    {
      k := k + 1;
    }
    r := order[k];
  }

  lemma IsTheTop(beliefs: Beliefs, order: seq<Regime>, r: Regime, k: nat)
    requires k < |order| && order[k] == r && r in beliefs
    requires forall x :: x in order && x in beliefs ==> beliefs[x] <= beliefs[r]
    requires forall j :: 0 <= j < k && order[j] in beliefs ==> beliefs[order[j]] < beliefs[r]
    ensures Top(beliefs, order) == Some(r)
  {
    TopIsFirstMaximum(beliefs, order);
    assert order[k] in order;
    TopIsUnique(beliefs, order, r, Top(beliefs, order).value);
  }

  /** The losing update: leader and candidate share all belief, and the leader is declared first. */
  function Shared(a: Regime, r: Regime): Beliefs {
    map[a := 0.5, r := 0.5]
  }

  lemma SharedIsSound(a: Regime, r: Regime)
    requires a != r
    ensures Sound(RegimeState("", 0, Shared(a, r), a))
  {
    hide Total;
    NineTerms(Shared(a, r));
  }

  /** A waiting update: the candidate on top with `v`, the anchor with `s`, the others with `t` each. */
  function Waiting(a: Regime, r: Regime, v: real, s: real, t: real): (w: Beliefs)
    requires a != r
    ensures forall x: Regime :: x in w && w[x] == if x == r then v else if x == a then s else t
  {
    AllRegimes();
    map x | x in REGIME_ORDER :: if x == r then v else if x == a then s else t
  }

  lemma WaitingIsSound(a: Regime, r: Regime, v: real, s: real, t: real)
    requires a != r && 0.0 <= v <= 1.0 && 0.0 <= s <= 1.0 && 0.0 <= t <= 1.0 && v + s + 7.0 * t == 1.0
    ensures Sound(RegimeState("", 0, Waiting(a, r, v, s, t), a))
  {
    hide Total, Waiting;
    NineTerms(Waiting(a, r, v, s, t));
  }

  /** A waiting update that leaves the rest to a regime that is not allowed. */
  function Aside(a: Regime, r: Regime, x: Regime, v: real): Beliefs {
    map[a := 0.0][r := v][x := 1.0 - v]
  }

  lemma TotalWith(beliefs: Beliefs, x: Regime, v: real)
    ensures Total(beliefs[x := v], REGIME_ORDER) == Total(beliefs, REGIME_ORDER) - Belief(beliefs, x) + v
  {
    hide Total;
    NineTerms(beliefs);
    NineTerms(beliefs[x := v]);
  }

  lemma AsideIsSound(a: Regime, r: Regime, x: Regime, v: real)
    requires a != r && x != a && x != r && 0.0 <= v <= 1.0
    ensures Sound(RegimeState("", 0, Aside(a, r, x, v), a))
  {
    hide Total;
    NineTerms(map[]);
    TotalWith(map[], a, 0.0);
    TotalWith(map[a := 0.0], r, v);
    TotalWith(map[a := 0.0][r := v], x, 1.0 - v);
  }

  /** The nine shares with a lead: the rest is spread in proportion to what each may take. */
  lemma Shares(v: real, lead: real) returns (s: real, t: real)
    requires 0.0 < v < 1.0 && 0.0 <= lead <= v && 9.0 * v - lead > 1.0
    ensures 0.0 <= s <= v - lead && s < v && 0.0 <= t < v && v + s + 7.0 * t == 1.0
  {
    var room := 8.0 * v - lead;
    var part := (1.0 - v) / room;
    Fraction(1.0 - v, room);
    s := Scaled(part, v - lead);
    t := Scaled(part, v);
    Spread(part, v, lead, s, t);
  }

  lemma Spread(part: real, v: real, lead: real, s: real, t: real)
    requires s == part * (v - lead) && t == part * v
    ensures s + 7.0 * t == part * (8.0 * v - lead)
  {
  }

  /** A belief that enters with the lead and does not commit. */
  function Between(config: Config): real {
    var least := if config.enterThreshold > Lead(config) then config.enterThreshold else Lead(config);
    var bound := if least > Floor(config) then least else Floor(config);
    (bound + config.commitThreshold) / 2.0
  }

  lemma BetweenBounds(config: Config)
    requires Losable(config)
    ensures var v := Between(config);
            && config.enterThreshold < v < config.commitThreshold && Lead(config) < v && Floor(config) < v
            && 0.0 < v < 0.5
            && (AllAllowed(Order(config.allowed)) ==> 9.0 * v - Lead(config) > 1.0)
  {
  }

  lemma TopIsEligible(w: Beliefs, a: Regime, r: Regime, config: Config)
    requires Top(w, Order(config.allowed)) == Some(r) && r != a && a in w && r in w
    requires w[r] == Between(config) && 0.0 <= w[a] <= w[r] - Lead(config) && Losable(config)
    ensures EligibleFor(w, a, config) == Some(r) && Belief(w, r) < config.commitThreshold
  {
    hide Top, Between, Losable;
    BetweenBounds(config);
  }

  lemma WaitingUpdate(config: Config, a: Regime, r: Regime, k: nat) returns (w: Beliefs)
    requires Losable(config) && FirstRivalAt(Order(config.allowed), a, r, k)
    ensures Sound(RegimeState("", 0, w, a))
    ensures EligibleFor(w, a, config) == Some(r) && Belief(w, r) < config.commitThreshold
  {
    hide *;
    var order, v := Order(config.allowed), Between(config);
    BetweenBounds(config);
    LeadIsNotNegative(config);
    if AllAllowed(order) {
      var s, t := Shares(v, Lead(config));
      w := WaitingOnTop(order, a, r, k, v, s, t);
    } else {
      w := AsideOnTop(order, a, r, k, v);
    }
    TopIsEligible(w, a, r, config);
  }

  lemma WaitingOnTop(order: seq<Regime>, a: Regime, r: Regime, k: nat, v: real, s: real, t: real) returns (w: Beliefs)
    requires FirstRivalAt(order, a, r, k)
    requires 0.0 <= s < v <= 1.0 && 0.0 <= t < v && v + s + 7.0 * t == 1.0
    ensures Sound(RegimeState("", 0, w, a)) && Top(w, order) == Some(r)
    ensures a in w && r in w && w[r] == v && w[a] == s && a != r
  {
    hide Sound, Top;
    w := Waiting(a, r, v, s, t);
    WaitingIsSound(a, r, v, s, t);
    IsTheTop(w, order, r, k);
  }

  lemma AsideOnTop(order: seq<Regime>, a: Regime, r: Regime, k: nat, v: real) returns (w: Beliefs)
    requires FirstRivalAt(order, a, r, k) && !AllAllowed(order) && 0.0 < v <= 1.0
    ensures Sound(RegimeState("", 0, w, a)) && Top(w, order) == Some(r)
    ensures a in w && r in w && w[r] == v && w[a] == 0.0 && a != r
  {
    hide *;
    FirstRivalIs(order, a, r, k);
    var x := NotAllowed(order, k);
    w := Aside(a, r, x, v);
    AsideIsSound(a, r, x, v);
    AsideIs(a, r, x, v);
    IsTheTop(w, order, r, k);
  }

  lemma FirstRivalIs(order: seq<Regime>, a: Regime, r: Regime, k: nat)
    requires FirstRivalAt(order, a, r, k)
    ensures 0 < k < |order| && a == order[0] && r == order[k] && a != r && forall j :: 0 <= j < k ==> order[j] == a
  {
  }

  lemma NotAllowed(order: seq<Regime>, k: nat) returns (x: Regime)
    requires !AllAllowed(order) && k < |order|
    ensures x !in order && x != order[0] && x != order[k]
  {
    x :| x in REGIME_ORDER && x !in order;
  }

  lemma AsideIs(a: Regime, r: Regime, x: Regime, v: real)
    requires a != r && x != a && x != r
    ensures var w := Aside(a, r, x, v); w.Keys == {a, r, x} && w[a] == 0.0 && w[r] == v && w[x] == 1.0 - v
  {
  }

  lemma LeadIsNotNegative(config: Config)
    ensures Lead(config) >= 0.0
  {
  }

  predicate FirstRivalAt(order: seq<Regime>, a: Regime, r: Regime, k: nat) {
    0 < k < |order| && a == order[0] && r == order[k] && a != r && forall j :: 0 <= j < k ==> order[j] == a
  }

  /** A run of belief distributions that drops its leader, for every configuration that can. */
  lemma LosingRun(config: Config) returns (past: seq<RegimeState>, update: RegimeState)
    requires Sensible(config) && Losable(config)
    ensures AllSound(past) && Sound(update) && !KeepsLeader(past, update, config)
  {
    hide Top, Sound, EligibleFor;
    var order := Order(config.allowed);
    var a, r, k := FirstRival(order);
    var w := WaitingUpdate(config, a, r, k);
    var n: nat := config.windowUpdates;
    past := seq(n, _ => RegimeState("", 0, w, a));
    update := RegimeState("", 0, Shared(a, r), a);
    SharedIsSound(a, r);
    WindowFills(config, w, a, r, n);
    assert BeliefsOf(past) == seq(n, _ => w);
    IsTheTop(Shared(a, r), order, a, 0);
    NotEligible(Shared(a, r), a, config);
  }

  lemma NotEligible(beliefs: Beliefs, a: Regime, config: Config)
    requires Top(beliefs, Order(config.allowed)) == Some(a)
    ensures EligibleFor(beliefs, a, config) == None
  {
  }

  /** Over belief distributions, and for every list of allowed regimes, leaders are safe exactly if the configuration
      leaves no room for a losing run. */
  lemma LeaderIsSafeExactly(config: Config)
    requires Sensible(config)
    ensures LeaderIsSafe(config) <==> !Losable(config)
  {
    hide KeepsLeader, Losable, Sound;
    if Losable(config) {
      var past, update := LosingRun(config);
    } else {
      forall past: seq<RegimeState>, update: RegimeState | AllSound(past) && Sound(update)
        ensures KeepsLeader(past, update, config)
      {
        if !KeepsLeader(past, update, config) { LostIsLosable(past, update, config); }
      }
    }
  }

  // ----- The beliefs that the pipeline yields -----

  /** The pipeline updates an initial state with the evidence of one snapshot. */
  ghost predicate FromPipeline(state: RegimeState) {
    exists symbol, timestamp, evidence :: Updated(InitialState(symbol, timestamp), evidence) == Ok(state)
  }

  lemma PipelineBeliefs(state: RegimeState)
    requires FromPipeline(state)
    ensures Sound(state) && (state.beliefs == Uniform() || state.beliefs == OneHot(state.anchor))
  {
    hide SelectOpinion, Sound;
    var symbol, timestamp, evidence :| Updated(InitialState(symbol, timestamp), evidence) == Ok(state);
    BeliefsStaySound(InitialState(symbol, timestamp), evidence, symbol, timestamp);
  }

  lemma UniformTop(order: seq<Regime>)
    requires |order| > 0
    ensures Top(Uniform(), order) == Some(order[0])
  {
    IsTheTop(Uniform(), order, order[0], 0);
  }

  /** Without the regime that holds all belief, the first allowed one is on top. */
  lemma OneHotAside(r: Regime, order: seq<Regime>)
    requires |order| > 0 && r !in order
    ensures Top(OneHot(r), order) == Some(order[0])
  {
    IsTheTop(OneHot(r), order, order[0], 0);
  }

  /** With the beliefs that the pipeline yields, a leading anchor is never dropped, whatever the configuration. */
  lemma PipelineLeadersAreSafe(past: seq<RegimeState>, update: RegimeState, config: Config)
    requires Sensible(config) && FromPipeline(update)
    requires forall i :: 0 <= i < |past| ==> FromPipeline(past[i])
    ensures KeepsLeader(past, update, config)
  {
    hide Top, KeepsLeader, CoreAfter, Sound, FromPipeline, OneHot, Uniform;
    if !KeepsLeader(past, update, config) {
      var i, r := LostLeader(past, update, config);
      var a, order := CoreAfter(past, update, config).anchor, Order(config.allowed);
      PipelineBeliefs(past[i]);
      PipelineBeliefs(update);
      TopOf(past[i].beliefs, order, r);
      TopOf(update.beliefs, order, a);
      UniformTop(order);
      if past[i].anchor in order { OneHotTop(past[i].anchor, order); } else { OneHotAside(past[i].anchor, order); }
      if update.anchor in order { OneHotTop(update.anchor, order); } else { OneHotAside(update.anchor, order); }
      assert false;
    }
  }
}
