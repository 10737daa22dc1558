/** The debounced regime switch: selection of a candidate, gate, progress, decay and commit. */
module HysteresisRules {
  import opened Ordering
  import opened Regimes

  datatype Config = Config(
    windowUpdates: int,
    enterThreshold: real,
    commitThreshold: real,
    minLead: Option<real>,
    decayStep: int,
    allowed: Option<seq<Regime>>)

  datatype Reason =
    | CandidateNone
    | CandidateSameAsAnchor
    | CandidateSelected(regime: Regime)
    | GateFailEnterThreshold
    | GateFailMinLead
    | ProgressInc
    | ProgressReset
    | ProgressDecay
    | CommitSwitch(from: Regime, to: Regime)
    | CommitBlockedThreshold

  datatype HysteresisState = HysteresisState(
    symbol: string,
    timestamp: int,
    anchor: Regime,
    candidate: Option<Regime>,
    progress: int,
    required: int,
    lastCommit: Option<int>,
    reasons: seq<Reason>,
    debug: Option<Beliefs>)

  /** The configurations the rules are meant for. */
  predicate Sensible(config: Config) {
    config.windowUpdates >= 1 && config.decayStep >= 0
  }

  // ----- The top regime -----

  function Order(allowed: Option<seq<Regime>>): seq<Regime> {
    match allowed
    case None => REGIME_ORDER
    case Some(regimes) => regimes
  }

  /** The first regime of the order that no other one exceeds. */
  ghost predicate IsTop(beliefs: Beliefs, order: seq<Regime>, r: Regime) {
    && r in beliefs
    && (forall x :: x in order && x in beliefs ==> beliefs[x] <= beliefs[r])
    && exists i :: 0 <= i < |order| && order[i] == r &&
                   forall j :: 0 <= j < i && order[j] in beliefs ==> beliefs[order[j]] < beliefs[r]
  }

  function Top(beliefs: Beliefs, order: seq<Regime>): Option<Regime> {
    if |order| == 0 then None else
      var best := Top(beliefs, order[..|order| - 1]);
      var r := order[|order| - 1];
      if r in beliefs && (best.None? || best.value !in beliefs || beliefs[r] > beliefs[best.value]) then Some(r)
      else best
  }

  lemma {:induction false} TopIsFirstMaximum(beliefs: Beliefs, order: seq<Regime>)
    ensures Top(beliefs, order).None? <==> forall x :: x in order ==> x !in beliefs
    ensures Top(beliefs, order).Some? ==> IsTop(beliefs, order, Top(beliefs, order).value)
  {
    if |order| > 0 {
      var before := order[..|order| - 1];
      var r := order[|order| - 1];
      TopIsFirstMaximum(beliefs, before);
      assert order == before + [r];
      var top := Top(beliefs, order);
      if top.Some? {
        if top == Top(beliefs, before) {
          var i :| 0 <= i < |before| && before[i] == top.value &&
                   forall j :: 0 <= j < i && before[j] in beliefs ==> beliefs[before[j]] < beliefs[top.value];
          assert order[i] == top.value;
        } else {
          assert order[|order| - 1] == top.value;
          assert forall j :: 0 <= j < |before| ==> order[j] in before;
        }
      }
    }
  }

  lemma TopIsUnique(beliefs: Beliefs, order: seq<Regime>, r: Regime, s: Regime)
    requires IsTop(beliefs, order, r) && IsTop(beliefs, order, s)
    ensures r == s
  {
  }

  method SelectTopRegime(beliefs: Beliefs, allowed: Option<seq<Regime>>) returns (best: Option<Regime>)
    ensures best == Top(beliefs, Order(allowed))
    ensures best.Some? ==> IsTop(beliefs, Order(allowed), best.value)
  {
    var order := Order(allowed);
    best := None;
    var bestValue: Option<real> := None;
    var i := 0;
    while i < |order|
      invariant i <= |order|
      invariant best == Top(beliefs, order[..i])
      invariant best.Some? <==> bestValue.Some?
      invariant best.Some? ==> best.value in beliefs && bestValue.value == beliefs[best.value]
    {
      assert order[..i + 1][..i] == order[..i];
      var regime := order[i];
      if regime in beliefs {
        if bestValue.None? || beliefs[regime] > bestValue.value {
          best := Some(regime);
          bestValue := Some(beliefs[regime]);
        }
      }
      i := i + 1;
    }
    assert order[..i] == order;
    TopIsFirstMaximum(beliefs, order);
  }

  // ----- One update, on the three fields that drive it -----

  datatype Core = Core(anchor: Regime, candidate: Option<Regime>, progress: int)

  /** The regime that would replace the anchor. */
  function Challenger(beliefs: Beliefs, anchor: Regime, config: Config): Option<Regime> {
    var top := Top(beliefs, Order(config.allowed));
    if top == Some(anchor) then None else top
  }

  function LeadOk(beliefs: Beliefs, anchor: Regime, r: Regime, config: Config): bool {
    config.minLead.None? || Belief(beliefs, r) - Belief(beliefs, anchor) >= config.minLead.value
  }

  function GatePasses(beliefs: Beliefs, anchor: Regime, candidate: Option<Regime>, config: Config): bool {
    && candidate.Some?
    && Belief(beliefs, candidate.value) >= config.enterThreshold
    && LeadOk(beliefs, anchor, candidate.value, config)
  }

  /** The challenger, provided that it passes the gate. */
  function EligibleFor(beliefs: Beliefs, anchor: Regime, config: Config): Option<Regime> {
    var c := Challenger(beliefs, anchor, config);
    if GatePasses(beliefs, anchor, c, config) then c else None
  }

  function Min(a: int, b: int): int { if a <= b then a else b }

  function Max(a: int, b: int): int { if a <= b then b else a }

  /** Progress before the commit decision. */
  function Track(core: Core, beliefs: Beliefs, config: Config): Core {
    match EligibleFor(beliefs, core.anchor, config)
    case Some(r) =>
      if core.candidate == Some(r)
      then core.(progress := Min(core.progress + 1, config.windowUpdates))
      else core.(candidate := Some(r), progress := 1)
    case None =>
      var p := if core.progress > 0 then Max(0, core.progress - config.decayStep) else 0;
      Core(core.anchor, if p == 0 then None else core.candidate, p)
  }

  function Commits(tracked: Core, beliefs: Beliefs, config: Config): bool {
    && tracked.candidate.Some?
    && tracked.progress >= config.windowUpdates
    && Belief(beliefs, tracked.candidate.value) >= config.commitThreshold
  }

  function Step(core: Core, beliefs: Beliefs, config: Config): Core {
    var t := Track(core, beliefs, config);
    var s := if Commits(t, beliefs, config) then Core(t.candidate.value, None, 0) else t;
    s.(progress := Min(Max(s.progress, 0), config.windowUpdates))
  }

  // ----- The full state -----

  function CoreOf(state: HysteresisState): Core {
    Core(state.anchor, state.candidate, state.progress)
  }

  function CoreBefore(prev: Option<HysteresisState>, update: RegimeState): Core {
    match prev
    case None => Core(update.anchor, None, 0)
    case Some(s) => CoreOf(s)
  }

  function CandidateReason(beliefs: Beliefs, anchor: Regime, config: Config): Reason {
    match Top(beliefs, Order(config.allowed))
    case None => CandidateNone
    case Some(r) => if r == anchor then CandidateSameAsAnchor else CandidateSelected(r)
  }

  function GateReasons(beliefs: Beliefs, anchor: Regime, candidate: Option<Regime>, config: Config): seq<Reason> {
    match candidate
    case None => []
    case Some(r) =>
      (if Belief(beliefs, r) < config.enterThreshold then [GateFailEnterThreshold] else []) +
      (if !LeadOk(beliefs, anchor, r, config) then [GateFailMinLead] else [])
  }

  function ProgressReason(core: Core, beliefs: Beliefs, config: Config): Reason {
    match EligibleFor(beliefs, core.anchor, config)
    case Some(r) => if core.candidate == Some(r) then ProgressInc else ProgressReset
    case None => if core.progress > 0 then ProgressDecay else ProgressReset
  }

  function CommitReasons(tracked: Core, beliefs: Beliefs, config: Config): seq<Reason> {
    if tracked.candidate.None? || tracked.progress < config.windowUpdates then []
    else if Commits(tracked, beliefs, config) then [CommitSwitch(tracked.anchor, tracked.candidate.value)]
    else [CommitBlockedThreshold]
  }

  /** One update of a symbol; `now` is the wall clock, which only a commit reads. */
  function Advance(prev: Option<HysteresisState>, update: RegimeState, config: Config, now: int): HysteresisState {
    var core := CoreBefore(prev, update);
    var tracked := Track(core, update.beliefs, config);
    var next := Step(core, update.beliefs, config);
    HysteresisState(
      update.symbol,
      update.timestamp,
      next.anchor,
      next.candidate,
      next.progress,
      config.windowUpdates,
      if Commits(tracked, update.beliefs, config) then Some(now)
      else if prev.Some? then prev.value.lastCommit else None,
      [CandidateReason(update.beliefs, core.anchor, config)]
        + GateReasons(update.beliefs, core.anchor, Challenger(update.beliefs, core.anchor, config), config)
        + [ProgressReason(core, update.beliefs, config)]
        + CommitReasons(tracked, update.beliefs, config),
      Some(update.beliefs))
  }

  method EvaluateGate(beliefs: Beliefs, anchor: Regime, candidate: Option<Regime>, config: Config)
    returns (eligible: bool, reasons: seq<Reason>)
    ensures eligible <==> GatePasses(beliefs, anchor, candidate, config)
    ensures reasons == GateReasons(beliefs, anchor, candidate, config)
    ensures eligible ==> reasons == []
  {
    if candidate.None? {
      return false, [];
    }
    var lead := Belief(beliefs, candidate.value) - Belief(beliefs, anchor);
    reasons := [];
    eligible := true;
    if Belief(beliefs, candidate.value) < config.enterThreshold {
      reasons := reasons + [GateFailEnterThreshold];
      eligible := false;
    }
    if config.minLead.Some? && lead < config.minLead.value {
      reasons := reasons + [GateFailMinLead];
      eligible := false;
    }
  }

  method AdvanceHysteresis(prev: Option<HysteresisState>, update: RegimeState, config: Config, now: int)
    returns (next: HysteresisState)
    ensures next == Advance(prev, update, config, now)
  {
    hide Top, GatePasses, LeadOk, GateReasons, IsTop;
    ghost var core := CoreBefore(prev, update);
    var anchor, candidateRegime, prevProgress, lastCommit := update.anchor, None, 0, None;
    if prev.Some? {
      anchor := prev.value.anchor;
      candidateRegime := prev.value.candidate;
      prevProgress := prev.value.progress;
      lastCommit := prev.value.lastCommit;
    }
    assert core == Core(anchor, candidateRegime, prevProgress);
    var required := config.windowUpdates;
    var reasons: seq<Reason>;
    var top := SelectTopRegime(update.beliefs, config.allowed);
    var candidate: Option<Regime> := None;
    if top.None? {
      reasons := [CandidateNone];
    } else if top.value == anchor {
      reasons := [CandidateSameAsAnchor];
    } else {
      candidate := top;
      reasons := [CandidateSelected(top.value)];
    }
    assert candidate == Challenger(update.beliefs, anchor, config);
    assert reasons == [CandidateReason(update.beliefs, anchor, config)];
    var eligible, gateReasons := EvaluateGate(update.beliefs, anchor, candidate, config);
    reasons := reasons + gateReasons;

    var progress := prevProgress;
    if eligible && candidate.Some? {
      if candidateRegime == candidate {
        progress := Min(prevProgress + 1, required);
        reasons := reasons + [ProgressInc];
      } else {
        candidateRegime := candidate;
        progress := 1;
        reasons := reasons + [ProgressReset];
      }
    } else {
      if prevProgress > 0 {
        progress := Max(0, prevProgress - config.decayStep);
        reasons := reasons + [ProgressDecay];
      } else {
        progress := 0;
        reasons := reasons + [ProgressReset];
      }
      if progress == 0 {
        candidateRegime := None;
      }
    }
    ghost var tracked := Track(core, update.beliefs, config);
    assert Core(anchor, candidateRegime, progress) == tracked;
    assert reasons == [CandidateReason(update.beliefs, core.anchor, config)] + gateReasons
                      + [ProgressReason(core, update.beliefs, config)];
    next := CommitIfDue(update, config, now, tracked, anchor, candidateRegime, progress, lastCommit, reasons);
  }

  /** The commit decision and the final clamping. */
  method CommitIfDue(update: RegimeState, config: Config, now: int, ghost tracked: Core,
                     anchor0: Regime, candidate0: Option<Regime>, progress0: int, lastCommit0: Option<int>,
                     reasons0: seq<Reason>)
    returns (next: HysteresisState)
    requires tracked == Core(anchor0, candidate0, progress0)
    ensures var committed := Commits(tracked, update.beliefs, config);
            var s := if committed then Core(tracked.candidate.value, None, 0) else tracked;
            next == HysteresisState(
              update.symbol, update.timestamp, s.anchor, s.candidate,
              Min(Max(s.progress, 0), config.windowUpdates), config.windowUpdates,
              if committed then Some(now) else lastCommit0,
              reasons0 + CommitReasons(tracked, update.beliefs, config),
              Some(update.beliefs))
  {
    var anchor, candidate, progress, lastCommit, reasons := anchor0, candidate0, progress0, lastCommit0, reasons0;
    if candidate.Some? && progress >= config.windowUpdates {
      if Belief(update.beliefs, candidate.value) >= config.commitThreshold {
        reasons := reasons + [CommitSwitch(anchor, candidate.value)];
        anchor := candidate.value;
        candidate := None;
        progress := 0;
        lastCommit := Some(now);
      } else {
        reasons := reasons + [CommitBlockedThreshold];
      }
    }
    if progress < 0 {
      progress := 0;
    }
    if progress > config.windowUpdates {
      progress := config.windowUpdates;
    }
    assert reasons == reasons0 + CommitReasons(tracked, update.beliefs, config);
    next := HysteresisState(update.symbol, update.timestamp, anchor, candidate, progress,
                            config.windowUpdates, lastCommit, reasons, Some(update.beliefs));
  }
}
