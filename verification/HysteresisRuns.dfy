/** What the hysteresis rules guarantee over whole runs of updates of one symbol. */
module HysteresisRuns {
  import opened Ordering
  import opened Regimes
  import opened HysteresisRules

  /** The state after a run of updates. */
  function Run(start: Core, updates: seq<Beliefs>, config: Config): Core {
    if |updates| == 0 then start
    else Step(Run(start, updates[..|updates| - 1], config), updates[|updates| - 1], config)
  }

  /** A symbol that has never been seen starts on the anchor of its first update. */
  function Fresh(anchor: Regime): Core {
    Core(anchor, None, 0)
  }

  // ----- Every reachable state -----

  ghost predicate Consistent(core: Core, config: Config) {
    && 0 <= core.progress <= config.windowUpdates
    && (core.candidate.None? <==> core.progress == 0)
    && core.candidate != Some(core.anchor)
  }

  lemma StepConsistent(core: Core, beliefs: Beliefs, config: Config)
    requires Sensible(config) && Consistent(core, config)
    ensures Consistent(Step(core, beliefs, config), config)
  {
  }

  lemma {:induction false} ReachableConsistent(start: Core, updates: seq<Beliefs>, config: Config)
    requires Sensible(config) && Consistent(start, config)
    ensures Consistent(Run(start, updates, config), config)
  {
    if |updates| > 0 {
      ReachableConsistent(start, updates[..|updates| - 1], config);
      StepConsistent(Run(start, updates[..|updates| - 1], config), updates[|updates| - 1], config);
    }
  }

  /** The full states that `advance_hysteresis` produces from nothing are the runs of cores. */
  function AdvanceAll(updates: seq<RegimeState>, clocks: seq<int>, config: Config): Option<HysteresisState>
    requires |updates| == |clocks|
  {
    if |updates| == 0 then None else
      var n := |updates| - 1;
      Some(Advance(AdvanceAll(updates[..n], clocks[..n], config), updates[n], config, clocks[n]))
  }

  function BeliefsOf(updates: seq<RegimeState>): seq<Beliefs> {
    seq(|updates|, i requires 0 <= i < |updates| => updates[i].beliefs)
  }

  lemma {:induction false} AdvanceAllIsRun(updates: seq<RegimeState>, clocks: seq<int>, config: Config)
    requires |updates| == |clocks| > 0
    ensures CoreOf(AdvanceAll(updates, clocks, config).value)
            == Run(Fresh(updates[0].anchor), BeliefsOf(updates), config)
  {
    var n := |updates| - 1;
    assert BeliefsOf(updates)[..n] == BeliefsOf(updates[..n]);
    if n > 0 {
      AdvanceAllIsRun(updates[..n], clocks[..n], config);
    } else {
      assert BeliefsOf(updates[..n]) == [];
    }
  }

  // ----- One update, in plain terms -----

  /** The regime leads this update: it is the first maximum of the order, and another one than the anchor. */
  ghost predicate Challenges(beliefs: Beliefs, r: Regime, anchor: Regime, config: Config) {
    r != anchor && IsTop(beliefs, Order(config.allowed), r)
  }

  /** Its belief reaches the entry threshold and, if one is asked for, the lead over the anchor. */
  predicate Enters(beliefs: Beliefs, r: Regime, anchor: Regime, config: Config) {
    && Belief(beliefs, r) >= config.enterThreshold
    && (config.minLead.Some? ==> Belief(beliefs, r) >= Belief(beliefs, anchor) + config.minLead.value)
  }

  /** What one update makes of a state, in plain terms: a challenger that enters gains one step, up to the window, or
      starts at one; without such a challenger progress loses the decay step, and at nothing the candidate is dropped;
      a candidate that has filled its window and reaches the commit threshold becomes the anchor. */
  ghost predicate UpdateTells(core: Core, next: Core, beliefs: Beliefs, config: Config, commits: bool) {
    exists tracked: Core ::
      && tracked.anchor == core.anchor
      && (forall r :: Challenges(beliefs, r, core.anchor, config) && Enters(beliefs, r, core.anchor, config) ==>
            && tracked.candidate == Some(r)
            && (core.candidate == Some(r) ==>
                  tracked.progress == if core.progress < config.windowUpdates
                                      then core.progress + 1 else config.windowUpdates)
            && (core.candidate != Some(r) ==> tracked.progress == 1))
      && ((forall r :: !(Challenges(beliefs, r, core.anchor, config) && Enters(beliefs, r, core.anchor, config))) ==>
            && tracked.progress == (if core.progress > config.decayStep then core.progress - config.decayStep else 0)
            && tracked.candidate == (if tracked.progress > 0 then core.candidate else None))
      && (commits <==> && tracked.candidate.Some? && tracked.progress >= config.windowUpdates
                       && Belief(beliefs, tracked.candidate.value) >= config.commitThreshold)
      && next == if commits then Core(tracked.candidate.value, None, 0) else tracked
  }

  lemma ChallengerIs(beliefs: Beliefs, anchor: Regime, config: Config, r: Regime)
    ensures Challenges(beliefs, r, anchor, config) <==> Challenger(beliefs, anchor, config) == Some(r)
    ensures Challenges(beliefs, r, anchor, config) && Enters(beliefs, r, anchor, config) <==>
              EligibleFor(beliefs, anchor, config) == Some(r)
  {
    hide IsTop, Top;
    TopIsFirstMaximum(beliefs, Order(config.allowed));
    if IsTop(beliefs, Order(config.allowed), r) {
      InOrderTop(beliefs, Order(config.allowed), r);
      TopIsUnique(beliefs, Order(config.allowed), r, Top(beliefs, Order(config.allowed)).value);
    }
  }

  lemma InOrderTop(beliefs: Beliefs, order: seq<Regime>, r: Regime)
    requires IsTop(beliefs, order, r)
    ensures r in order && r in beliefs && Top(beliefs, order).Some?
  {
    TopIsFirstMaximum(beliefs, order);
  }

  /** The update of a whole state: its core as told, the names of the update, the clock at a commit, and the beliefs. */
  lemma AdvanceTells(prev: Option<HysteresisState>, update: RegimeState, config: Config, now: int)
    requires Sensible(config) && (prev.Some? ==> Consistent(CoreOf(prev.value), config))
    ensures var next := Advance(prev, update, config, now);
            var core := if prev.Some? then Core(prev.value.anchor, prev.value.candidate, prev.value.progress)
                        else Core(update.anchor, None, 0);
            var commits := next.anchor != core.anchor;
            && UpdateTells(core, Core(next.anchor, next.candidate, next.progress), update.beliefs, config, commits)
            && next.symbol == update.symbol && next.timestamp == update.timestamp
            && next.required == config.windowUpdates && next.debug == Some(update.beliefs)
            && next.lastCommit == (if commits then Some(now) else if prev.Some? then prev.value.lastCommit else None)
  {
    hide Track, Top, EligibleFor, Commits, Step;
    var core := CoreBefore(prev, update);
    AnchorMovesOnlyOnCommit(core, update.beliefs, config);
    StepTells(core, update.beliefs, config);
    CommitsAre(core, update.beliefs, config);
  }

  lemma CommitsAre(core: Core, beliefs: Beliefs, config: Config)
    ensures CommitsOn(core, beliefs, config) <==> Commits(Track(core, beliefs, config), beliefs, config)
  {
  }

  lemma StepTells(core: Core, beliefs: Beliefs, config: Config)
    requires Sensible(config) && Consistent(core, config)
    ensures UpdateTells(core, Step(core, beliefs, config), beliefs, config, CommitsOn(core, beliefs, config))
  {
    hide EligibleFor, Challenges, Enters, Top;
    forall r
      ensures Challenges(beliefs, r, core.anchor, config) && Enters(beliefs, r, core.anchor, config) <==>
                EligibleFor(beliefs, core.anchor, config) == Some(r)
    {
      ChallengerIs(beliefs, core.anchor, config, r);
    }
    var tracked := Track(core, beliefs, config);
    assert tracked.anchor == core.anchor;
    if EligibleFor(beliefs, core.anchor, config).Some? {
      var r := EligibleFor(beliefs, core.anchor, config).value;
      assert Challenges(beliefs, r, core.anchor, config) && Enters(beliefs, r, core.anchor, config);
    }
  }

  /** Some challenger enters. */
  ghost predicate Entered(beliefs: Beliefs, anchor: Regime, config: Config) {
    exists r :: Challenges(beliefs, r, anchor, config) && Enters(beliefs, r, anchor, config)
  }

  /** The reasons of an update name exactly what has happened: who is on top, and why a challenger does not enter. */
  lemma ReasonsTell(prev: Option<HysteresisState>, update: RegimeState, config: Config, now: int)
    ensures var reasons, anchor := Advance(prev, update, config, now).reasons, CoreBefore(prev, update).anchor;
            var beliefs := update.beliefs;
            && (CandidateNone in reasons <==> forall r :: !IsTop(beliefs, Order(config.allowed), r))
            && (CandidateSameAsAnchor in reasons <==> IsTop(beliefs, Order(config.allowed), anchor))
            && (forall r :: CandidateSelected(r) in reasons <==> Challenges(beliefs, r, anchor, config))
            && (GateFailEnterThreshold in reasons <==>
                  exists r :: Challenges(beliefs, r, anchor, config) && Belief(beliefs, r) < config.enterThreshold)
            && (GateFailMinLead in reasons <==>
                  exists r :: && Challenges(beliefs, r, anchor, config) && config.minLead.Some?
                              && Belief(beliefs, r) < Belief(beliefs, anchor) + config.minLead.value)
  {
    hide Top, IsTop, Challenges, Track, EligibleFor, CommitReasons, ProgressReason, Advance;
    var core, beliefs := CoreBefore(prev, update), update.beliefs;
    forall r
      ensures Challenges(beliefs, r, core.anchor, config) <==> Challenger(beliefs, core.anchor, config) == Some(r)
      ensures IsTop(beliefs, Order(config.allowed), r) <==> Top(beliefs, Order(config.allowed)) == Some(r)
    {
      ChallengerIs(beliefs, core.anchor, config, r);
      OneTop(beliefs, Order(config.allowed), r);
    }
    ReasonParts(prev, update, config, now);
    NoOtherReasons(Track(core, beliefs, config), beliefs, config);
    NoOtherProgress(core, beliefs, config);
  }

  /** How progress has moved. */
  lemma ProgressReasonsTell(prev: Option<HysteresisState>, update: RegimeState, config: Config, now: int)
    ensures var reasons, core := Advance(prev, update, config, now).reasons, CoreBefore(prev, update);
            var beliefs := update.beliefs;
            && (ProgressInc in reasons <==>
                  exists r :: && Challenges(beliefs, r, core.anchor, config) && Enters(beliefs, r, core.anchor, config)
                              && core.candidate == Some(r))
            && (ProgressDecay in reasons <==> !Entered(beliefs, core.anchor, config) && core.progress > 0)
            && (ProgressReset in reasons <==> !(ProgressInc in reasons) && !(ProgressDecay in reasons))
  {
    hide Top, Challenges, Enters, Track, EligibleFor, CommitReasons, CandidateReason, GateReasons, Advance;
    var core, beliefs := CoreBefore(prev, update), update.beliefs;
    forall r
      ensures Challenges(beliefs, r, core.anchor, config) && Enters(beliefs, r, core.anchor, config) <==>
                EligibleFor(beliefs, core.anchor, config) == Some(r)
    {
      ChallengerIs(beliefs, core.anchor, config, r);
    }
    ReasonParts(prev, update, config, now);
    NoOtherReasons(Track(core, beliefs, config), beliefs, config);
    OtherReasons(core, beliefs, config);
  }

  lemma NoOtherProgress(core: Core, beliefs: Beliefs, config: Config)
    ensures ProgressReason(core, beliefs, config) in {ProgressInc, ProgressReset, ProgressDecay}
  {
  }

  lemma NoOtherReasons(tracked: Core, beliefs: Beliefs, config: Config)
    ensures forall reason :: reason in CommitReasons(tracked, beliefs, config) ==>
              reason.CommitSwitch? || reason.CommitBlockedThreshold?
  {
  }

  /** The last reason names a commit, or that a full window was held back by the commit threshold. */
  lemma CommitReasonsTell(prev: Option<HysteresisState>, update: RegimeState, config: Config, now: int)
    requires Sensible(config) && (prev.Some? ==> Consistent(CoreOf(prev.value), config))
    ensures var next, anchor := Advance(prev, update, config, now), CoreBefore(prev, update).anchor;
            && (forall a, b :: CommitSwitch(a, b) in next.reasons <==> a == anchor && b == next.anchor && a != b)
            && (CommitBlockedThreshold in next.reasons <==>
                  next.candidate.Some? && next.progress == config.windowUpdates)
  {
    hide Top, EligibleFor, CandidateReason, GateReasons, ProgressReason, Step, Advance;
    var core, beliefs := CoreBefore(prev, update), update.beliefs;
    AnchorMovesOnlyOnCommit(core, beliefs, config);
    CommitTarget(core, beliefs, config);
    ReasonParts(prev, update, config, now);
    OtherReasons(core, beliefs, config);
    AdvanceCore(prev, update, config, now);
    StepIs(core, beliefs, config);
  }

  lemma OtherReasons(core: Core, beliefs: Beliefs, config: Config)
    ensures var reason := CandidateReason(beliefs, core.anchor, config);
            !reason.CommitSwitch? && !reason.CommitBlockedThreshold?
    ensures var reason := ProgressReason(core, beliefs, config);
            !reason.CommitSwitch? && !reason.CommitBlockedThreshold?
    ensures forall reason ::
              reason in GateReasons(beliefs, core.anchor, Challenger(beliefs, core.anchor, config), config) ==>
                reason in {GateFailEnterThreshold, GateFailMinLead}
    ensures CandidateReason(beliefs, core.anchor, config) !in {ProgressInc, ProgressReset, ProgressDecay}
  {
    hide Top, EligibleFor;
  }

  lemma AdvanceCore(prev: Option<HysteresisState>, update: RegimeState, config: Config, now: int)
    ensures CoreOf(Advance(prev, update, config, now)) == Step(CoreBefore(prev, update), update.beliefs, config)
  {
  }

  lemma StepIs(core: Core, beliefs: Beliefs, config: Config)
    requires Sensible(config) && Consistent(core, config)
    ensures var tracked, next := Track(core, beliefs, config), Step(core, beliefs, config);
            && 0 <= tracked.progress <= config.windowUpdates
            && next == if CommitsOn(core, beliefs, config) then Core(next.anchor, None, 0) else tracked
  {
    hide EligibleFor;
  }

  lemma OneTop(beliefs: Beliefs, order: seq<Regime>, r: Regime)
    ensures IsTop(beliefs, order, r) <==> Top(beliefs, order) == Some(r)
  {
    hide IsTop, Top;
    TopIsFirstMaximum(beliefs, order);
    if IsTop(beliefs, order, r) {
      InOrderTop(beliefs, order, r);
      TopIsUnique(beliefs, order, r, Top(beliefs, order).value);
    }
  }

  lemma CommitTarget(core: Core, beliefs: Beliefs, config: Config)
    requires Sensible(config) && Consistent(core, config)
    ensures CommitsOn(core, beliefs, config) ==>
              Track(core, beliefs, config).candidate == Some(Step(core, beliefs, config).anchor)
              && Track(core, beliefs, config).anchor == core.anchor
  {
    hide EligibleFor;
  }

  /** The reasons of an update, part by part. */
  lemma ReasonParts(prev: Option<HysteresisState>, update: RegimeState, config: Config, now: int)
    ensures var core, beliefs, next := CoreBefore(prev, update), update.beliefs, Advance(prev, update, config, now);
            forall reason ::
              reason in next.reasons <==>
                || reason == CandidateReason(beliefs, core.anchor, config)
                || reason in GateReasons(beliefs, core.anchor, Challenger(beliefs, core.anchor, config), config)
                || reason == ProgressReason(core, beliefs, config)
                || reason in CommitReasons(Track(core, beliefs, config), beliefs, config)
  {
    hide CandidateReason, GateReasons, ProgressReason, CommitReasons, Track, Step, Commits, Challenger;
  }

  // ----- Decay -----

  /** Every update is eligible for nothing and commits nothing. */
  ghost predicate Idles(start: Core, updates: seq<Beliefs>, config: Config) {
    forall i :: 0 <= i < |updates| ==>
      && (forall r :: !(Challenges(updates[i], r, start.anchor, config) && Enters(updates[i], r, start.anchor, config)))
      && (start.candidate.Some? && start.progress == config.windowUpdates && config.decayStep == 0 ==>
            Belief(updates[i], start.candidate.value) < config.commitThreshold)
  }

  /** What is left of progress after n updates that nobody enters. */
  function Left(progress: int, n: nat, config: Config): int {
    Max(0, progress - n * config.decayStep)
  }

  /** Progress decays by one decay step an update, and the candidate is kept exactly while some of it is left. */
  lemma {:induction false} Decays(start: Core, updates: seq<Beliefs>, config: Config)
    requires Sensible(config) && Consistent(start, config) && Idles(start, updates, config)
    ensures var left := Left(start.progress, |updates|, config);
            Run(start, updates, config) == Core(start.anchor, if left > 0 then start.candidate else None, left)
  {
    hide Challenges, Enters;
    if |updates| > 0 {
      var n := |updates| - 1;
      var core := Run(start, updates[..n], config);
      assert Idles(start, updates[..n], config);
      Decays(start, updates[..n], config);
      ReachableConsistent(start, updates[..n], config);
      assert (n + 1) * config.decayStep == n * config.decayStep + config.decayStep;
      forall r ensures EligibleFor(updates[n], start.anchor, config) != Some(r) {
        ChallengerIs(updates[n], start.anchor, config, r);
      }
      IdleStep(core, updates[n], config);
    }
  }

  lemma IdleStep(core: Core, beliefs: Beliefs, config: Config)
    requires Sensible(config) && Consistent(core, config) && EligibleFor(beliefs, core.anchor, config).None?
    requires core.candidate.Some? && core.progress == config.windowUpdates && config.decayStep == 0 ==>
               Belief(beliefs, core.candidate.value) < config.commitThreshold
    ensures var left := Max(0, core.progress - config.decayStep);
            Step(core, beliefs, config) == Core(core.anchor, if left > 0 then core.candidate else None, left)
  {
    hide EligibleFor;
  }

  /** After a pause of n updates that nobody enters, a candidate becomes the anchor with exactly as many favourable
      updates as its window lacks of the progress that is left, and with one at least. */
  lemma ResumesExactly(start: Core, pause: seq<Beliefs>, favours: seq<Beliefs>, config: Config)
    requires Sensible(config) && Consistent(start, config) && start.candidate.Some? && Idles(start, pause, config)
    requires forall i :: 0 <= i < |favours| ==> Favours(favours[i], start.candidate.value, start.anchor, config)
    ensures var left := Left(start.progress, |pause|, config);
            Run(start, pause + favours, config).anchor == start.candidate.value <==>
              |favours| >= Max(1, config.windowUpdates - left)
  {
    hide Step, Favours, Idles, Left;
    Decays(start, pause, config);
    ReachableConsistent(start, pause, config);
    RunConcat(start, pause, favours, config);
    Gains(Run(start, pause, config), favours, config, start.candidate.value);
  }

  lemma {:induction false} RunConcat(start: Core, a: seq<Beliefs>, b: seq<Beliefs>, config: Config)
    ensures Run(start, a + b, config) == Run(Run(start, a, config), b, config)
  {
    if |b| == 0 {
      assert a + b == a;
    } else {
      assert (a + b)[..|a + b| - 1] == a + b[..|b| - 1];
      RunConcat(start, a, b[..|b| - 1], config);
    }
  }

  /** Favourable updates add one step each to what there is, until the window is full. */
  lemma {:induction false} Gains(start: Core, updates: seq<Beliefs>, config: Config, r: Regime)
    requires Sensible(config) && Consistent(start, config) && start.anchor != r
    requires start.candidate in {None, Some(r)}
    requires forall i :: 0 <= i < |updates| ==> Favours(updates[i], r, start.anchor, config)
    ensures var n := |updates|;
            Run(start, updates, config)
            == if n >= Max(1, config.windowUpdates - start.progress) then Core(r, None, 0)
               else Core(start.anchor, if start.progress + n > 0 then Some(r) else None, start.progress + n)
  {
    if |updates| > 0 {
      hide Step, Favours;
      var n := |updates| - 1;
      Gains(start, updates[..n], config, r);
      assert Favours(updates[n], r, start.anchor, config);
      GainStep(start, n, updates[n], config, r);
    }
  }

  lemma GainStep(start: Core, n: nat, beliefs: Beliefs, config: Config, r: Regime)
    requires Sensible(config) && Consistent(start, config) && start.anchor != r && start.candidate in {None, Some(r)}
    requires Favours(beliefs, r, start.anchor, config)
    ensures Step(Core(r, None, 0), beliefs, config) == Core(r, None, 0)
    ensures n < Max(1, config.windowUpdates - start.progress) ==>
              Step(Core(start.anchor, if start.progress + n > 0 then Some(r) else None, start.progress + n), beliefs,
                   config)
              == if n + 1 >= Max(1, config.windowUpdates - start.progress) then Core(r, None, 0)
                 else Core(start.anchor, Some(r), start.progress + n + 1)
  {
    hide Top;
  }

  // ----- Bounded flipping -----

  predicate CommitsOn(core: Core, beliefs: Beliefs, config: Config) {
    Commits(Track(core, beliefs, config), beliefs, config)
  }

  function CommitCount(start: Core, updates: seq<Beliefs>, config: Config): nat {
    if |updates| == 0 then 0 else
      var before := updates[..|updates| - 1];
      CommitCount(start, before, config) +
      if CommitsOn(Run(start, before, config), updates[|updates| - 1], config) then 1 else 0
  }

  function EligibleCount(start: Core, updates: seq<Beliefs>, config: Config): nat {
    if |updates| == 0 then 0 else
      var before := updates[..|updates| - 1];
      EligibleCount(start, before, config) +
      if EligibleFor(updates[|updates| - 1], Run(start, before, config).anchor, config).Some? then 1 else 0
  }

  /** Each commit is paid for by `windowUpdates` eligible updates, and progress by the rest. */
  lemma {:induction false} BoundedFlipping(anchor: Regime, updates: seq<Beliefs>, config: Config)
    requires Sensible(config)
    ensures CommitCount(Fresh(anchor), updates, config) * config.windowUpdates
            + Run(Fresh(anchor), updates, config).progress
         <= EligibleCount(Fresh(anchor), updates, config)
         <= |updates|
  {
    if |updates| > 0 {
      var before := updates[..|updates| - 1];
      BoundedFlipping(anchor, before, config);
      ReachableConsistent(Fresh(anchor), before, config);
      PaidPerStep(Run(Fresh(anchor), before, config), updates[|updates| - 1], config,
                  CommitCount(Fresh(anchor), before, config));
    }
  }

  lemma PaidPerStep(core: Core, beliefs: Beliefs, config: Config, commits: nat)
    requires Sensible(config) && Consistent(core, config)
    ensures (commits + (if CommitsOn(core, beliefs, config) then 1 else 0)) * config.windowUpdates
              + Step(core, beliefs, config).progress
         <= commits * config.windowUpdates + core.progress
              + (if EligibleFor(beliefs, core.anchor, config).Some? then 1 else 0)
  {
    assert (commits + 1) * config.windowUpdates == commits * config.windowUpdates + config.windowUpdates;
  }

  /** The anchor moves exactly on commits, so this bounds the number of times it can flip. */
  lemma AnchorMovesOnlyOnCommit(core: Core, beliefs: Beliefs, config: Config)
    requires Sensible(config) && Consistent(core, config)
    ensures Step(core, beliefs, config).anchor != core.anchor <==> CommitsOn(core, beliefs, config)
  {
  }

  /** Eligible updates for `r` since the last commit. */
  function SupportSinceCommit(start: Core, updates: seq<Beliefs>, config: Config, r: Regime): nat {
    if |updates| == 0 then 0 else
      var before := updates[..|updates| - 1];
      var core := Run(start, before, config);
      var last := updates[|updates| - 1];
      if CommitsOn(core, last, config) then 0
      else
        SupportSinceCommit(start, before, config, r)
        + (if EligibleFor(last, core.anchor, config) == Some(r) then 1 else 0)
  }

  lemma {:induction false} ProgressIsSupported(anchor: Regime, updates: seq<Beliefs>, config: Config, r: Regime)
    requires Sensible(config)
    ensures var core := Run(Fresh(anchor), updates, config);
            core.candidate == Some(r) ==> core.progress <= SupportSinceCommit(Fresh(anchor), updates, config, r)
  {
    if |updates| > 0 {
      var before := updates[..|updates| - 1];
      ReachableConsistent(Fresh(anchor), before, config);
      ProgressIsSupported(anchor, before, config, r);
    }
  }

  /** A commit to `r` has been preceded by at least `windowUpdates` eligible updates for `r`, the last
      one included, since the commit before it. */
  lemma CommitIsSupported(anchor: Regime, updates: seq<Beliefs>, last: Beliefs, config: Config)
    requires Sensible(config)
    requires CommitsOn(Run(Fresh(anchor), updates, config), last, config)
    ensures var core := Run(Fresh(anchor), updates, config);
            var r := Step(core, last, config).anchor;
            && r != core.anchor
            && SupportSinceCommit(Fresh(anchor), updates, config, r)
                 + (if EligibleFor(last, core.anchor, config) == Some(r) then 1 else 0) >= config.windowUpdates
  {
    var core := Run(Fresh(anchor), updates, config);
    ReachableConsistent(Fresh(anchor), updates, config);
    ProgressIsSupported(anchor, updates, config, Step(core, last, config).anchor);
  }

  // ----- Bounded convergence -----

  /** The update has `r` on top and above every threshold, measured against the anchor `from`. */
  ghost predicate Favours(beliefs: Beliefs, r: Regime, from: Regime, config: Config) {
    && Top(beliefs, Order(config.allowed)) == Some(r)
    && Belief(beliefs, r) >= config.enterThreshold
    && Belief(beliefs, r) >= config.commitThreshold
    && LeadOk(beliefs, from, r, config)
  }

  /** Under updates that favour `r`, either `r` is the settled anchor or it gains one step of progress each time. */
  lemma {:induction false} ProgressTowards(start: Core, updates: seq<Beliefs>, config: Config, r: Regime)
    requires Sensible(config) && Consistent(start, config) && start.anchor != r
    requires forall i :: 0 <= i < |updates| ==> Favours(updates[i], r, start.anchor, config)
    ensures var core := Run(start, updates, config);
            || core == Core(r, None, 0)
            || (core.anchor == start.anchor && |updates| < config.windowUpdates
                && (|updates| > 0 ==> core.candidate == Some(r) && core.progress >= |updates|))
  {
    if |updates| > 0 {
      var n := |updates| - 1;
      ProgressTowards(start, updates[..n], config, r);
      ReachableConsistent(start, updates[..n], config);
      assert Favours(updates[n], r, start.anchor, config);
    }
  }

  /** From any consistent state with another anchor, `windowUpdates` favourable updates in a row
      make `r` the anchor, and as long as they go on it stays. */
  lemma Convergence(start: Core, updates: seq<Beliefs>, config: Config, r: Regime)
    requires Sensible(config) && Consistent(start, config) && start.anchor != r
    requires |updates| >= config.windowUpdates
    requires forall i :: 0 <= i < |updates| ==> Favours(updates[i], r, start.anchor, config)
    ensures Run(start, updates, config) == Core(r, None, 0)
  {
    ProgressTowards(start, updates, config, r);
  }

  /** Some update of the run lets the pending candidate pass the commit threshold. */
  ghost predicate PendingBreaksThrough(core: Core, updates: seq<Beliefs>, config: Config) {
    && config.decayStep == 0
    && core.progress == config.windowUpdates
    && core.candidate.Some?
    && exists i :: 0 <= i < |updates| && Belief(updates[i], core.candidate.value) >= config.commitThreshold
  }

  /** The anchor is `r` after every prefix of the run. */
  ghost predicate Holds(start: Core, updates: seq<Beliefs>, config: Config, r: Regime) {
    forall n :: 0 <= n <= |updates| ==> Run(start, updates[..n], config).anchor == r
  }

  lemma {:induction false} HoldsWhileTop(start: Core, updates: seq<Beliefs>, config: Config)
    requires Sensible(config) && Consistent(start, config)
    requires forall i :: 0 <= i < |updates| ==> Top(updates[i], Order(config.allowed)) == Some(start.anchor)
    requires !PendingBreaksThrough(start, updates, config)
    ensures var core := Run(start, updates, config);
            && core.anchor == start.anchor
            && core.progress <= start.progress
            && (config.decayStep > 0 && |updates| > 0 ==> core.progress < config.windowUpdates)
            && (core.candidate.Some? ==> core.candidate == start.candidate)
  {
    if |updates| > 0 {
      var n := |updates| - 1;
      assert forall i :: 0 <= i < n ==> updates[..n][i] == updates[i];
      HoldsWhileTop(start, updates[..n], config);
      ReachableConsistent(start, updates[..n], config);
    }
  }

  lemma {:induction false} BreaksThrough(start: Core, updates: seq<Beliefs>, config: Config, i: nat)
    requires Sensible(config) && Consistent(start, config)
    requires forall k :: 0 <= k < |updates| ==> Top(updates[k], Order(config.allowed)) == Some(start.anchor)
    requires config.decayStep == 0 && start.progress == config.windowUpdates
    requires i < |updates| && Belief(updates[i], start.candidate.value) >= config.commitThreshold
    requires forall k :: 0 <= k < i ==> Belief(updates[k], start.candidate.value) < config.commitThreshold
    ensures Run(start, updates[..i], config) == start
    ensures Run(start, updates[..i + 1], config).anchor == start.candidate.value != start.anchor
  {
    if i > 0 {
      Stays(start, updates[..i], config);
    }
    assert updates[..i + 1][..i] == updates[..i];
  }

  lemma {:induction false} Stays(start: Core, updates: seq<Beliefs>, config: Config)
    requires Sensible(config) && Consistent(start, config)
    requires forall k :: 0 <= k < |updates| ==> Top(updates[k], Order(config.allowed)) == Some(start.anchor)
    requires config.decayStep == 0 && start.progress == config.windowUpdates
    requires forall k :: 0 <= k < |updates| ==> Belief(updates[k], start.candidate.value) < config.commitThreshold
    ensures Run(start, updates, config) == start
  {
    if |updates| > 0 { Stays(start, updates[..|updates| - 1], config); }
  }

  /** While the anchor itself is on top it holds, except in one case: nothing decays, a candidate has already
      filled its window, and some update lifts that candidate over the commit threshold. */
  lemma HoldsExactly(start: Core, updates: seq<Beliefs>, config: Config)
    requires Sensible(config) && Consistent(start, config)
    requires forall i :: 0 <= i < |updates| ==> Top(updates[i], Order(config.allowed)) == Some(start.anchor)
    ensures Holds(start, updates, config, start.anchor) <==> !PendingBreaksThrough(start, updates, config)
  {
    if PendingBreaksThrough(start, updates, config) {
      var i := FirstBreak(start, updates, config);
      BreaksThrough(start, updates, config, i);
    } else {
      forall n | 0 <= n <= |updates| ensures Run(start, updates[..n], config).anchor == start.anchor {
        HoldsWhileTop(start, updates[..n], config);
      }
    }
  }

  lemma FirstBreak(start: Core, updates: seq<Beliefs>, config: Config) returns (i: nat)
    requires PendingBreaksThrough(start, updates, config)
    ensures i < |updates| && Belief(updates[i], start.candidate.value) >= config.commitThreshold
    ensures forall k :: 0 <= k < i ==> Belief(updates[k], start.candidate.value) < config.commitThreshold
  {
    i := 0;
    while Belief(updates[i], start.candidate.value) < config.commitThreshold
      invariant i < |updates|
      invariant forall k :: 0 <= k < i ==> Belief(updates[k], start.candidate.value) < config.commitThreshold
      decreases |updates| - i
    {
      i := i + 1;
    }
  }
}
