/** Replay equivalence for the engine runner itself. */
module RunnerReplay {
  import opened Ordering
  import opened HysteresisRules
  import opened OrchestratorContracts
  import opened HysteresisPersistence
  import opened InputBuffer
  import opened Cuts
  import opened Scheduling
  import opened Orchestrator
  import opened LiveRuns
  import opened Replay
  import opened ReplayEquivalence

  /** The engine runner, and how many calls it has served: the number of a call picks the clock reading and whether
      an append to the hysteresis log succeeds. */
  datatype Runner = Runner(state: RunnerState, calls: nat)

  datatype World = World(config: Config, clock: nat -> int, appendSucceeds: nat -> bool)

  function RunnerCall(mode: EngineMode, world: World, runner: Runner, snapshot: Snapshot): (Runner, Outcome) {
    var n := runner.calls;
    match mode
    case Truth => (runner.(calls := n + 1), OutcomeOf(TruthRun(snapshot)))
    case Hysteresis =>
      var (state, result) := RunStep(runner.state, Call(snapshot, world.clock(n), world.appendSucceeds(n)),
                                     world.config);
      (Runner(state, n + 1), OutcomeOf(result))
  }

  /** The two errors of the hysteresis store halt the engine; what the pipeline raises fails the run. */
  function OutcomeOf(result: Result<EngineRunResult, RunError>): Outcome {
    match result
    case Ok(value) => Returned(value)
    case Err(PipelineRaised(detail)) => Raises(detail)
    case Err(_) => Halts
  }

  /** The guard of the live loop, on the hysteresis state of the symbol. */
  predicate Guard(mode: EngineMode, runner: Runner, symbol: string, timestamp: int) {
    mode == Hysteresis && symbol in runner.state.states && timestamp < runner.state.states[symbol].timestamp
  }

  /** The setup calls the engine runner, guards it, and composes snapshots of the symbol and time asked for. */
  ghost predicate UsesRunner(setup: Setup<Runner>, world: World) {
    && (forall runner, snapshot :: setup.engine(runner, snapshot) == RunnerCall(setup.mode, world, runner, snapshot))
    && (forall runner, symbol, timestamp ::
          setup.blocks(runner, symbol, timestamp) == Guard(setup.mode, runner, symbol, timestamp))
    && (forall raw, symbol, timestamp ::
          var composed := setup.compose(raw, symbol, timestamp);
          composed.Ok? ==> composed.value.symbol == symbol && composed.value.timestamp == timestamp)
  }

  /** What the runner answers the live loop, in either mode: it halts in hysteresis mode only, for a time behind the
      stored state or for a change that cannot be appended; what the pipeline raises it raises, and otherwise it returns
      the output of the pipeline, in truth mode alone, in hysteresis mode with the state that it stores, whose commit
      time is that of the state before or the reading of the clock for this call. */
  lemma RunnerTells(mode: EngineMode, world: World, runner: Runner, snapshot: Snapshot)
    ensures var (next, outcome) := RunnerCall(mode, world, runner, snapshot);
            && next.calls == runner.calls + 1
            && (Guard(mode, runner, snapshot.symbol, snapshot.timestamp) ==> outcome == Halts)
            && (!Guard(mode, runner, snapshot.symbol, snapshot.timestamp) ==>
                  && (forall detail :: outcome == Raises(detail) <==> snapshot.failure == Some(detail))
                  && (outcome == Halts ==> mode == Hysteresis && !world.appendSucceeds(runner.calls)))
            && (outcome.Returned? ==> snapshot.failure.None? && outcome.result.output == snapshot.output)
            && (mode == Truth ==> next.state == runner.state && (outcome.Returned? ==> outcome.result.hysteresis.None?))
            && (mode == Hysteresis && outcome.Returned? ==>
                  && outcome.result.hysteresis.Some?
                  && var state, states := outcome.result.hysteresis.value, runner.state.states;
                     && next.state.states == states[snapshot.symbol := state]
                     && state.lastCommit in {Some(world.clock(runner.calls)),
                                             if snapshot.symbol in states then states[snapshot.symbol].lastCommit
                                             else None})
  {
    hide StateAdvanced;
  }

  lemma RunnerRespectsMode(setup: Setup<Runner>, world: World)
    requires UsesRunner(setup, world)
    ensures RespectsMode(setup)
  {
    hide Advance;
    forall runner: Runner, snapshot: Snapshot
      ensures var outcome := setup.engine(runner, snapshot).1;
              outcome.Returned? ==> (outcome.result.hysteresis.Some? <==> setup.mode == Hysteresis)
    {
      assert setup.engine(runner, snapshot) == RunnerCall(setup.mode, world, runner, snapshot);
    }
  }

  /** Inside a run the guard that was passed still holds, and the engine has not halted. */
  ghost predicate Guarded(setup: Setup<Runner>, s: State<Runner>) {
    && s.phase != Stopped(EngineHalted)
    && (s.phase.InRun? ==> !setup.blocks(s.engine, s.phase.record.symbol, s.phase.record.timestamp))
  }

  /** A guarded call whose append succeeds returns, or raises what the pipeline raises. */
  lemma GuardedCallReturns(setup: Setup<Runner>, world: World, s: State<Runner>, raw: seq<RawEvent>)
    requires UsesRunner(setup, world) && Guarded(setup, s) && s.phase.InRun? && forall n :: world.appendSucceeds(n)
    ensures var call := CallEngine(setup, s.engine, raw, s.phase.record); call.Ok? ==> !call.value.1.Halts?
  {
    hide Advance;
    var r := s.phase.record;
    var composed := setup.compose(raw, r.symbol, r.timestamp);
    if composed.Ok? {
      assert setup.engine(s.engine, composed.value) == RunnerCall(setup.mode, world, s.engine, composed.value);
      assert world.appendSucceeds(s.engine.calls);
    }
  }

  lemma StartRunGuarded(setup: Setup<Runner>, s: State<Runner>, now: int)
    requires Timed(setup, s) && Guarded(setup, s) && s.phase.Looping? && |s.phase.todo| > 0
    ensures Guarded(setup, StartRun(setup, s, now))
  {
    hide Timed, NextCut;
    var t := StartRun(setup, s, now);
    StartRunTimed(setup, s, now);
    TimedNeverCrashed(setup, t);
    StartedFields(setup, s, now);
    if t.phase.InRun? {
      assert t.stream.events == s.stream.events + [Started(t.phase.record)];
    }
  }

  lemma ActGuarded(setup: Setup<Runner>, world: World, s: State<Runner>, action: Action)
    requires ValidScheduler(setup.scheduler) && UsesRunner(setup, world) && forall n :: world.appendSucceeds(n)
    requires Timed(setup, s) && Recorded(setup, s) && Guarded(setup, s)
    ensures Guarded(setup, Act(setup, s, action))
  {
    hide Timed, UsesRunner, StartRun, FinishRun, Sorted, Numbered, NextTick, RawEventsForCut;
    match action
    case Proceed(now) =>
      if s.phase.Looping? && s.phase.todo != [] {
        StartRunGuarded(setup, s, now);
      } else if s.phase.InRun? {
        var r := s.phase.record;
        FinishRunIs(setup, s);
        var raw := RawEventsForCut(s.records, r.symbol, r.cutStart, r.cutEnd).value;
        GuardedCallReturns(setup, world, s, raw);
      }
    case _ =>
  }

  lemma {:induction false} RunGuarded(setup: Setup<Runner>, world: World, runner: Runner, actions: seq<Action>)
    requires ValidScheduler(setup.scheduler) && UsesRunner(setup, world) && forall n :: world.appendSucceeds(n)
    ensures Guarded(setup, Run(setup, runner, actions))
  {
    hide Act, UsesRunner;
    if |actions| > 0 {
      var before := actions[..|actions| - 1];
      RunGuarded(setup, world, runner, before);
      RunKeeps(setup, runner, before);
      ActGuarded(setup, world, Run(setup, runner, before), actions[|actions| - 1]);
    }
  }

  /** With the engine runner, in either mode and while its appends succeed, the engine never halts: the guard of the
      live loop leaves no monotonicity violation for the runner to raise. The replay of every run from the same
      hysteresis store and the same clock readings returns exactly the published events, unless the pipeline itself
      has raised in one of the runs. */
  lemma RunnerReplays(setup: Setup<Runner>, world: World, runner: Runner, actions: seq<Action>)
    requires ValidScheduler(setup.scheduler) && UsesRunner(setup, world) && forall n :: world.appendSucceeds(n)
    requires !Run(setup, runner, actions).phase.InRun?
    ensures var s := Run(setup, runner, actions);
            var replay := Replayed(setup, s.records, s.log, runner);
            && s.phase != Stopped(EngineHalted)
            && (replay.Ok? <==> forall i :: 0 <= i < |s.stream.events| ==> !EngineFailure(s.stream.events[i]))
            && (replay.Ok? ==> replay.value.stream.events == s.stream.events && replay.value.engine == s.engine)
  {
    RunnerRespectsMode(setup, world);
    RunGuarded(setup, world, runner, actions);
    ReplayEquivalent(setup, runner, actions);
  }
}
