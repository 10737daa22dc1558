# Verification of the xray-vision event pipeline

xray-vision turns raw market events into regime decisions and analysis runs: an input buffer, scheduled cuts, a
feature composer, a regime engine with a debounced switch, a state gate, and an analysis engine. This project models
that pipeline in Dafny and proves what it promises over whole runs: replay equivalence, exactly-once processing,
restart safety and dependency ordering. `dafny verify dfyconfig.toml` checks everything.

Objects that the program updates in place are classes whose methods are proved equal to a step of a specification; the
theorems are about all runs of those steps.

- **Planning** (`DependencyGraph`, `Registry`, `Planning`, `PlanMeaning`): the recursive cycle search and Kahn's
  algorithm agree, a plan exists exactly when it should, and it is the least topological order of each stage.
- **Analysis engine** (`AnalysisEngine`, `AnalysisRuns`, `AnalysisCalls`, `AnalysisHistory`, `AnalysisAnswers`): one
  turn per planned module, what its code is called with and what is answered, how failures spread, why the order of a
  plan plays no part in its outcomes, module states from run to run, one answer per run id.
- **Hysteresis** (`HysteresisRules`, `HysteresisRuns`, `LeaderSafety`, `HysteresisPersistence`, `HysteresisRestart`,
  `WallClock`): bounded flipping, convergence, which leaders are safe, the record log, how every call of a run ends,
  crash and restart at any point, and what the wall clock decides.
- **Orchestrator** (`InputBuffer`, `Cuts`, `Scheduling`, `Orchestrator`, `Runtime`, `LiveRuns`, `Publications`,
  `Ticks`): source threads append and register symbols between any two steps of the scheduler thread; cut conservation
  and the absence of crashes hold for every interleaving.
- **Replay** (`Replay`, `ReplayEquivalence`, `RunnerReplay`, `ReplayedLogs`, `ReplayClocks`): what `replay_events`
  gives back, and exactly when, under the same clock and under another one.
- **State gate** (`GateAssembly`, `GateProcessing`, `GateInputs`, `GateOutcomes`, `GateRuns`, `GateTwins`,
  `GateRestart`): agreement of the three copies of the per-symbol state, fail-closed behaviour with appends that fail
  anywhere, and restart from the records.
- **Pipeline** (`EndToEnd`): the live loop, the gate and the analysis engine in series.
- **Folds** (`Reals`, `Features`, `FeatureMeaning`, `Observers`, `Evidence`, `BeliefUpdate`, `Metrics`,
  `SnapshotCodec`, `SnapshotMeaning`): Samuelson's inequality for the volatility z-score, no look-ahead, evidence
  round trip, from opinions to the anchor, four metric loops that agree, and the snapshot codec.

Promises that hold only in part, with the exact condition that is proved:

- A leading anchor can lose its place, to a candidate that has filled its window earlier, exactly for configurations
  with `decay_step == 0`, two different allowed regimes, and a commit threshold of at most one half that lies above
  the entry threshold, the lead, and the least share of a top regime (`LeaderIsSafeExactly`, over all belief
  distributions). With the beliefs of the engine's own pipeline no leader is ever lost (`PipelineLeadersAreSafe`).
- A hysteresis record is read back only if its symbol is not empty and its numbers are not negative
  (`RecordRoundTrip`). A restart recovers the live store after every prefix of a run exactly if all lines that the run
  writes are such records (`RecoversExactly`), and a log is refused exactly if none is (`UnreadableLog`).
- `last_commit_timestamp_ms` is taken from the wall clock in `src/regime_engine/hysteresis/rules.py:153`, although
  `tests/unit/hysteresis/test_hysteresis_rules.py:171` expects engine time. The model follows the code. Commits bear
  engine time exactly if the clock reads it at each of them (`CommitsBearEngineTimeExactly`); two clocks give the same
  results exactly if they agree at each commit (`SameUnderClocksExactly`, and `ClocksShow` for a run where they
  differ); and a replay under another clock gives back the published events exactly if the clocks agree at the call
  behind every published commit, and otherwise all but the commit times (`ReplayUnderAnotherClock`).
- `next_cut` accepts an end beyond the buffer, and then loses exactly what arrives up to that end (`CutConservation`,
  `CutBeyondTheBufferLoses`). The live loop never asks for such a cut.
- `replay_events` does not catch engine exceptions, while the live loop does. A replay returns exactly if no engine
  call of the live run ended with an exception (`ReplayEquivalent`); with the engine runner itself, exactly if no
  published event reports an engine failure (`RunnerReplays`).
- A restarted gate answers as the lost one would exactly if no pending run that is still fresh holds an output, unless
  publishing has no room to show it (`RestartLosesOutputs`); if run ids did not fix the engine mode, any mode it holds
  would be lost too (`RestartLosesModes`).
- The denylist applies to a completed run exactly in truth mode (`DenylistAppliesExactly`). In hysteresis mode the
  gate decides on the hysteresis state, which is published before the output.
- Evidence without opinions does not take an older payload out of structure levels that are a mapping but no
  dictionary (`EmbedThenExtract`).
- The classical observer scores nine regimes but can never decide for trend exhaustion, and for a squeeze exactly with
  a trend its way, a volatility score of 3 or more and a flow between 1/150 and 1/20 (`ClassicalNeverExhausted`,
  `ClassicalSqueezesExactly`).
- A module is handed all the artifacts it requires exactly if no two of its dependencies share a text key
  (`EachIsHandedExactly`); two module ids can share one exactly if one continues the other after a colon
  (`KeysCollideExactly`), and then only the later dependency is served (`LaterIsHanded`).
- The latest open interest is bounded by the engine time exactly if no event that carries one is later
  (`InterestLooksAheadExactly`); the features from trades and candles always are (`NoLookAhead`).

## Model

| member | source | states |
|---|---|---|
| Registry.CycleSearch.Dfs | src/consumers/analysis_engine/registry.py:60-71 | the recursive search reports no error exactly when it can put the node and all it reaches into a finished order that respects dependencies, terminates because the path visited never outgrows the enabled set, and an error names a node on a cycle |
| Registry.CycleSearch.VisitDependencies | src/consumers/analysis_engine/registry.py:66-68 | the loop over a node's dependencies keeps the finished nodes dependency-complete, or stops at a real cycle |
| Registry.ModuleRegistry.Register | src/consumers/analysis_engine/registry.py:14-21 | registration succeeds exactly for distinct ids, keeps each definition under its own id, and then lists the modules by id, in whatever order they came |
| Registry.ModuleRegistry.ValidateMissingDependencies | src/consumers/analysis_engine/registry.py:44-54 | no error exactly if every enabled module is known and all its dependencies are enabled; an error names a real gap |
| Registry.ModuleRegistry.ValidateCycles | src/consumers/analysis_engine/registry.py:56-74 | no error exactly if the enabled dependency graph has no cycle, self-loops included; an error names a node on a cycle |
| Registry.ModuleRegistry.ValidateDependencies | src/consumers/analysis_engine/registry.py:39-42 | no error exactly if nothing is missing and there is no cycle |
| Planning.CollectDependents | src/consumers/analysis_engine/planning.py:85-88 | inverts the dependency sets of a stage exactly |
| Planning.OrderStage | src/consumers/analysis_engine/planning.py:76-103 | succeeds exactly if the stage has no cycle, and then lists it in the greedy least-first topological order, whatever order the modules came in |
| Planning.ValidateStageDependencies | src/consumers/analysis_engine/planning.py:59-73 | no error exactly if no module depends on a module of a later stage |
| Planning.BuildExecutionPlan | src/consumers/analysis_engine/planning.py:26-52 | a plan is returned exactly if dependencies are met, acyclic and stage-monotone; then it is a topological order of all enabled modules across stages; the stage cycle error never shows |
| Planning.PlanIsTopological | src/consumers/analysis_engine/planning.py:26-52 | concatenating the stages in order lists every enabled module once, and every dependency strictly before its dependent |
| Planning.StageIsLeast | src/consumers/analysis_engine/planning.py:90-99 | no topological order of the stage is lexicographically smaller than the planned one |
| Planning.PlanIsUnique | src/consumers/analysis_engine/planning.py:26-52 | the plan depends on the set of enabled modules only, not on how they are listed |
| PlanMeaning.PlannableExactly | src/consumers/analysis_engine/planning.py:26-73 | by the definitions' own fields: a set of modules has a plan exactly if every dependency is enabled, none is of a later kind, and no chain of dependencies returns to its start |
| PlanMeaning.StageTells | src/consumers/analysis_engine/planning.py:35-103 | each stage lists the enabled modules of its kind once each, with their kind, artifacts and dependencies; at every place stands the least id of the modules not listed before whose dependencies within the stage are |
| DependencyGraph.GreedyCompleteIffAcyclic | src/consumers/analysis_engine/planning.py:90-103 | taking the least ready node again and again emits all nodes exactly if the graph is acyclic, so the two cycle detectors agree |
| DependencyGraph.GreedyIsLeast | src/consumers/analysis_engine/planning.py:90-99 | the greedy order is the least of all topological orders |
| DependencyGraph.ListedImpliesAcyclic | src/consumers/analysis_engine/registry.py:56-74 | a topological order rules out every cycle |
| DependencyGraph.StuckImpliesCycle | src/consumers/analysis_engine/planning.py:101-102 | a set of nodes that all wait for each other contains a cycle |
| DependencyGraph.DependencyIsEarlier | src/consumers/analysis_engine/planning.py:26-52 | index form: what a listed node depends on stands strictly before it |
| Ordering.StringOrder | src/consumers/analysis_engine/planning.py:90 | strings are in order by the first code point in which they differ, and otherwise the shorter first |
| AnalysisEngine.ModuleStateStore.LatestBySymbolAndModule | src/consumers/analysis_engine/persistence.py:39-49 | the last record of the symbol and module |
| AnalysisEngine.ArtifactStore.DependencyPayloadsOf | src/consumers/analysis_engine/artifacts.py:25-33 | the artifacts handed to a module under their text keys, the last one winning when two keys read the same |
| AnalysisEngine.ValidateArtifacts | src/consumers/analysis_engine/engine.py:284-296 | an error exactly if some artifact is not of the kind of the stage, naming the first one |
| AnalysisEngine.Engine.ExecuteModule | src/consumers/analysis_engine/engine.py:138-225 | one module's turn: missing dependency, exception, wrong kind or success, with its events, artifacts and state |
| AnalysisEngine.Engine.Execute | src/consumers/analysis_engine/engine.py:135-225 | the nested loops over stages and steps carry out the specified turns in plan order |
| AnalysisEngine.Engine.Consume | src/consumers/analysis_engine/engine.py:65-241 | the whole new engine state and the events for every kind of gate event, halted symbols, used run ids, closed gates and missing plans included |
| AnalysisHistory.BuildPlans | src/consumers/analysis_engine/engine.py:258-275 | plans are built exactly if the default set and every symbol's set have one; each symbol then holds the plan of its own set |
| AnalysisHistory.BuiltPlansAreRunnable | src/consumers/analysis_engine/engine.py:138 | every step of a built plan names a registered module |
| AnalysisHistory.SlotsFollowPlan | src/consumers/analysis_engine/engine.py:135-137 | the engine takes the modules in the order of the concatenated stages |
| AnalysisHistory.PlansAreInOrder | src/consumers/analysis_engine/engine.py:135-138 | executing a built plan takes each enabled module once, after all that it depends on |
| AnalysisRuns.StoreHolds | src/consumers/analysis_engine/artifacts.py:15-23 | the store holds exactly what modules earlier in the run have emitted |
| AnalysisCalls.StoreIsEmitted | src/consumers/analysis_engine/artifacts.py:15-23 | under each module id and name the store holds the artifact emitted last, in the order returned |
| AnalysisCalls.CodeDecides | src/consumers/analysis_engine/engine.py:139-190 | a module whose dependencies were all emitted is decided by its code, called with its id, the fields of the gate event, the artifacts emitted for its dependencies and the last state of the symbol: success, the exception raised, or the first artifact that is not of the stage's kind |
| AnalysisRuns.MissingExactly | src/consumers/analysis_engine/engine.py:139-157 | missing_dependency exactly if some required artifact was not emitted earlier in the run |
| AnalysisRuns.MissingInPlan | src/consumers/analysis_engine/engine.py:139-157 | in a plan, with modules emitting under their own id, missing_dependency exactly if the module depended on has not emitted the artifact at all |
| AnalysisRuns.FailureSpreads | src/consumers/analysis_engine/engine.py:139-157 | success is closed under transitive dependencies: everything upstream of a failed module on a dependency walk fails as missing_dependency |
| AnalysisRuns.OrderPlaysNoPart | src/consumers/analysis_engine/engine.py:135-225 | any two dependency-respecting orders give every module the same outcome |
| AnalysisRuns.OneOutcomeEach | src/consumers/analysis_engine/engine.py:120-225 | the events of a run are the start and exactly one block per planned module, in plan order |
| AnalysisRuns.RunStatusIs | src/consumers/analysis_engine/engine.py:227-240 | SUCCESS exactly if every planned module succeeded, otherwise PARTIAL with exactly the failed ids, once each and sorted |
| AnalysisRuns.StatesAfterRun | src/consumers/analysis_engine/engine.py:161-166 | state is appended only on success; the next run of the symbol is handed the latest one; other symbols are untouched |
| AnalysisRuns.TurnPayload | src/consumers/analysis_engine/engine.py:212-225 | one turn changes the latest state of one module of one symbol, and only if it keeps one |
| AnalysisRuns.ArtifactsByName | src/consumers/analysis_engine/engine.py:195-198 | artifacts are emitted by name, and equal names in the order returned |
| AnalysisRuns.HandedUnderKey | src/consumers/analysis_engine/artifacts.py:25-33 | under a dependency's text key a module finds the artifact of the last dependency that reads the same |
| AnalysisRuns.KeysCollideExactly | src/consumers/analysis_engine/artifacts.py:32 | of two different module ids some artifacts read the same exactly if one id continues the other after a colon |
| AnalysisRuns.EachIsHandedExactly | src/consumers/analysis_engine/artifacts.py:25-33 | whatever the artifacts, a module is handed all of those it requires exactly if no two of its dependencies share a key |
| AnalysisRuns.LaterIsHanded | src/consumers/analysis_engine/artifacts.py:25-33 | of two dependencies that share a key the module is handed only the artifact of the later one |
| AnalysisHistory.AnsweredOnce | src/consumers/analysis_engine/engine.py:87-91 | a run id is answered at most once over any history |
| AnalysisHistory.HaltedForGood | src/consumers/analysis_engine/engine.py:66-82 | after a halt the symbol's events give nothing any more |
| AnalysisHistory.ResetsPlayNoPart | src/consumers/analysis_engine/engine.py:84-85 | resets use up no run id: without them state and answers are the same |
| AnalysisHistory.AnswerShape | src/consumers/analysis_engine/engine.py:87-241 | a fresh evaluation is answered by exactly one skip, or one start-to-completion block |
| AnalysisAnswers.AnswersTell | src/consumers/analysis_engine/engine.py:65-241 | the answer to every gate event by its fields: nothing, a failure, a skip, or a start, the events of each planned module in turn, and a completion that names exactly the modules that did not succeed |
| AnalysisAnswers.CodeIsHandedItsLastState | src/consumers/analysis_engine/engine.py:161-172 | over every history, a module's code is called with the state that it returned in the last execution for the symbol in which it succeeded and kept one |
| AnalysisAnswers.StatesAreTold | src/consumers/analysis_engine/engine.py:199-212 | an execution adds exactly one state record, by its fields, for each module that succeeds, declares a schema and returns a state |
| HysteresisRules.SelectTopRegime | src/regime_engine/hysteresis/rules.py:29-46 | the first regime of the order that no other exceeds, none if no allowed regime has a belief |
| HysteresisRules.TopIsFirstMaximum | src/regime_engine/hysteresis/rules.py:29-46 | what the selection means, independently of the loop |
| HysteresisRules.EvaluateGate | src/regime_engine/hysteresis/rules.py:60-82 | the gate passes exactly at entry threshold and lead, and gives the reasons in order |
| HysteresisRules.AdvanceHysteresis | src/regime_engine/hysteresis/rules.py:85-181 | one update equals the specified step: candidate, progress, decay, commit, clamping, reasons and commit time |
| HysteresisRules.CommitIfDue | src/regime_engine/hysteresis/rules.py:146-181 | the commit decision on the tracked progress and the final clamping |
| HysteresisRuns.ReachableConsistent | src/regime_engine/hysteresis/rules.py:85-181 | in every reachable state progress lies in its window, a candidate exists exactly with progress, and never is the anchor |
| HysteresisRuns.AdvanceTells | src/regime_engine/hysteresis/rules.py:85-181 | one update in plain terms: who challenges and enters, one step of progress or of decay, the commit, and every field of the new state |
| HysteresisRuns.ReasonsTell | src/regime_engine/hysteresis/rules.py:106-121 | the reasons name exactly who is on top and why a challenger does not enter |
| HysteresisRuns.ProgressReasonsTell | src/regime_engine/hysteresis/rules.py:123-144 | the reasons name exactly how progress has moved |
| HysteresisRuns.CommitReasonsTell | src/regime_engine/hysteresis/rules.py:146-155 | the reasons name exactly the commit, or a full window held back by the commit threshold |
| HysteresisRuns.Decays | src/regime_engine/hysteresis/rules.py:133-144 | over n updates that nobody enters, progress falls by n decay steps and no further than zero, and the candidate is kept exactly while some is left |
| HysteresisRuns.ResumesExactly | src/regime_engine/hysteresis/rules.py:123-155 | after such a pause a candidate becomes the anchor with exactly as many favourable updates as its window lacks of what is left |
| HysteresisRuns.AdvanceAllIsRun | src/regime_engine/hysteresis/rules.py:85-181 | runs of full states are runs of the three deciding fields |
| HysteresisRuns.BoundedFlipping | src/regime_engine/hysteresis/rules.py:123-155 | commits times the window plus progress never exceed the eligible updates |
| HysteresisRuns.AnchorMovesOnlyOnCommit | src/regime_engine/hysteresis/rules.py:146-155 | the anchor changes exactly on a commit |
| HysteresisRuns.CommitIsSupported | src/regime_engine/hysteresis/rules.py:123-155 | a commit to a regime needs a window of eligible updates for it since the commit before |
| HysteresisRuns.Convergence | src/regime_engine/hysteresis/rules.py:123-155 | from any consistent state a window of favourable updates settles the anchor, and it stays while they go on |
| HysteresisRuns.HoldsExactly | src/regime_engine/hysteresis/rules.py:123-155 | while the anchor is on top it holds, except exactly when nothing decays, a full candidate waits, and an update lifts it over the commit threshold |
| LeaderSafety.FullWindow | src/regime_engine/hysteresis/rules.py:123-155 | a run fills the window of a waiting candidate only through an update that is eligible for it and stays below the commit threshold |
| LeaderSafety.LostIsLosable | src/regime_engine/hysteresis/rules.py:123-155 | over belief distributions and any allowed list, an update can drop a leading anchor only if nothing decays, two regimes are allowed, and the commit threshold lies above entry threshold, lead and least share, and not above one half |
| LeaderSafety.LeaderIsSafeExactly | src/regime_engine/hysteresis/rules.py:123-155 | over all runs of belief distributions, whatever is allowed, no leading anchor is ever dropped exactly if that condition on the configuration does not hold |
| LeaderSafety.PipelineLeadersAreSafe | src/regime_engine/pipeline.py:90-94 | with the beliefs that the engine's own pipeline computes, from a fresh state each time, no configuration ever drops a leading anchor |
| LeaderSafety.LosingRun | src/regime_engine/state/invariants.py:16-28 | for every configuration that meets the condition, a run of belief distributions that drops a leading anchor |
| HysteresisPersistence.RecordRoundTrip | src/regime_engine/hysteresis/persistence.py:31-88 | a written record reads back as itself exactly if it is storable, and is dropped otherwise |
| HysteresisPersistence.ParseTells | src/regime_engine/hysteresis/persistence.py:46-88 | an object is read as a record exactly if its fields stand for it: both schema texts, a symbol, integers that are not negative, and known regimes |
| HysteresisPersistence.FoldTells | src/regime_engine/hysteresis/persistence.py:117-137 | of the records of a symbol the log stands for the one with the latest time, and the last of these |
| HysteresisPersistence.RestoredTells | src/regime_engine/hysteresis/persistence.py:91-155 | a log restores one state for each symbol with a record, field by field |
| HysteresisPersistence.LoadRecords | src/regime_engine/hysteresis/persistence.py:117-137 | the loop over the file is the fold that keeps the latest valid record of each symbol |
| HysteresisPersistence.RestoreStore | src/regime_engine/hysteresis/persistence.py:91-103 | no file restores the empty store, a file without valid record is an error, otherwise one state per symbol |
| HysteresisPersistence.HysteresisStore.Update | src/regime_engine/hysteresis/state.py:44-45 | one entry is replaced |
| HysteresisPersistence.HysteresisStore.ProcessState | src/regime_engine/hysteresis/__init__.py:14-65 | advance from the stored state, then store the result |
| HysteresisPersistence.EngineRunner.RestorePrevious | src/orchestrator/engine_runner.py:115-123 | rollback removes a new symbol or puts the old state back |
| HysteresisPersistence.EngineRunner.RunEngine | src/orchestrator/engine_runner.py:58-98 | one call equals the specified step: guard, exception of the pipeline, advance, append if advanced, exact rollback on failure; truth mode leaves the store alone |
| HysteresisPersistence.RollbackRestores | src/orchestrator/engine_runner.py:81-83 | after a failed append the store is exactly what it was |
| HysteresisRestart.CallsTell | src/orchestrator/engine_runner.py:58-123 | every call of a run, by the state that the last accepted call of its symbol returned: refused exactly if behind it, failed with what the pipeline raised, lost exactly if a change cannot be appended, and otherwise the output of the pipeline with that state updated once, field by field |
| HysteresisRestart.RunRecoverable | src/orchestrator/engine_runner.py:58-88 | after every run of calls whose written lines can be read back, with skipped and failed appends, the log remembers every live state |
| HysteresisRestart.WritesExactly | src/orchestrator/engine_runner.py:78-112 | a call writes a line exactly if it returns the first state of the symbol or one with another anchor, candidate or progress; the line is the record of that state |
| HysteresisRestart.RestartAgrees | src/regime_engine/hysteresis/persistence.py:91-155 | the refolded store has the same symbols, anchors, candidates, progress and commits, with timestamps no later |
| HysteresisRestart.ContinuesAlike | src/orchestrator/engine_runner.py:58-123 | stores that agree give the same results for every continuation the live one accepts, and keep agreeing |
| HysteresisRestart.CrashRestart | src/orchestrator/engine_runner.py:58-123 | crash at any point of a run: the log restores, agrees, and every accepted continuation gives the same sequence |
| HysteresisRestart.LoggableCallsAreStorable | src/regime_engine/hysteresis/persistence.py:60-88 | calls with a symbol and with times and clock readings from the epoch on write only lines that can be read back |
| HysteresisRestart.UnreadableLog | src/regime_engine/hysteresis/persistence.py:91-103 | a log is refused exactly if no line of it is a record that can be stored |
| HysteresisRestart.RecoversExactly | src/regime_engine/hysteresis/persistence.py:60-155 | over every run of calls from nothing, a restart after each prefix reads the log and agrees with the live store exactly if every line that the run writes can be read back |
| WallClock.OnlyCommitTimesReadTheClock | src/regime_engine/hysteresis/rules.py:153 | the wall clock reaches only the commit times; everything else in a run is independent of it |
| WallClock.SameUnderClocksExactly | src/regime_engine/hysteresis/rules.py:146-155 | two clocks give a run of calls the same results exactly if they agree at each of its commits, and then the same states and log |
| WallClock.CommitsBearEngineTimeExactly | tests/unit/hysteresis/test_hysteresis_rules.py:146-171 | every commit of a run bears its engine time exactly if the clock reads it there, which is exactly if the run is the one that a clock on engine time gives |
| WallClock.ClocksShow | src/regime_engine/hysteresis/rules.py:153 | a run that any two different clock readings tell apart |
| InputBuffer.RawInputBuffer.Append | src/orchestrator/buffer.py:28-41 | numbers are consecutive from one; a full buffer refuses and stays as it is |
| InputBuffer.RawInputBuffer.LastIngestSeq | src/orchestrator/buffer.py:61-64 | the last number equals the number of records |
| InputBuffer.RangeCompletes | src/orchestrator/buffer.py:46-53 | a range is exactly what its end adds to the records before its start |
| InputBuffer.CutCompletes | src/runtime/wiring.py:419-431 | the events of a cut are exactly what its end adds to the symbol's events before its start |
| InputBuffer.RangeIsStable | src/orchestrator/buffer.py:46-53 | later appends do not change what a range within the buffer holds |
| Cuts.CutSelector.Next | src/orchestrator/cuts.py:20-44 | the cut or the error of every branch, the first match by a loop, and no moved boundary on rejection |
| Cuts.CutSelector.FirstSeqForSymbol | src/orchestrator/cuts.py:50-57 | the number of the symbol's first record in the range |
| Cuts.FirstCutStart | src/orchestrator/cuts.py:31-33 | the first cut of a symbol starts at its first event |
| Cuts.CutsAreChained | src/orchestrator/cuts.py:20-44 | over every history of appends and calls, a symbol's cuts follow each other without gap or overlap, and the boundary is the last end |
| Cuts.CutsAreDisjoint | src/orchestrator/cuts.py:20-44 | two cuts of a symbol never overlap |
| Cuts.CutConservation | src/orchestrator/cuts.py:20-44 | the cuts read exactly the symbol's events up to the boundary, once each and in order, exactly if none arrived behind the boundary; otherwise they read, in order, exactly those that did not, and as many are missing as arrived there |
| Cuts.WithinBufferLosesNothing | src/orchestrator/cuts.py:46-48 | ending cuts within the buffer loses nothing |
| Cuts.CutBeyondTheBufferLoses | src/orchestrator/cuts.py:28-44 | after any accepted cut that ends beyond the buffer, each later arrival of the symbol up to its end is lost, whatever happens in between and afterwards |
| Cuts.LosingHistory | src/orchestrator/cuts.py:28-44 | a concrete history that loses an event so |
| Scheduling.Scheduler.NextTickMs | src/orchestrator/scheduler.py:13-16 | the tick of either mode, and the new last tick |
| Scheduling.Scheduler.NextBoundaryTick | src/orchestrator/scheduler.py:26-38 | the boundary arithmetic, clamped at zero |
| Scheduling.Scheduler.NextTimerTick | src/orchestrator/scheduler.py:18-24 | the first timer tick is now, later ones an interval apart |
| Scheduling.FirstBoundaryTick | src/orchestrator/scheduler.py:33-38 | the first boundary tick is the first boundary plus delay after now, at most an interval away; before the delay has passed it is the first boundary of all |
| Scheduling.TicksAreRegular | src/orchestrator/scheduler.py:13-38 | ticks are one interval apart, strictly increase, and boundary ticks stay congruent to the delay |
| Scheduling.SymbolSequencer.Ensure | src/orchestrator/sequencing.py:13-17 | accepted exactly if not before the symbol's last timestamp; refused without change |
| Orchestrator.CountsByEventType | src/runtime/wiring.py:434-438 | the counting loop |
| Orchestrator.CountsAreMultiplicities | src/runtime/wiring.py:434-438 | every event type is counted exactly as often as it occurs |
| Runtime.OrchestratorRuntime.HandleRawEvent | src/runtime/wiring.py:131-133 | an accepted event is buffered and its symbol registered; a refused one changes nothing |
| Runtime.OrchestratorRuntime.Start | src/runtime/wiring.py:153-198 | guard, cut, log record and start event of one symbol |
| Runtime.OrchestratorRuntime.Finish | src/runtime/wiring.py:199-285 | composition, engine call, and the failure, halt or completion events of one run |
| Runtime.OrchestratorRuntime.RunDue | src/runtime/wiring.py:144-285 | one tick over the sorted symbols equals the steps of the scheduler thread taken in a row |
| Runtime.OrchestratorRuntime.Tick | src/runtime/wiring.py:135-142 | one round of the scheduler thread |
| Runtime.OrchestratorRuntime.Publish | src/orchestrator/publisher.py:32-36 | an event is published exactly if it is in sequence |
| Runtime.DriveIsARun | src/runtime/wiring.py:135-142 | an uninterrupted tick is one of the interleavings that the run theorems range over |
| LiveRuns.NeverCrashes | src/runtime/wiring.py:135-285 | whatever arrives when, the sequencer rejects nothing and every range of a cut can be read, so neither raises in the loop; exceptions of bus handlers inside a publication are outside |
| LiveRuns.RunKeeps | src/runtime/wiring.py:135-285 | over every interleaving: times in order, log cuts within the buffer, symbols of a tick still behind it |
| LiveRuns.FinishRunIs | src/runtime/wiring.py:199-285 | the end of a run is accepted by the sequencer and publishes exactly its events |
| LiveRuns.EventsAreLogged | src/runtime/wiring.py:167-285 | over every interleaving each published event carries the run id, symbol, time and cut of a run in the log |
| Publications.PublishedAsAnswered | src/runtime/wiring.py:167-285 | over every interleaving the published events are those of the runs of the log, in its order and by their fields: a start, and then the output and state exactly as the engine returned them, or a failure with the kind and text of the composer's or the engine's error, each with the run's mode and a tally of the raw events of its cut |
| Publications.LogTells | src/runtime/wiring.py:153-181 | every record of the log has the id of its symbol, time, cut end and mode, the time of the tick it was planned for less the boundary delay, and a clock reading as its start |
| Ticks.TickServes | src/runtime/wiring.py:144-198 | a tick that nothing interrupts or stops makes exactly one run for each symbol that has something to cut, in order, from where its last cut ended or from its first event up to the number read |
| Ticks.TickBegins | src/runtime/wiring.py:144-152 | a tick works through all known symbols in order, up to the last number, and does nothing without records or symbols |
| LiveRuns.LiveCutsAreAHistory | src/runtime/wiring.py:159-166 | every interleaving logs the cuts of a history whose cuts end within the buffer |
| LiveRuns.LiveCutConservation | src/runtime/wiring.py:159-205 | over every interleaving the logged cuts of a symbol are chained and hold exactly its events up to the boundary |
| Replay.EventSequence.Add | src/orchestrator/replay.py:155-159 | an event is added exactly if it is in sequence |
| Replay.ReplayBody | src/orchestrator/replay.py:61-150 | what a record replays to after its start event, for every branch |
| Replay.ReplayEvents | src/orchestrator/replay.py:32-152 | the loop over the log returns the specified events or the first exception |
| ReplayedLogs.ReplayedAsAnswered | src/orchestrator/replay.py:32-152 | for every log, whatever its records say: the replay returns exactly if each record can be replayed and the times of no symbol run backwards, and then its events are those of the records by their fields, failed ones with their own kind and detail or the usual ones |
| ReplayedLogs.FirstFailureIsRaised | src/orchestrator/replay.py:32-177 | a replay that fails raises what is wrong with the first record that cannot be replayed: its range, the order of times, what the engine raises, or a missing hysteresis state |
| ReplayEquivalence.ReplayRestIs | src/orchestrator/replay.py:78-150 | replaying the rest of a run publishes what the live run publishes, or raises what the engine raises |
| ReplayEquivalence.FinishClean | src/runtime/wiring.py:206-256 | a run ends clean exactly if its engine call returns or is not reached |
| ReplayEquivalence.ReplayEquivalent | src/orchestrator/replay.py:32-152 | for every interleaving: the replay of the log over the final buffer returns exactly if no engine call ended with an exception, and then returns exactly the published events |
| RunnerReplay.RunnerTells | src/runtime/wiring.py:233-259 | what the runner answers the live loop in either mode: a halt, the exception of the pipeline, or its output |
| RunnerReplay.RunnerRespectsMode | src/orchestrator/engine_runner.py:68-87 | the engine runner returns a hysteresis state exactly in hysteresis mode |
| RunnerReplay.GuardedCallReturns | src/runtime/wiring.py:287-298 | behind the guard of the live loop, and while appends succeed, the runner never halts the engine: it returns, or raises what the pipeline raises |
| RunnerReplay.RunnerReplays | src/orchestrator/replay.py:32-152 | with the engine runner in either mode and successful appends the engine never halts; a replay on the same clock readings returns, with exactly the published events, if and only if no published event reports an engine failure |
| ReplayClocks.ReplayUnderAnotherClock | src/orchestrator/replay.py:32-152 | a replay with the engine runner on any other clock returns exactly if no engine call ended with an exception, gives the published events apart from commit times, and gives the very same exactly if the clocks agree at the call behind every published commit |
| ReplayClocks.CallUnderClocks | src/orchestrator/replay.py:109-128 | one engine call under two clocks, on states that differ in commit times, ends alike; on the same state it gives the same exactly if it does not commit or the clocks agree |
| GateProcessing.Evaluate | src/consumers/state_gate/evaluation.py:43-128 | open exactly if not failed, not denylisted and not held by a transition; status and reasons of the earliest rule |
| GateInputs.EvaluationTells | src/consumers/state_gate/evaluation.py:43-128 | every field of an evaluation: gate, status and reasons by the earliest obstacle, and the output and hysteresis state that it hands on, none of a failed run and no state of a denied one |
| GateAssembly.RunAssembly.UpdateEngineMode | src/consumers/state_gate/assembly.py:125-135 | a known mode may not change, a missing one is filled in |
| GateAssembly.RunAssembly.ApplyEvent | src/consumers/state_gate/assembly.py:137-156 | the field each event sets, and the payload errors |
| GateAssembly.RunAssembly.ReadyEventType | src/consumers/state_gate/assembly.py:158-165 | when a run is ready, and as what |
| GateAssembly.RunAssembler.Ingest | src/consumers/state_gate/assembly.py:43-90 | the whole new assembler state and result: duplicates, stale runs, inconsistencies, completion |
| GateAssembly.IngestedByParts | src/consumers/state_gate/assembly.py:43-90 | opening, applying and completing compose to one ingestion |
| GateInputs.EvaluatedRunTells | src/consumers/state_gate/assembly.py:43-165 | over every history, a run is handed to the rules exactly when the events taken for it have brought a hysteresis state, a failure, or an output outside hysteresis mode; it carries the last output and the last state of those events, and nothing of a failed run |
| GateInputs.StaleIsDropped | src/consumers/state_gate/assembly.py:50-53 | what comes no later than the last run of its symbol is dropped together with its run, and changes nothing else |
| GateInputs.RefusedExactly | src/consumers/state_gate/assembly.py:43-156 | which error ingestion raises for every state and event, in its order: another symbol, time or mode than that of the pending run, then a payload of the wrong kind; all else is taken |
| GateProcessing.StateGateStateMachine.ProcessRun | src/consumers/state_gate/state_machine.py:33-74 | a reset exactly on a gap, then one evaluation, and the new snapshot |
| GateProcessing.StateGateStateStore.AppendEvent | src/consumers/state_gate/state_store.py:23-61 | a record is appended and folded into the snapshots, or nothing changes |
| GateProcessing.StateGateProcessor.EnterHalted | src/consumers/state_gate/processor.py:157-194 | halting, with or without a record |
| GateProcessing.StateGateProcessor.AppendAll | src/consumers/state_gate/processor.py:92-118 | events are written one by one up to the first failure |
| GateProcessing.StateGateProcessor.Process | src/consumers/state_gate/processor.py:76-126 | a completed run: blocked, failed at any append, or fully recorded and returned |
| GateProcessing.StateGateProcessor.Consume | src/consumers/state_gate/processor.py:52-126 | one input equals the specified step, halted processors included |
| GateOutcomes.ConsumedTells | src/consumers/state_gate/processor.py:52-194 | every input by the fields of what it returns and writes: nothing, a halt for want of room or at the append that fails, or a reset after a gap and the evaluation, each written as one record that tells it |
| GateOutcomes.ProcessedTells | src/consumers/state_gate/processor.py:76-126 | how a completed run ends, with the records and the snapshot that it leaves |
| GateProcessing.StateGateProcessor.constructor | src/consumers/state_gate/processor.py:27-50 | a processor over a log starts from its fold, its run ids and its latest timestamps |
| GateRuns.CopiesAgreeAlways | src/consumers/state_gate/processor.py:27-126 | while not halted, machine snapshots are the fold of the log and the assembler's timestamps are theirs, whatever appends failed |
| GateRuns.SnapshotsShowTheLog | src/consumers/state_gate/state_store.py:16-62 | in every reachable state that is not halted the snapshot of a symbol shows its last record, field by field, or a closed gate in bootstrap if it has none |
| GateRuns.EvaluatesOnceInOrder | src/consumers/state_gate/assembly.py:43-90 | one evaluation per run id, with strictly increasing timestamps per symbol |
| GateRuns.CompletedRunIsNew | src/consumers/state_gate/assembly.py:43-90 | a completing run is new and later than anything of its symbol |
| GateRuns.MachineEventsShape | src/consumers/state_gate/state_machine.py:33-60 | a run gives at most one closed reset and then its evaluation |
| GateRuns.OpenIsLogged | src/consumers/state_gate/processor.py:92-126 | OPEN is returned only after its record is in the log |
| GateRuns.HaltReturnsOnlyHalt | src/consumers/state_gate/processor.py:92-118 | a halting input returns one closed halt and no part of its run |
| GateRuns.HaltIsFinal | src/consumers/state_gate/processor.py:52-55 | a halted processor never changes and never returns anything |
| GateRuns.NeverBlocked | src/consumers/state_gate/processor.py:154-155 | with room for two events publishing is never blocked, and without failed appends nothing halts |
| GateTwins.RunOrderly | src/consumers/state_gate/assembly.py:43-90 | over every run, processed ids without a record are stale, and pending runs carry their own key |
| GateTwins.TwinsForever | src/consumers/state_gate/processor.py:52-126 | two processors that differ only in stale, blank and hidden runs answer every future alike |
| GateRestart.RestartEquivalence | src/consumers/state_gate/processor.py:27-50 | a processor rebuilt from the records answers every future input alike if each pending run is stale, blank, or bound to end in a halt; this is the exact condition, with any room for publishing, where run ids fix symbol and time and, for some or all of them, the mode |
| GateRestart.RestartLosesOutputs | src/orchestrator/run_id.py:13-21 | with run ids that fix the mode as well, exactly if no pending run that is not stale holds an output, unless publishing has no room for its events |
| GateRestart.RestartLosesModes | src/consumers/state_gate/assembly.py:125-135 | with run ids that leave the mode free, exactly if no pending run that is not stale holds a mode |
| GateRestart.FailuresMakeRoom | src/consumers/state_gate/state_machine.py:33-60 | runs at every time up to a pending one are evaluated one by one without a halt, and leave it within the gap |
| EndToEnd.CompletingEvent | src/consumers/state_gate/processor.py:52-126 | a completing event of a new, later run is evaluated exactly once, with the decision its payload asks for, and leaves nothing pending |
| EndToEnd.RunCoupled | src/runtime/wiring.py:387-405 | over every interleaving the gate, started from any records older than the first tick, has evaluated exactly the ended runs and trails the publisher |
| EndToEnd.AllTicksAfter | src/orchestrator/scheduler.py:13-38 | every tick of a run lies after the records that are older than its first one |
| EndToEnd.AnswersFollow | src/consumers/analysis_engine/engine.py:65-241 | fresh evaluations without a halt are each answered once |
| EndToEnd.ExactlyOnce | src/runtime/wiring.py:144-298 | every run with a terminal event is evaluated exactly once in log order, none dropped as stale, and answered exactly once by the analysis engine, also by a gate that starts from older records |
| EndToEnd.DecisionsAreOwed | src/consumers/state_gate/evaluation.py:43-128 | over every interleaving the gate's decisions are, one by one and in order, those that the published events ask for, with the output or state that these carry: the failure, else the output in truth mode and the hysteresis state in hysteresis mode |
| EndToEnd.CodeSeesThePublished | src/consumers/analysis_engine/engine.py:328-343 | what an evaluation hands to the code of the modules is what was published for its run: symbol, time and mode, and the output, or in hysteresis mode the state, as they are |
| EndToEnd.DenylistNeverApplies | src/runtime/wiring.py:258-285 | in hysteresis mode the gate closes for a failed run or a transition only |
| EndToEnd.DenylistAppliesExactly | src/consumers/state_gate/evaluation.py:43-128 | the evaluation of a completed run names a denylisted invalidation if and only if the mode is truth and the output carries one, and in truth mode it closes for nothing else |
| Features.Vwap3m | src/composer/features/compute.py:71-90 | the volume-weighted average of the window |
| Features.VwapIsAnAverage | src/composer/features/compute.py:71-90 | it lies between any bounds on the prices that count |
| FeatureMeaning.TradesTell | src/composer/features/compute.py:29-48 | the window holds exactly the trades of the symbol between its ends, both included, as often as they occur |
| FeatureMeaning.VwapTells | src/composer/features/compute.py:71-90 | present exactly if a trade with a price and a positive quantity is in the window, and then the payments over the quantities |
| FeatureMeaning.SideTells | src/composer/features/compute.py:93-117 | the quantity of a side is the sum of its positive quantities |
| Features.Cvd3m | src/composer/features/compute.py:93-117 | buys less sells, present exactly if a sided trade with a quantity is |
| Features.AggressiveVolumeRatio3m | src/composer/features/compute.py:120-144 | the share of the buys |
| Features.FlowFeaturesAgree | src/composer/features/compute.py:93-144 | delta and ratio are present together, the ratio is a proportion, and the delta is the volume times twice the ratio less one |
| Features.EligibleCandles | src/composer/features/compute.py:147-172 | final three-minute candles up to the engine time, by time and then position |
| FeatureMeaning.CandlesTell | src/composer/features/compute.py:147-172 | the candles are exactly the final three-minute candles with all prices up to the engine time, in the order of time and position |
| Features.Atr14 | src/composer/features/compute.py:175-194 | true ranges and the mean of the last fourteen |
| Features.TrueRangesAreNotNegative | src/composer/features/compute.py:180-189 | every true range but the first is non-negative |
| Features.TrueRangeIs | src/composer/features/compute.py:180-189 | a true range is the largest of the distances between high and low and of both from the close before |
| Features.AtrZ50 | src/composer/features/compute.py:197-211 | the rolling averages, and when the z-score is present |
| FeatureMeaning.MeanTells | src/composer/features/compute.py:175-194 | the mean times the count is the sum, which grows by each number |
| FeatureMeaning.WindowTells | src/composer/features/compute.py:197-206 | the window of the score holds the last fifty averages of fourteen true ranges in a row, by index |
| FeatureMeaning.ScoreTells | src/composer/features/compute.py:206-211 | the score times the root is the deviation of the last average, where the root squared times the count is the sum of the squared deviations |
| Features.LastAverageIsAtr | src/composer/features/compute.py:200-206 | the last entry of the rolling series is atr_14 |
| Features.SumSquaredBound | src/composer/features/compute.py:207-208 | the Cauchy inequality for a sum, with its case of equality |
| Features.Samuelson | src/composer/features/compute.py:207-211 | the square of the last z-score of n values is at most n - 1, with equality exactly if the others are equal |
| Features.ZScoreBound | src/composer/features/compute.py:197-211 | the square of the z-score is at most 49, and 49 exactly if the other 49 averages are equal |
| Features.NoLookAhead | src/composer/features/compute.py:71-211 | trades and candles later than the engine time, or without a time, change none of their features |
| Features.OpenInterestLatest | src/composer/features/compute.py:214-239 | the last of the latest values, or the last without a time |
| Features.LatestInterestIs | src/composer/features/compute.py:214-239 | the fold takes exactly the event that the order by time and place singles out, or none where there is no open interest |
| Features.InterestLooksAheadExactly | src/composer/features/compute.py:214-239 | what is taken lies within the engine time exactly if every value with a time does; later and timeless events play no part exactly if none is later and a value without a time is not the only kind |
| Features.OpenInterestLooksAhead | src/composer/features/compute.py:214-239 | a concrete value of the future displaces the present one |
| Observers.AvailabilityConfidence | src/composer/engine_evidence/observers.py:36-48 | the share of required features present |
| Observers.ConfidenceTells | src/composer/engine_evidence/observers.py:36-48 | the confidence times the number asked for is the number of features that are there |
| Observers.FeatureValueIs | src/composer/contracts/feature_snapshot.py:32-50 | a feature is read under its own name, or else under the other name of the same feature, and under no other |
| Observers.SignsTell | src/composer/engine_evidence/observers.py:51-70 | the flow is the delta over a positive open interest, and the trend the side on which the price lies of its average |
| Observers.ConfidenceIsAShare | src/composer/engine_evidence/observers.py:36-48 | it lies in [0,1] and is 1 exactly if nothing is missing |
| Observers.PickByRegimeOrder | src/composer/engine_evidence/observers.py:73-81 | the highest score, first declared among equals: the same choice as the hysteresis rules make |
| Observers.LevelsTell | src/composer/engine_evidence/observers.py:96-112 | each level of volatility and flow is a clamped straight line between its two ends |
| Observers.ScoresTell | src/composer/engine_evidence/observers.py:113-130 | each of the nine scores as a product of two levels, in its direction |
| Observers.ScoresAreSymmetric | src/composer/engine_evidence/observers.py:96-132 | opposite flow and trend give each regime the score of its mirror image |
| Observers.ChopSharesTheLowFlow | src/composer/engine_evidence/observers.py:106-112 | the two kinds of chop share the weight of the low flow, divided by volatility |
| Observers.ClassicalNeverExhausted | src/composer/engine_evidence/observers.py:73-139 | the classical observer never decides for trend exhaustion |
| Observers.ClassicalSqueezesExactly | src/composer/engine_evidence/observers.py:73-139 | it decides for a squeeze exactly with a trend its way, a volatility score of 3 or more, and a flow between 1/150 and 1/20 |
| Observers.ClassicalEmit | src/composer/engine_evidence/observers.py:96-142 | one opinion within bounds, for the best of the nine scores, with the share of the features that are there as its confidence |
| Observers.FlowEmit | src/composer/engine_evidence/observers.py:148-173 | an opinion exactly if the flow is strong enough, with its regime, strength and bounds |
| Observers.VolatilityEmit | src/composer/engine_evidence/observers.py:179-207 | an opinion exactly outside the undecided band, with its regime, strength and bounds |
| Observers.ComputeEvidence | src/composer/engine_evidence/observers.py:210-223 | exactly the opinions of the three observers, in canonical order and within bounds, never none, and they survive embedding and extraction unchanged |
| Evidence.OrderIsCanonical | src/regime_engine/state/embedded_evidence.py:150-159 | the order depends on the opinions alone and is idempotent |
| Evidence.OrderTells | src/regime_engine/state/embedded_evidence.py:150-159 | regime texts rise, within a regime sources, within a source confidence falls, and at one confidence strength |
| Evidence.UniqueOrdered | src/regime_engine/state/embedded_evidence.py:173-181 | each item where it occurs first |
| Evidence.FirstOccurrencesAre | src/regime_engine/state/embedded_evidence.py:162-181 | the same items, none twice |
| Evidence.ParseOpinions | src/regime_engine/state/embedded_evidence.py:82-93 | the opinions and invalidations of a payload, in order |
| Evidence.ParseTells | src/regime_engine/state/embedded_evidence.py:96-128 | an opinion is read exactly from the texts of a known regime and a source and two numbers within bounds; what is wrong first gives the invalidation |
| Evidence.ParseSerialized | src/regime_engine/state/embedded_evidence.py:96-128 | a serialized opinion parses back exactly if it is within bounds |
| Evidence.ExtractEmbeddedEvidence | src/regime_engine/state/embedded_evidence.py:27-69 | the whole result, mismatches and invalidations included |
| Evidence.ExtractTells | src/regime_engine/state/embedded_evidence.py:27-69 | nothing exactly without an embedded mapping, and otherwise evidence of the snapshot's symbol and time; a mismatch of either leaves no opinion and is named |
| Evidence.EmbedTells | src/composer/engine_evidence/embedding.py:12-70 | embedding changes nothing but one entry of the structure levels |
| Evidence.EmbedThenExtract | src/composer/engine_evidence/embedding.py:12-70 | embedded evidence is read back ordered, without invalidations exactly if all opinions are within bounds; nothing is read back when there were none, except from a mapping that embedding does not edit |
| BeliefUpdate.SelectedIsStrongest | src/regime_engine/state/update.py:39-48 | no opinion is stronger than the selected one, none as strong more confident, and none as strong and confident has a regime declared earlier |
| BeliefUpdate.UpdateTells | src/regime_engine/state/update.py:51-92 | an update by its fields: refused exactly for another symbol, the time of the evidence, and all belief on the regime of an opinion that no other precedes |
| BeliefUpdate.InitialTells | src/regime_engine/state/update.py:24-36 | a first state names its symbol and time, and believes in each regime alike |
| BeliefUpdate.SelectionIgnoresOrder | src/regime_engine/state/update.py:39-48 | its regime, strength and confidence do not depend on the order of opinions |
| BeliefUpdate.BeliefsStaySound | src/regime_engine/state/update.py:24-92 | beliefs are a distribution that contains the anchor, from the first state on |
| BeliefUpdate.ProjectionIsTop | src/regime_engine/state/update.py:95-100 | the projection is the top regime of the hysteresis rules, whatever order the map lists |
| BeliefUpdate.SelectedIsProjected | src/regime_engine/state/update.py:51-100 | an update projects back to the selected regime, for every permutation of the opinions |
| BeliefUpdate.OpinionsReachTheAnchor | src/regime_engine/hysteresis/rules.py:123-155 | a window of updates whose preferred opinion is one regime makes it the settled anchor |
| Metrics.RegimeRuns | src/regime_engine/evaluation/metrics.py:51-88 | the loop builds the specified runs |
| Metrics.RunsSpellTheLog | src/regime_engine/evaluation/metrics.py:51-88 | runs expand back to the log, neighbours differ and touch, and span it from first to last timestamp |
| Metrics.RunsCoverTheLog | src/regime_engine/evaluation/metrics.py:51-88 | each run covers a stretch of records by index and field: they show its regime, it starts with the first of them and ends with the record after them, and together the runs cover the log |
| Metrics.DurationsAddUp | src/regime_engine/evaluation/metrics.py:64-87 | durations telescope to last less first timestamp |
| Metrics.RegimePersistence | src/regime_engine/evaluation/metrics.py:32-48 | the loop collects the counts of the runs by regime |
| Metrics.CountsAreOccurrences | src/regime_engine/evaluation/metrics.py:32-48 | a regime's counts are its runs' in order and add up to its occurrences |
| Metrics.CountFlips | src/regime_engine/evaluation/metrics.py:91-120 | flips, updates and both rates |
| Metrics.FlipsAreRunsLessOne | src/regime_engine/evaluation/metrics.py:91-120 | one flip less than runs |
| Metrics.TimeInRegime | src/regime_engine/evaluation/metrics.py:123-131 | the loop over neighbouring records |
| Metrics.TimeIsRunDurations | src/regime_engine/evaluation/metrics.py:123-131 | time in a regime is the sum of its runs' durations; listed exactly if it occurs before the last record |
| SnapshotCodec.EncodeObject | src/regime_engine/snapshot_builder/serialize.py:23-49 | the recursion with its filling loops equals the specified encoding, key errors included |
| SnapshotCodec.EncodeDict | src/regime_engine/snapshot_builder/serialize.py:36-44 | a dictionary is filled entry by entry; an error exactly for a key that is no text or a value that does not encode |
| SnapshotCodec.ValueRoundTrip | src/regime_engine/snapshot_builder/serialize.py:23-62 | a value survives encoding and decoding exactly if it is plain |
| SnapshotCodec.DecodedIsPlain | src/regime_engine/snapshot_builder/serialize.py:52-62 | decoding yields only values that survive |
| SnapshotCodec.NormalForm | src/regime_engine/snapshot_builder/serialize.py:23-62 | encoding after decoding gives one form for exactly the JSON values that decode alike, and is idempotent |
| SnapshotCodec.NormalExactly | src/regime_engine/snapshot_builder/serialize.py:23-62 | a JSON value is its own form exactly if its markers are those that encoding writes |
| SnapshotCodec.SnapshotRoundTrip | src/regime_engine/snapshot_builder/serialize.py:65-91 | a snapshot reads back as itself exactly if none of its values holds a tuple, enumeration, record, non-text key or marker-only dictionary |
| SnapshotMeaning.EncodeTells | src/regime_engine/snapshot_builder/serialize.py:23-49 | encoding succeeds exactly with the JSON that shows the value: the marker for missing, the value of an enumeration, and fields and items one by one |
| SnapshotMeaning.DecodeTells | src/regime_engine/snapshot_builder/serialize.py:52-62 | what is decoded stands for the JSON, part by part, with missing for an object whose only key is the marker |
| SnapshotMeaning.WriteTells | src/regime_engine/snapshot_builder/serialize.py:65-69 | a snapshot is written exactly as six entries that show its symbol, time and parts |
| SnapshotMeaning.ReadTells | src/regime_engine/snapshot_builder/serialize.py:72-91 | any JSON object: read exactly if it has a symbol, a time and four objects with the fields of the parts, with which error otherwise, and the values that are read |
| SnapshotMeaning.ReadCanBeWritten | src/regime_engine/snapshot_builder/serialize.py:65-91 | what was read can be written, and reads back as it was |

## Left out

- Binance adapters, polling, payload decoders, threads, sleeping and back-off: input and output. Arrivals and clock
  readings are arguments, and the lengths of sleeps play no part.
- Atomicity: an append to the buffer, to the hysteresis log or to the gate's store is one step that succeeds or fails as
  a whole; two source threads inside one buffer append at the same moment are not modelled. JSON text, flushing and
  file syncing are not modelled either: a log is a sequence of lines.
- SHA-256 and the text of a run id: a run id is any function of symbol, time, cut end and mode, injective in symbol and
  time where a theorem says so.
- Floating point: beliefs, features, scores and rates are exact reals, so rounding, NaN and the tolerance of the belief
  assertions are not modelled. The square root is any positive number whose square is the variance.
- Composer and module code: a composer that may fail and modules that may raise are arbitrary functions; a module that
  keeps its own state between calls is not covered.
- Event envelopes: schema names and versions, publishing times and completion times, which no modelled decision reads.
- Observability, health flags, dashboards, lifecycle and retry: presentation and logging.
- Validation of configurations: valid configurations are preconditions (`ValidScheduler`, `Sensible`), and duplicate or
  unknown ids in the analysis configuration are not modelled beyond planning.
- Scoring stubs, veto rules, confidence, pillars, drivers and permissions: constant results and small lookups.
- Aliasing: an event or a payload that is shared and then changed by a consumer is not modelled; all values are immutable.
- `price_last` and the distributions by forward values: plain selections that would only add easy members.
- Features.AtrZ50: takes the square root as an argument, because reals here have no square root function.
- EndToEnd.ExactlyOnce: takes a gate whose appends succeed and whose records are older than the first tick, with run ids
  that stand for their own times; failing appends are the subject of the gate's own theorems.
- GateRestart.RestartEquivalence: asks that a run id determines symbol and time, as run ids do. Where publishing has room
  for exactly one event, its exact condition also asks for a run id for every symbol and time, and for a log of such runs.
- LiveRuns.NeverCrashes: exceptions that bus handlers raise inside a publication are not modelled.
- HysteresisRestart.CrashRestart: asks that the lines a run writes can be read back, which is the exact condition
  (HysteresisRestart.RecoversExactly).
