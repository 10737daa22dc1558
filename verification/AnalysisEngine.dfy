/** The analysis engine: consumes gate events, and executes the plan of a symbol when its gate is open. */
module AnalysisEngine {
  import opened Ordering
  import opened Regimes
  import opened HysteresisRules
  import opened OrchestratorContracts
  import opened GateAssembly
  import opened Registry
  import opened Planning

  // ----- Contracts -----

  datatype ArtifactKind = SignalArtifact | DetectionArtifact | EvaluationArtifact | OutputArtifact

  function ExpectedKind(stage: Kind): ArtifactKind {
    match stage
    case Signal => SignalArtifact
    case Detector => DetectionArtifact
    case Rule => EvaluationArtifact
    case Output => OutputArtifact
  }

  datatype Artifact = Artifact(
    kind: ArtifactKind,
    moduleId: string,
    name: string,
    schema: string,
    schemaVersion: string,
    content: string)

  datatype ModuleResult = ModuleResult(artifacts: seq<Artifact>, statePayload: Option<string>)

  datatype ModuleStateRecord = ModuleStateRecord(
    symbol: string,
    moduleId: string,
    runId: string,
    timestamp: int,
    schemaId: string,
    schemaVersion: string,
    payload: string)

  datatype RunContext = RunContext(
    symbol: string,
    runId: string,
    timestamp: int,
    mode: Option<EngineMode>,
    gate: GateStatus,
    reasons: seq<string>,
    output: Option<RegimeOutput>,
    hysteresis: Option<HysteresisState>)

  /** What a module's code returns for a context, the payloads of its dependencies and its last state, or the
      text of the exception it raises. */
  type Code = (string, RunContext, map<string, Artifact>, Option<string>) -> Result<ModuleResult, string>

  datatype AnalysisEventType =
    | AnalysisRunStarted | AnalysisRunSkipped | ArtifactEmitted | ModuleFailed
    | AnalysisRunCompleted | AnalysisRunFailed

  datatype RunStatus = Success | Partial | RunFailure

  datatype AnalysisPayload =
    | NoAnalysisPayload
    | Emitted(artifact: Artifact)
    | Failure(moduleId: string, kind: Kind, errorKind: string, errorDetail: string)
    | Status(status: RunStatus, failures: seq<string>)

  datatype AnalysisEvent = AnalysisEvent(
    eventType: AnalysisEventType,
    symbol: string,
    runId: string,
    timestamp: int,
    payload: AnalysisPayload,
    mode: Option<EngineMode>,
    reasons: seq<string>)

  const MISSING_DEPENDENCY := "missing_dependency"
  const EXCEPTION := "exception"

  function AnalysisEventOf(eventType: AnalysisEventType, event: GateEvent, payload: AnalysisPayload): AnalysisEvent {
    AnalysisEvent(eventType, event.symbol, event.runId, event.timestamp, payload, event.mode, event.reasons)
  }

  function ContextOf(event: GateEvent): RunContext {
    RunContext(event.symbol, event.runId, event.timestamp, event.mode, event.gate, event.reasons,
               if event.payload.EvaluatedPayload? then event.payload.output else None,
               if event.payload.EvaluatedPayload? then event.payload.hysteresis else None)
  }

  // ----- Artifacts of one run -----

  type Artifacts = map<(string, string), Artifact>

  predicate DependenciesAvailable(artifacts: Artifacts, dependencies: seq<Dependency>) {
    forall d :: d in dependencies ==> (d.moduleId, d.artifactName) in artifacts
  }

  function PayloadKey(d: Dependency): string {
    d.moduleId + ":" + d.artifactName
  }

  /** A later dependency with the same text key replaces an earlier one. */
  function DependencyPayloads(artifacts: Artifacts, dependencies: seq<Dependency>): map<string, Artifact> {
    if |dependencies| == 0 then map[]
    else
      var last := dependencies[|dependencies| - 1];
      var before := DependencyPayloads(artifacts, dependencies[..|dependencies| - 1]);
      var key := (last.moduleId, last.artifactName);
      if key in artifacts then before[PayloadKey(last) := artifacts[key]] else before
  }

  function AddAll(artifacts: Artifacts, more: seq<Artifact>): Artifacts {
    if |more| == 0 then artifacts
    else
      var last := more[|more| - 1];
      AddAll(artifacts, more[..|more| - 1])[(last.moduleId, last.name) := last]
  }

  class ArtifactStore {
    var artifacts: Artifacts

    constructor ()
      ensures artifacts == map[]
    {
      artifacts := map[];
    }

    method Add(artifact: Artifact)
      modifies this
      ensures artifacts == old(artifacts)[(artifact.moduleId, artifact.name) := artifact]
    {
      artifacts := artifacts[(artifact.moduleId, artifact.name) := artifact];
    }

    method DependencyPayloadsOf(dependencies: seq<Dependency>) returns (available: map<string, Artifact>)
      ensures available == DependencyPayloads(artifacts, dependencies)
    {
      available := map[];
      var i := 0;
      while i < |dependencies|
        invariant i <= |dependencies|
        invariant available == DependencyPayloads(artifacts, dependencies[..i])
      {
        assert dependencies[..i + 1][..i] == dependencies[..i];
        var key := (dependencies[i].moduleId, dependencies[i].artifactName);
        if key in artifacts {
          available := available[PayloadKey(dependencies[i]) := artifacts[key]];
        }
        i := i + 1;
      }
      assert dependencies[..i] == dependencies;
    }
  }

  // ----- Module states -----

  function LatestState(records: seq<ModuleStateRecord>, symbol: string, moduleId: string): Option<ModuleStateRecord> {
    if |records| == 0 then None
    else
      var last := records[|records| - 1];
      if last.symbol == symbol && last.moduleId == moduleId then Some(last)
      else LatestState(records[..|records| - 1], symbol, moduleId)
  }

  function LatestPayload(records: seq<ModuleStateRecord>, symbol: string, moduleId: string): Option<string> {
    match LatestState(records, symbol, moduleId)
    case None => None
    case Some(record) => Some(record.payload)
  }

  class ModuleStateStore {
    var records: seq<ModuleStateRecord>

    constructor (records: seq<ModuleStateRecord>)
      ensures this.records == records
    {
      this.records := records;
    }

    method Append(record: ModuleStateRecord)
      modifies this
      ensures records == old(records) + [record]
    {
      records := records + [record];
    }

    /** The last of the records that match. */
    method LatestBySymbolAndModule(symbol: string, moduleId: string) returns (latest: Option<ModuleStateRecord>)
      ensures latest == LatestState(records, symbol, moduleId)
    {
      latest := None;
      var i := 0;
      while i < |records|
        invariant i <= |records|
        invariant latest == LatestState(records[..i], symbol, moduleId)
      {
        assert records[..i + 1][..i] == records[..i];
        if records[i].symbol == symbol && records[i].moduleId == moduleId {
          latest := Some(records[i]);
        }
        i := i + 1;
      }
      assert records[..i] == records;
    }
  }

  class IdempotencyStore {
    var processedRunIds: set<string>

    constructor (processedRunIds: set<string>)
      ensures this.processedRunIds == processedRunIds
    {
      this.processedRunIds := processedRunIds;
    }

    predicate HasProcessed(runId: string)
      reads this
    {
      runId in processedRunIds
    }

    method MarkProcessed(runId: string)
      modifies this
      ensures processedRunIds == old(processedRunIds) + {runId}
    {
      processedRunIds := processedRunIds + {runId};
    }
  }

  // ----- Executing one module -----

  predicate ByName(a: Artifact, b: Artifact) {
    StringLe(a.name, b.name)
  }

  /** `sorted(artifacts, key=name)`. */
  function Ordered(artifacts: seq<Artifact>): seq<Artifact> {
    Sort(ByName, artifacts)
  }

  /** How the turn of a planned module ends. */
  datatype Verdict = Missing | Raised(detail: string) | Succeeded(result: ModuleResult)

  function KindValue(kind: ArtifactKind): string {
    match kind
    case SignalArtifact => "signal"
    case DetectionArtifact => "detection"
    case EvaluationArtifact => "evaluation"
    case OutputArtifact => "output"
  }

  function FirstOfWrongKind(artifacts: seq<Artifact>, stage: Kind): Option<Artifact> {
    if |artifacts| == 0 then None
    else if artifacts[0].kind != ExpectedKind(stage) then Some(artifacts[0])
    else FirstOfWrongKind(artifacts[1..], stage)
  }

  /** The text of the exception for an artifact of the wrong kind, if there is one. */
  function InvalidKind(moduleId: string, artifacts: seq<Artifact>, stage: Kind): Option<string> {
    match FirstOfWrongKind(artifacts, stage)
    case None => None
    case Some(a) =>
      Some("invalid artifact kind for " + moduleId + ": " + KindValue(a.kind) +
           " (expected ('" + KindValue(ExpectedKind(stage)) + "',))")
  }

  method ValidateArtifacts(stage: Kind, artifacts: seq<Artifact>, moduleId: string) returns (error: Option<string>)
    ensures error == InvalidKind(moduleId, artifacts, stage)
    ensures error.None? <==> forall a :: a in artifacts ==> a.kind == ExpectedKind(stage)
  {
    var i := 0;
    while i < |artifacts|
      invariant i <= |artifacts|
      invariant FirstOfWrongKind(artifacts, stage) == FirstOfWrongKind(artifacts[i..], stage)
      invariant forall k :: 0 <= k < i ==> artifacts[k].kind == ExpectedKind(stage)
    {
      if artifacts[i].kind != ExpectedKind(stage) {
        return InvalidKind(moduleId, artifacts, stage);
      }
      assert artifacts[i..][1..] == artifacts[i + 1..];
      i := i + 1;
    }
    return None;
  }

  function VerdictOf(code: Code, d: Definition, stage: Kind, context: RunContext, artifacts: Artifacts,
                     states: seq<ModuleStateRecord>): Verdict
  {
    if !DependenciesAvailable(artifacts, d.dependencies) then Missing
    else
      match code(d.moduleId, context, DependencyPayloads(artifacts, d.dependencies),
                 LatestPayload(states, context.symbol, d.moduleId))
      case Err(detail) => Raised(detail)
      case Ok(result) =>
        match InvalidKind(d.moduleId, result.artifacts, stage)
        case Some(detail) => Raised(detail)
        case None => Succeeded(result)
  }

  /** What the run of a plan has built up so far. */
  datatype Progress = Progress(
    artifacts: Artifacts,
    failures: seq<string>,
    events: seq<AnalysisEvent>,
    states: seq<ModuleStateRecord>)

  function FailureEvent(event: GateEvent, d: Definition, errorKind: string, detail: string): AnalysisEvent {
    AnalysisEventOf(ModuleFailed, event, Failure(d.moduleId, d.kind, errorKind, detail))
  }

  function EmittedEvents(event: GateEvent, artifacts: seq<Artifact>): seq<AnalysisEvent> {
    seq(|artifacts|, i requires 0 <= i < |artifacts| => AnalysisEventOf(ArtifactEmitted, event, Emitted(artifacts[i])))
  }

  /** A state is kept only of a module that declares a state schema and returns a state. */
  function NewStates(event: GateEvent, d: Definition, result: ModuleResult): seq<ModuleStateRecord> {
    if d.stateSchemaId.Some? && result.statePayload.Some?
    then [ModuleStateRecord(event.symbol, d.moduleId, event.runId, event.timestamp, d.stateSchemaId.value,
                            if d.stateSchemaVersion.Some? then d.stateSchemaVersion.value else "",
                            result.statePayload.value)]
    else []
  }

  function Taken(p: Progress, event: GateEvent, d: Definition, verdict: Verdict): Progress {
    match verdict
    case Missing =>
      p.(failures := p.failures + [d.moduleId],
         events := p.events + [FailureEvent(event, d, MISSING_DEPENDENCY, "dependency not available")])
    case Raised(detail) =>
      p.(failures := p.failures + [d.moduleId], events := p.events + [FailureEvent(event, d, EXCEPTION, detail)])
    case Succeeded(result) =>
      p.(artifacts := AddAll(p.artifacts, Ordered(result.artifacts)),
         events := p.events + EmittedEvents(event, Ordered(result.artifacts)),
         states := p.states + NewStates(event, d, result))
  }

  // ----- Executing a plan -----

  /** A module's place in a plan. */
  datatype Slot = Slot(stage: Kind, id: string)

  function StageSlots(plan: ExecutionPlan, stage: Kind): seq<Slot> {
    if stage !in plan then []
    else seq(|plan[stage]|, i requires 0 <= i < |plan[stage]| => Slot(stage, plan[stage][i].moduleId))
  }

  function SlotsOfStages(plan: ExecutionPlan, n: nat): seq<Slot>
    requires n <= |STAGE_ORDER|
  {
    if n == 0 then [] else SlotsOfStages(plan, n - 1) + StageSlots(plan, STAGE_ORDER[n - 1])
  }

  function Slots(plan: ExecutionPlan): seq<Slot> {
    SlotsOfStages(plan, |STAGE_ORDER|)
  }

  ghost predicate Known(modules: Modules, slots: seq<Slot>) {
    forall i :: 0 <= i < |slots| ==> slots[i].id in modules
  }

  datatype Setup = Setup(modules: Modules, plans: map<string, ExecutionPlan>, code: Code)

  function Begin(event: GateEvent, states: seq<ModuleStateRecord>): Progress {
    Progress(map[], [], [AnalysisEventOf(AnalysisRunStarted, event, NoAnalysisPayload)], states)
  }

  /** The verdict of the i-th module of the plan. */
  function VerdictAt(setup: Setup, event: GateEvent, slots: seq<Slot>, i: nat, states: seq<ModuleStateRecord>): Verdict
    requires Known(setup.modules, slots) && i < |slots|
    decreases i, 1
  {
    var p := ProgressAt(setup, event, slots, i, states);
    VerdictOf(setup.code, setup.modules[slots[i].id], slots[i].stage, ContextOf(event), p.artifacts, p.states)
  }

  /** The progress before the i-th module. */
  function ProgressAt(setup: Setup, event: GateEvent, slots: seq<Slot>, i: nat,
                      states: seq<ModuleStateRecord>): Progress
    requires Known(setup.modules, slots) && i <= |slots|
    decreases i, 0
  {
    if i == 0 then Begin(event, states)
    else
      Taken(ProgressAt(setup, event, slots, i - 1, states), event, setup.modules[slots[i - 1].id],
            VerdictAt(setup, event, slots, i - 1, states))
  }

  /** The progress after the whole plan. */
  function Executed(setup: Setup, event: GateEvent, slots: seq<Slot>, states: seq<ModuleStateRecord>): Progress
    requires Known(setup.modules, slots)
  {
    ProgressAt(setup, event, slots, |slots|, states)
  }

  function CompletedEvent(event: GateEvent, p: Progress): AnalysisEvent {
    AnalysisEventOf(AnalysisRunCompleted, event,
                    Status(if p.failures == [] then Success else Partial, Sort(StringLe, p.failures)))
  }

  function FailedEvent(event: GateEvent): AnalysisEvent {
    AnalysisEventOf(AnalysisRunFailed, event, Status(RunFailure, []))
  }

  function SkippedEvent(event: GateEvent): AnalysisEvent {
    AnalysisEventOf(AnalysisRunSkipped, event, NoAnalysisPayload)
  }

  // ----- Consuming gate events -----

  const DEFAULT_PLAN := "__default__"

  function PlanFor(plans: map<string, ExecutionPlan>, symbol: string): Option<ExecutionPlan> {
    if symbol in plans then Some(plans[symbol])
    else if DEFAULT_PLAN in plans then Some(plans[DEFAULT_PLAN])
    else None
  }

  /** Every planned module is registered. */
  ghost predicate Runnable(setup: Setup) {
    forall symbol :: symbol in setup.plans ==> Known(setup.modules, Slots(setup.plans[symbol]))
  }

  datatype EngineState = EngineState(processed: set<string>, states: seq<ModuleStateRecord>, halted: set<string>)

  function Consumed(setup: Setup, s: EngineState, event: GateEvent): (EngineState, seq<AnalysisEvent>)
    requires Runnable(setup)
  {
    if event.symbol in s.halted then (s, [])
    else if event.eventType == StateGateHalted then (s.(halted := s.halted + {event.symbol}), [FailedEvent(event)])
    else if event.eventType != GateEvaluated || event.runId in s.processed then (s, [])
    else
      var marked := s.(processed := s.processed + {event.runId});
      if event.gate != Open then (marked, [SkippedEvent(event)])
      else
        match PlanFor(setup.plans, event.symbol)
        case None => (marked, [FailedEvent(event)])
        case Some(plan) =>
          var p := Executed(setup, event, Slots(plan), s.states);
          (marked.(states := p.states), p.events + [CompletedEvent(event, p)])
  }

  class Engine {
    const setup: Setup
    const idempotency: IdempotencyStore
    const moduleStates: ModuleStateStore
    var halted: set<string>

    constructor (setup: Setup, idempotency: IdempotencyStore, moduleStates: ModuleStateStore)
      ensures this.setup == setup && this.idempotency == idempotency && this.moduleStates == moduleStates
              && halted == {}
    {
      this.setup, this.idempotency, this.moduleStates, halted := setup, idempotency, moduleStates, {};
    }

    function State(): EngineState
      reads this, idempotency, moduleStates
    {
      EngineState(idempotency.processedRunIds, moduleStates.records, halted)
    }

    method Consume(event: GateEvent) returns (events: seq<AnalysisEvent>)
      requires Runnable(setup)
      modifies this, idempotency, moduleStates
      ensures (State(), events) == Consumed(setup, old(State()), event)
    {
      hide Executed, Slots;
      if event.symbol in halted {
        return [];
      }
      if event.eventType == StateGateHalted {
        halted := halted + {event.symbol};
        return [FailedEvent(event)];
      }
      if event.eventType != GateEvaluated {
        return [];
      }
      if idempotency.HasProcessed(event.runId) {
        return [];
      }
      idempotency.MarkProcessed(event.runId);
      if event.gate != Open {
        return [SkippedEvent(event)];
      }
      var plan := PlanFor(setup.plans, event.symbol);
      if plan.None? {
        return [FailedEvent(event)];
      }
      var failures: seq<string>;
      events, failures := Execute(event, plan.value);
      ghost var p := Executed(setup, event, Slots(plan.value), old(moduleStates.records));
      assert failures == p.failures;
      var status := if failures == [] then Success else Partial;
      events := events + [AnalysisEventOf(AnalysisRunCompleted, event, Status(status, Sort(StringLe, failures)))];
    }

    /** The stages in their order, and in each the modules in the order of the plan. */
    method Execute(event: GateEvent, plan: ExecutionPlan) returns (events: seq<AnalysisEvent>, failures: seq<string>)
      requires Known(setup.modules, Slots(plan))
      modifies moduleStates
      ensures var p := Executed(setup, event, Slots(plan), old(moduleStates.records));
              events == p.events && failures == p.failures && moduleStates.records == p.states
    {
      hide *;
      var store := new ArtifactStore();
      events, failures := [AnalysisEventOf(AnalysisRunStarted, event, NoAnalysisPayload)], [];
      ghost var slots, states := Slots(plan), moduleStates.records;
      ProgressStart(setup, event, slots, states);
      AllSlots(plan);
      ghost var done := 0;
      for n := 0 to |STAGE_ORDER|
        invariant fresh(store)
        invariant done == |SlotsOfStages(plan, n)| <= |slots|
        invariant ProgressAt(setup, event, slots, done, states)
                  == Progress(store.artifacts, failures, events, moduleStates.records)
      {
        var stage := STAGE_ORDER[n];
        var steps := if stage in plan then plan[stage] else [];
        var i := 0;
        StageFits(plan, n);
        while i < |steps|
          invariant i <= |steps| && fresh(store)
          invariant done == |SlotsOfStages(plan, n)| + i
          invariant ProgressAt(setup, event, slots, done, states)
                    == Progress(store.artifacts, failures, events, moduleStates.records)
        {
          StageSlotAt(plan, n, i);
          KnownAt(setup.modules, slots, done);
          ProgressNext(setup, event, slots, done, states);
          events, failures := ExecuteModule(event, stage, setup.modules[steps[i].moduleId], store, events, failures);
          i := i + 1;
          done := done + 1;
        }
      }
    }

    /** One module: its dependencies, its code, its artifacts in the order of their names, and its state. */
    method ExecuteModule(event: GateEvent, stage: Kind, d: Definition, store: ArtifactStore,
                         events: seq<AnalysisEvent>, failures: seq<string>)
      returns (events': seq<AnalysisEvent>, failures': seq<string>)
      modifies moduleStates, store
      ensures var p := Progress(old(store.artifacts), failures, events, old(moduleStates.records));
              var verdict := VerdictOf(setup.code, d, stage, ContextOf(event), p.artifacts, p.states);
              Progress(store.artifacts, failures', events', moduleStates.records) == Taken(p, event, d, verdict)
    {
      events', failures' := events, failures;
      if !DependenciesAvailable(store.artifacts, d.dependencies) {
        return events + [FailureEvent(event, d, MISSING_DEPENDENCY, "dependency not available")],
               failures + [d.moduleId];
      }
      var payloads := store.DependencyPayloadsOf(d.dependencies);
      var latest := moduleStates.LatestBySymbolAndModule(event.symbol, d.moduleId);
      var result := setup.code(d.moduleId, ContextOf(event), payloads,
                               if latest.Some? then Some(latest.value.payload) else None);
      if result.Err? {
        return events + [FailureEvent(event, d, EXCEPTION, result.error)], failures + [d.moduleId];
      }
      var invalid := ValidateArtifacts(stage, result.value.artifacts, d.moduleId);
      if invalid.Some? {
        return events + [FailureEvent(event, d, EXCEPTION, invalid.value)], failures + [d.moduleId];
      }
      var ordered := Ordered(result.value.artifacts);
      var emitted := Emit(event, store, ordered);
      events' := events + emitted;
      if d.stateSchemaId.Some? && result.value.statePayload.Some? {
        var version := if d.stateSchemaVersion.Some? then d.stateSchemaVersion.value else "";
        moduleStates.Append(ModuleStateRecord(event.symbol, d.moduleId, event.runId, event.timestamp,
                                              d.stateSchemaId.value, version, result.value.statePayload.value));
      }
    }

    method Emit(event: GateEvent, store: ArtifactStore, artifacts: seq<Artifact>) returns (emitted: seq<AnalysisEvent>)
      modifies store
      ensures store.artifacts == AddAll(old(store.artifacts), artifacts)
      ensures emitted == EmittedEvents(event, artifacts)
    {
      emitted := [];
      var i := 0;
      while i < |artifacts|
        invariant i <= |artifacts|
        invariant store.artifacts == AddAll(old(store.artifacts), artifacts[..i])
        invariant emitted == EmittedEvents(event, artifacts[..i])
      {
        assert artifacts[..i + 1][..i] == artifacts[..i];
        store.Add(artifacts[i]);
        emitted := emitted + [AnalysisEventOf(ArtifactEmitted, event, Emitted(artifacts[i]))];
        i := i + 1;
      }
      assert artifacts[..i] == artifacts;
    }
  }

  lemma KnownAt(modules: Modules, slots: seq<Slot>, i: nat)
    requires Known(modules, slots) && i < |slots|
    ensures slots[i].id in modules
  {
  }

  lemma ProgressStart(setup: Setup, event: GateEvent, slots: seq<Slot>, states: seq<ModuleStateRecord>)
    requires Known(setup.modules, slots)
    ensures ProgressAt(setup, event, slots, 0, states)
         == Progress(map[], [], [AnalysisEventOf(AnalysisRunStarted, event, NoAnalysisPayload)], states)
    ensures Executed(setup, event, slots, states) == ProgressAt(setup, event, slots, |slots|, states)
  {
  }

  lemma ProgressNext(setup: Setup, event: GateEvent, slots: seq<Slot>, i: nat, states: seq<ModuleStateRecord>)
    requires Known(setup.modules, slots) && i < |slots|
    ensures var p := ProgressAt(setup, event, slots, i, states);
            var d := setup.modules[slots[i].id];
            ProgressAt(setup, event, slots, i + 1, states)
            == Taken(p, event, d, VerdictOf(setup.code, d, slots[i].stage, ContextOf(event), p.artifacts, p.states))
  {
  }

  lemma {:induction false} SlotsPrefix(plan: ExecutionPlan, n: nat, m: nat)
    requires n <= m <= |STAGE_ORDER|
    ensures SlotsOfStages(plan, n) <= SlotsOfStages(plan, m)
  {
    if n < m { SlotsPrefix(plan, n, m - 1); }
  }

  lemma StageFits(plan: ExecutionPlan, n: nat)
    requires n < |STAGE_ORDER|
    ensures |SlotsOfStages(plan, n + 1)|
            == |SlotsOfStages(plan, n)| + (if STAGE_ORDER[n] in plan then |plan[STAGE_ORDER[n]]| else 0)
    ensures |SlotsOfStages(plan, n + 1)| <= |Slots(plan)|
  {
    SlotsPrefix(plan, n + 1, |STAGE_ORDER|);
  }

  lemma StageSlotAt(plan: ExecutionPlan, n: nat, i: nat)
    requires n < |STAGE_ORDER| && STAGE_ORDER[n] in plan && i < |plan[STAGE_ORDER[n]]|
    ensures |SlotsOfStages(plan, n)| + i < |Slots(plan)|
    ensures Slots(plan)[|SlotsOfStages(plan, n)| + i] == Slot(STAGE_ORDER[n], plan[STAGE_ORDER[n]][i].moduleId)
  {
    SlotsPrefix(plan, n + 1, |STAGE_ORDER|);
    var k := |SlotsOfStages(plan, n)| + i;
    assert SlotsOfStages(plan, n + 1)[k] == Slot(STAGE_ORDER[n], plan[STAGE_ORDER[n]][i].moduleId);
  }

  lemma AllSlots(plan: ExecutionPlan)
    ensures SlotsOfStages(plan, 0) == []
    ensures SlotsOfStages(plan, |STAGE_ORDER|) == Slots(plan)
  {
  }
}
