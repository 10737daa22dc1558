/** What the analysis engine answers to a gate event, told by the fields of the answers, and the state that a module is
    handed over a whole history. */
module AnalysisAnswers {
  import opened Ordering
  import opened GateAssembly
  import opened Registry
  import opened AnalysisEngine
  import opened AnalysisRuns
  import opened AnalysisHistory
  import opened AnalysisCalls

  // ----- One module's events -----

  predicate IsAbout(a: AnalysisEvent, event: GateEvent) {
    && a.symbol == event.symbol && a.runId == event.runId && a.timestamp == event.timestamp
    && a.mode == event.mode && a.reasons == event.reasons
  }

  predicate IsFailureOf(a: AnalysisEvent, x: Execution, i: nat, errorKind: string, detail: string)
    requires Valid(x) && i < |x.slots|
  {
    && IsAbout(a, x.event) && a.eventType == ModuleFailed && a.payload.Failure?
    && a.payload.moduleId == x.slots[i].id && a.payload.kind == DefinitionAt(x, i).kind
    && a.payload.errorKind == errorKind && a.payload.errorDetail == detail
  }

  predicate IsEmission(a: AnalysisEvent, event: GateEvent, artifact: Artifact) {
    IsAbout(a, event) && a.eventType == ArtifactEmitted && a.payload.Emitted? && a.payload.artifact == artifact
  }

  function Named(artifacts: seq<Artifact>, name: string): seq<Artifact> {
    Filter((a: Artifact) => a.name == name, artifacts)
  }

  /** The artifacts in the order of their names; those of one name in the order returned. */
  ghost predicate ByNames(ordered: seq<Artifact>, artifacts: seq<Artifact>) {
    && multiset(ordered) == multiset(artifacts)
    && (forall j, k :: 0 <= j < k < |ordered| ==> StringLe(ordered[j].name, ordered[k].name))
    && forall name :: Named(ordered, name) == Named(artifacts, name)
  }

  /** The events of one module. */
  ghost predicate BlockTells(x: Execution, i: nat, block: seq<AnalysisEvent>)
    requires Valid(x) && i < |x.slots|
  {
    match Outcome(x, i)
    case Missing => |block| == 1 && IsFailureOf(block[0], x, i, "missing_dependency", "dependency not available")
    case Raised(detail) => |block| == 1 && IsFailureOf(block[0], x, i, "exception", detail)
    case Succeeded(result) =>
      exists ordered: seq<Artifact> ::
        && ByNames(ordered, result.artifacts) && |block| == |ordered|
        && forall k :: 0 <= k < |block| ==> IsEmission(block[k], x.event, ordered[k])
  }

  lemma BlocksTell(x: Execution, i: nat)
    requires Valid(x) && i < |x.slots|
    ensures BlockTells(x, i, Block(x, i))
  {
    hide Ordered, VerdictOf, ProgressAt, Filter;
    AtStep(x, i);
    if Outcome(x, i).Succeeded? {
      var artifacts := Outcome(x, i).result.artifacts;
      OrderedByNames(artifacts);
      assert forall k :: 0 <= k < |Block(x, i)| ==> IsEmission(Block(x, i)[k], x.event, Ordered(artifacts)[k]);
    }
  }

  lemma OrderedByNames(artifacts: seq<Artifact>)
    ensures ByNames(Ordered(artifacts), artifacts)
  {
    hide Ordered, Filter;
    ArtifactsByName(artifacts, "");
    forall j, k | 0 <= j < k < |Ordered(artifacts)|
      ensures StringLe(Ordered(artifacts)[j].name, Ordered(artifacts)[k].name)
    {
      assert ByName(Ordered(artifacts)[j], Ordered(artifacts)[k]);
    }
    forall name ensures Named(Ordered(artifacts), name) == Named(artifacts, name) {
      ArtifactsByName(artifacts, name);
    }
  }

  // ----- The whole answer -----

  /** The execution that a gate event starts: of the plan of its symbol, or else of the default plan. */
  function ExecutionOf(setup: Setup, s: EngineState, event: GateEvent): Option<Execution>
    requires Runnable(setup)
  {
    if event.symbol in s.halted || event.eventType != GateEvaluated || event.runId in s.processed
        || event.gate == Closed
    then None
    else if event.symbol in setup.plans then
      Some(Execution(setup, event, Slots(setup.plans[event.symbol]), s.states))
    else if "__default__" in setup.plans then
      Some(Execution(setup, event, Slots(setup.plans["__default__"]), s.states))
    else None
  }

  /** The blocks of the modules, one after the other. */
  ghost predicate AllBlocksTell(x: Execution, n: nat, events: seq<AnalysisEvent>)
    requires Valid(x) && n <= |x.slots|
  {
    if n == 0 then events == []
    else exists k :: 0 <= k <= |events| && AllBlocksTell(x, n - 1, events[..k]) && BlockTells(x, n - 1, events[k..])
  }

  /** The status names the modules that did not succeed, once each and in order. */
  ghost predicate StatusTells(x: Execution, payload: AnalysisPayload)
    requires Valid(x)
  {
    && payload.Status?
    && StrictlyIncreasing(payload.failures)
    && (forall id :: id in payload.failures <==>
          exists i :: 0 <= i < |x.slots| && x.slots[i].id == id && !Outcome(x, i).Succeeded?)
    && payload.status == (if payload.failures == [] then Success else Partial)
  }

  lemma {:induction false} BlocksAreTold(x: Execution, n: nat)
    requires Valid(x) && n <= |x.slots|
    ensures AllBlocksTell(x, n, Blocks(x, n))
  {
    hide Block, BlockTells;
    if n > 0 {
      BlocksAreTold(x, n - 1);
      BlocksTell(x, n - 1);
      assert Blocks(x, n)[..|Blocks(x, n - 1)|] == Blocks(x, n - 1);
      assert Blocks(x, n)[|Blocks(x, n - 1)|..] == Block(x, n - 1);
    }
  }

  lemma StatusIsTold(x: Execution)
    requires InOrder(x)
    ensures StatusTells(x, CompletedEvent(x.event, At(x, |x.slots|)).payload)
  {
    hide Outcome, InOrder, CompletedEvent, At, StrictlyIncreasing;
    RunStatusIs(x);
    OrderedIsValid(x);
    var failed := set i | 0 <= i < |x.slots| && !Outcome(x, i).Succeeded? :: x.slots[i].id;
    SortedTells(failed);
  }

  lemma SortedTells(xs: set<string>)
    ensures (forall id :: id in Sorted(xs) <==> id in xs) && StrictlyIncreasing(Sorted(xs))
            && (Sorted(xs) == [] <==> xs == {})
  {
    assert forall id :: id in Sorted(xs) <==> id in Elements(Sorted(xs));
    if Sorted(xs) == [] { assert |xs| == 0; }
  }

  /** The answer to a gate event, by its fields. */
  ghost predicate AnswerTells(setup: Setup, s: EngineState, event: GateEvent, answer: seq<AnalysisEvent>)
    requires Runnable(setup) && WellKeyed(setup.modules)
  {
    if event.symbol in s.halted then answer == []
    else if event.eventType == StateGateHalted then
      && |answer| == 1 && IsAbout(answer[0], event) && answer[0].eventType == AnalysisRunFailed
      && answer[0].payload == Status(RunFailure, [])
    else if event.eventType != GateEvaluated || event.runId in s.processed then answer == []
    else if event.gate == Closed then
      && |answer| == 1 && IsAbout(answer[0], event) && answer[0].eventType == AnalysisRunSkipped
      && answer[0].payload == NoAnalysisPayload
    else if ExecutionOf(setup, s, event).None? then
      && |answer| == 1 && IsAbout(answer[0], event) && answer[0].eventType == AnalysisRunFailed
      && answer[0].payload == Status(RunFailure, [])
    else
      var x, n := ExecutionOf(setup, s, event).value, |answer| - 1;
      && Valid(x) && n >= 1
      && IsAbout(answer[0], event) && answer[0].eventType == AnalysisRunStarted
      && answer[0].payload == NoAnalysisPayload
      && AllBlocksTell(x, |x.slots|, answer[1..n])
      && IsAbout(answer[n], event) && answer[n].eventType == AnalysisRunCompleted && StatusTells(x, answer[n].payload)
  }

  /** Every plan takes its modules once, in an order that respects their dependencies. */
  ghost predicate WellPlanned(setup: Setup) {
    && Runnable(setup) && WellKeyed(setup.modules)
    && forall symbol, event, states :: symbol in setup.plans ==>
         InOrder(Execution(setup, event, Slots(setup.plans[symbol]), states))
  }

  /** What the engine answers: nothing, a failure, a skip, or a start, the events of every planned module in turn, and a
      completion that names those that did not succeed. */
  lemma AnswersTell(setup: Setup, s: EngineState, event: GateEvent)
    requires WellPlanned(setup)
    ensures AnswerTells(setup, s, event, Consumed(setup, s, event).1)
  {
    hide Executed, Slots, AllBlocksTell, StatusTells, InOrder, Blocks;
    var found := ExecutionOf(setup, s, event);
    if found.Some? {
      var x, n := found.value, |found.value.slots|;
      PlannedInOrder(setup, s, event);
      OrderedIsKnown(x);
      OrderedIsValid(x);
      OneOutcomeEach(x, n);
      BlocksAreTold(x, n);
      StatusIsTold(x);
      AnswerIs(setup, s, event, x);
      var answer := Consumed(setup, s, event).1;
      assert answer[1..|answer| - 1] == Blocks(x, n);
    }
  }

  lemma PlannedInOrder(setup: Setup, s: EngineState, event: GateEvent)
    requires WellPlanned(setup) && ExecutionOf(setup, s, event).Some?
    ensures InOrder(ExecutionOf(setup, s, event).value)
  {
    hide Slots, InOrder;
  }

  lemma OrderedIsValid(x: Execution)
    requires InOrder(x)
    ensures Valid(x)
  {
  }

  lemma AnswerIs(setup: Setup, s: EngineState, event: GateEvent, x: Execution)
    requires Runnable(setup) && ExecutionOf(setup, s, event) == Some(x) && Valid(x)
    ensures var (next, answer) := Consumed(setup, s, event);
            && answer == At(x, |x.slots|).events + [CompletedEvent(event, At(x, |x.slots|))]
            && next.states == At(x, |x.slots|).states
  {
    hide ProgressAt, Slots;
  }

  // ----- The state over a history -----

  /** The state that the module has left in this execution. */
  ghost function KeptIn(x: Execution, id: string): Option<string>
    requires Valid(x)
  {
    if exists i :: 0 <= i < |x.slots| && x.slots[i].id == id && KeepsState(x, i) then
      var i :| 0 <= i < |x.slots| && x.slots[i].id == id && KeepsState(x, i);
      Outcome(x, i).result.statePayload
    else None
  }

  /** What a module has left for a symbol over a history: the state that it returned in the last execution in which it
      succeeded and kept one, or else what there was before. */
  ghost function LastKept(setup: Setup, s: EngineState, events: seq<GateEvent>, symbol: string, id: string,
                          before: Option<string>): Option<string>
    requires Runnable(setup) && WellKeyed(setup.modules)
  {
    if |events| == 0 then before
    else
      var past, last := events[..|events| - 1], events[|events| - 1];
      var found := ExecutionOf(setup, After(setup, s, past), last);
      if found.Some? && last.symbol == symbol && Valid(found.value) && KeptIn(found.value, id).Some?
      then KeptIn(found.value, id) else LastKept(setup, s, past, symbol, id, before)
  }

  lemma {:induction false} Untouched(x: Execution, n: nat, symbol: string, id: string)
    requires Valid(x) && n <= |x.slots| && forall j :: 0 <= j < n ==> x.slots[j].id != id || symbol != x.event.symbol
    ensures LatestPayload(At(x, n).states, symbol, id) == LatestPayload(x.states, symbol, id)
  {
    hide At, LatestPayload, KeepsState;
    NothingYet(x);
    if n > 0 {
      Untouched(x, n - 1, symbol, id);
      TurnPayload(x, n - 1, symbol, id);
    }
  }

  lemma ExecutionKeeps(x: Execution, symbol: string, id: string)
    requires InOrder(x)
    ensures Valid(x)
    ensures LatestPayload(At(x, |x.slots|).states, symbol, id)
         == if symbol == x.event.symbol && KeptIn(x, id).Some?
            then KeptIn(x, id) else LatestPayload(x.states, symbol, id)
  {
    hide At, LatestPayload, Outcome;
    if i :| 0 <= i < |x.slots| && x.slots[i].id == id {
      StatesAfterRun(x, i, |x.slots|, symbol);
    } else {
      Untouched(x, |x.slots|, symbol, id);
    }
  }

  lemma {:induction false} StateOverHistory(setup: Setup, s: EngineState, events: seq<GateEvent>, symbol: string,
                                            id: string)
    requires WellPlanned(setup)
    ensures LatestPayload(After(setup, s, events).states, symbol, id)
         == LastKept(setup, s, events, symbol, id, LatestPayload(s.states, symbol, id))
  {
    hide LatestPayload, ExecutionOf, KeptIn, InOrder, Runnable, Consumed;
    if |events| > 0 {
      var past, last := events[..|events| - 1], events[|events| - 1];
      StateOverHistory(setup, s, past, symbol, id);
      var before := After(setup, s, past);
      var found := ExecutionOf(setup, before, last);
      if found.Some? {
        PlannedInOrder(setup, before, last);
        ExecutionKeeps(found.value, symbol, id);
        AnswerIs(setup, before, last, found.value);
        ExecutionStates(setup, before, last);
      } else {
        NothingExecuted(setup, before, last);
      }
    }
  }

  lemma ExecutionStates(setup: Setup, s: EngineState, event: GateEvent)
    requires Runnable(setup) && ExecutionOf(setup, s, event).Some?
    ensures ExecutionOf(setup, s, event).value.states == s.states && ExecutionOf(setup, s, event).value.event == event
  {
    hide Slots;
  }

  lemma NothingExecuted(setup: Setup, s: EngineState, event: GateEvent)
    requires Runnable(setup) && ExecutionOf(setup, s, event).None?
    ensures Consumed(setup, s, event).0.states == s.states
  {
    hide Slots, Executed;
  }

  /** Over every history, the code of a module is called with the state that it returned in the last execution for the
      symbol in which it succeeded and kept one, and with none if there was none. */
  lemma CodeIsHandedItsLastState(setup: Setup, s: EngineState, events: seq<GateEvent>, event: GateEvent, i: nat,
                                 context: RunContext, payloads: map<string, Artifact>, before: Option<string>)
    requires WellPlanned(setup) && ExecutionOf(setup, After(setup, s, events), event).Some?
    requires var x := ExecutionOf(setup, After(setup, s, events), event).value;
             && InOrder(x) && i < |x.slots|
             && (forall d :: d in DefinitionAt(x, i).dependencies ==>
                   EmittedFor(x, i, d.moduleId, d.artifactName).Some?)
             && IsContext(context, event) && IsHanded(x, i, payloads)
             && IsState(s.states, event.symbol, x.slots[i].id, before)
    ensures var x := ExecutionOf(setup, After(setup, s, events), event).value;
            var id := x.slots[i].id;
            var state := LastKept(setup, s, events, event.symbol, id, before);
            var outcome := Outcome(x, i);
            match setup.code(id, context, payloads, state)
            case Err(detail) => outcome == Raised(detail)
            case Ok(result) =>
              if forall a :: a in result.artifacts ==> MayEmit(x.slots[i].stage, a.kind)
              then outcome == Succeeded(result) else outcome.Raised?
  {
    hide Outcome, LastKept, EmittedFor, IsHanded, IsContext, IsState, LatestPayload, InOrder, Runnable, DefinitionAt,
         At;
    var past := After(setup, s, events);
    var x := ExecutionOf(setup, past, event).value;
    var id := x.slots[i].id;
    ExecutionStates(setup, past, event);
    LatestIs(s.states, event.symbol, id);
    OneState(s.states, event.symbol, id, before, LatestPayload(s.states, event.symbol, id));
    StateOverHistory(setup, s, events, event.symbol, id);
    LatestIs(past.states, event.symbol, id);
    ExecutionSetup(setup, past, event);
    CodeDecides(x, i, context, payloads, LastKept(setup, s, events, event.symbol, id, before));
  }

  lemma ExecutionSetup(setup: Setup, s: EngineState, event: GateEvent)
    requires Runnable(setup) && ExecutionOf(setup, s, event).Some?
    ensures ExecutionOf(setup, s, event).value.setup == setup
  {
    hide Slots;
  }

  // ----- The state records of an execution -----

  /** A module that keeps a state leaves one record of it. */
  ghost predicate RecordsTell(x: Execution, i: nat, records: seq<ModuleStateRecord>)
    requires Valid(x) && i < |x.slots|
  {
    var d := DefinitionAt(x, i);
    if Outcome(x, i).Succeeded? && d.stateSchemaId.Some? && Outcome(x, i).result.statePayload.Some? then
      && |records| == 1
      && records[0].symbol == x.event.symbol && records[0].moduleId == x.slots[i].id
      && records[0].runId == x.event.runId && records[0].timestamp == x.event.timestamp
      && records[0].schemaId == d.stateSchemaId.value
      && records[0].schemaVersion == (if d.stateSchemaVersion.Some? then d.stateSchemaVersion.value else "")
      && Some(records[0].payload) == Outcome(x, i).result.statePayload
    else records == []
  }

  ghost predicate AllRecordsTell(x: Execution, n: nat, records: seq<ModuleStateRecord>)
    requires Valid(x) && n <= |x.slots|
  {
    if n == 0 then records == []
    else
      exists k :: && 0 <= k <= |records|
                  && AllRecordsTell(x, n - 1, records[..k]) && RecordsTell(x, n - 1, records[k..])
  }

  /** An execution adds the records of its modules to the log, in the order of the plan, and changes no earlier one. */
  lemma {:induction false} StatesAreTold(x: Execution, n: nat)
    requires Valid(x) && n <= |x.slots|
    ensures x.states <= At(x, n).states && AllRecordsTell(x, n, At(x, n).states[|x.states|..])
  {
    hide Outcome, At, RecordsTell;
    NothingYet(x);
    if n > 0 {
      StatesAreTold(x, n - 1);
      var more := TurnRecords(x, n - 1);
      var before := At(x, n - 1).states[|x.states|..];
      var all := At(x, n).states[|x.states|..];
      assert all == before + more;
      assert all[..|before|] == before && all[|before|..] == more;
    }
  }

  lemma TurnRecords(x: Execution, i: nat) returns (more: seq<ModuleStateRecord>)
    requires Valid(x) && i < |x.slots|
    ensures At(x, i + 1).states == At(x, i).states + more && RecordsTell(x, i, more)
  {
    hide Outcome, At, AddAll, Ordered, VerdictOf, EmittedEvents;
    AtStep(x, i);
    more := if Outcome(x, i).Succeeded? then NewStates(x.event, DefinitionAt(x, i), Outcome(x, i).result) else [];
    assert At(x, i).states + [] == At(x, i).states;
  }
}
