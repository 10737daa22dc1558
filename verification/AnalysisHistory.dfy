/** The plans the analysis engine executes, and what it keeps over a whole history of gate events. */
module AnalysisHistory {
  import opened Ordering
  import opened DependencyGraph
  import opened GateAssembly
  import opened Registry
  import opened Planning
  import opened AnalysisEngine
  import opened AnalysisRuns

  // ----- Plans -----

  datatype SymbolConfig = SymbolConfig(symbol: string, enabledModules: seq<string>)

  ghost predicate PlanOf(modules: Modules, plan: ExecutionPlan, enabled: set<string>) {
    Plannable(modules, enabled) && IsPlan(modules, enabled, plan)
  }

  /** The modules of the default plan: the configured ones, or else those that are enabled by default. */
  function DefaultModules(modules: Modules, enabledModules: seq<string>): set<string> {
    if enabledModules != [] then Elements(enabledModules) else set id | id in modules && modules[id].enabledByDefault
  }

  /** The set of modules to plan for each configured symbol, and for all others. */
  function EnabledSets(modules: Modules, enabledModules: seq<string>, symbols: seq<SymbolConfig>)
    : map<string, set<string>>
  {
    if |symbols| == 0 then map[DEFAULT_PLAN := DefaultModules(modules, enabledModules)]
    else
      var last := symbols[|symbols| - 1];
      EnabledSets(modules, enabledModules, symbols[..|symbols| - 1])[last.symbol := Elements(last.enabledModules)]
  }

  /** One plan for each configured symbol and a default plan for all others; an error exactly if one of the configured
      sets has no plan. */
  method BuildPlans(registry: ModuleRegistry, enabledModules: seq<string>, symbols: seq<SymbolConfig>)
    returns (result: Result<map<string, ExecutionPlan>, PlanError>)
    requires WellKeyed(registry.modules)
    ensures result.Ok? <==>
              && Plannable(registry.modules, DefaultModules(registry.modules, enabledModules))
              && forall i :: 0 <= i < |symbols| ==> Plannable(registry.modules, Elements(symbols[i].enabledModules))
    ensures result.Ok? ==> PlansFor(registry.modules, result.value,
                                    EnabledSets(registry.modules, enabledModules, symbols))
  {
    hide *;
    var modules := registry.modules;
    var defaults := enabledModules;
    if defaults == [] {
      defaults := Sorted(set id | id in modules && modules[id].enabledByDefault);
    }
    NoSymbols(modules, enabledModules);
    var plan := BuildExecutionPlan(registry, defaults);
    if plan.Err? {
      return Err(plan.error);
    }
    var plans: map<string, ExecutionPlan> := map[DEFAULT_PLAN := plan.value];
    PlansGrow(modules, map[], map[], DEFAULT_PLAN, plan.value, Elements(defaults));
    for i := 0 to |symbols|
      invariant forall j :: 0 <= j < i ==> Plannable(modules, Elements(symbols[j].enabledModules))
      invariant PlansFor(modules, plans, EnabledSets(modules, enabledModules, symbols[..i]))
    {
      plan := BuildExecutionPlan(registry, symbols[i].enabledModules);
      if plan.Err? {
        return Err(plan.error);
      }
      OneSymbolMore(modules, enabledModules, symbols, i);
      PlansGrow(modules, plans, EnabledSets(modules, enabledModules, symbols[..i]), symbols[i].symbol, plan.value,
                Elements(symbols[i].enabledModules));
      plans := plans[symbols[i].symbol := plan.value];
    }
    assert symbols[..|symbols|] == symbols;
    return Ok(plans);
  }

  /** Each set has its plan. */
  ghost predicate PlansFor(modules: Modules, plans: map<string, ExecutionPlan>, sets: map<string, set<string>>) {
    plans.Keys == sets.Keys && forall symbol :: symbol in sets ==> PlanOf(modules, plans[symbol], sets[symbol])
  }

  lemma PlansGrow(modules: Modules, plans: map<string, ExecutionPlan>, sets: map<string, set<string>>,
                  symbol: string, plan: ExecutionPlan, enabled: set<string>)
    requires Plannable(modules, enabled)
    requires enabled <= modules.Keys ==> IsPlan(modules, enabled, plan)
    ensures PlansFor(modules, map[], map[])
    ensures PlansFor(modules, plans, sets) ==> PlansFor(modules, plans[symbol := plan], sets[symbol := enabled])
  {
    hide IsPlan, Acyclic, StagesMonotone;
  }

  lemma NoSymbols(modules: Modules, enabledModules: seq<string>)
    ensures EnabledSets(modules, enabledModules, []) == map[DEFAULT_PLAN := DefaultModules(modules, enabledModules)]
    ensures enabledModules != [] ==> DefaultModules(modules, enabledModules) == Elements(enabledModules)
    ensures enabledModules == [] ==>
              DefaultModules(modules, enabledModules) == set id | id in modules && modules[id].enabledByDefault
  {
  }

  lemma OneSymbolMore(modules: Modules, enabledModules: seq<string>, symbols: seq<SymbolConfig>, i: nat)
    requires i < |symbols|
    ensures EnabledSets(modules, enabledModules, symbols[..i + 1])
         == EnabledSets(modules, enabledModules, symbols[..i])[symbols[i].symbol := Elements(symbols[i].enabledModules)]
    ensures symbols[..0] == []
  {
    assert symbols[..i + 1][..i] == symbols[..i];
  }

  function SlotIds(slots: seq<Slot>): seq<string> {
    seq(|slots|, i requires 0 <= i < |slots| => slots[i].id)
  }

  lemma SlotIdsConcat(a: seq<Slot>, b: seq<Slot>)
    ensures SlotIds(a + b) == SlotIds(a) + SlotIds(b)
  {
  }

  lemma StageIds(plan: ExecutionPlan, stage: Kind)
    requires stage in plan
    ensures SlotIds(StageSlots(plan, stage)) == StepIds(plan[stage])
  {
  }

  /** The engine takes the modules in the order of the plan's stages. */
  lemma SlotsFollowPlan(plan: ExecutionPlan)
    requires forall k: Kind :: k in plan
    ensures SlotIds(Slots(plan)) == Concatenated(plan)
  {
    hide StageSlots, SlotIds;
    var a, b, c, d := StageSlots(plan, Signal), StageSlots(plan, Detector), StageSlots(plan, Rule),
                      StageSlots(plan, Output);
    StageIds(plan, Signal);
    StageIds(plan, Detector);
    StageIds(plan, Rule);
    StageIds(plan, Output);
    FourStages(plan);
    SlotIdsConcat(a + b + c, d);
    SlotIdsConcat(a + b, c);
    SlotIdsConcat(a, b);
  }

  lemma FourStages(plan: ExecutionPlan)
    ensures Slots(plan) == StageSlots(plan, Signal) + StageSlots(plan, Detector) + StageSlots(plan, Rule)
            + StageSlots(plan, Output)
  {
    hide StageSlots;
    assert SlotsOfStages(plan, 1) == StageSlots(plan, Signal);
    assert SlotsOfStages(plan, 2) == StageSlots(plan, Signal) + StageSlots(plan, Detector);
    assert SlotsOfStages(plan, 3) == StageSlots(plan, Signal) + StageSlots(plan, Detector) + StageSlots(plan, Rule);
  }

  /** Executing a plan takes every enabled module exactly once and after all that it depends on, so that what holds
      of ordered executions holds of it. */
  lemma PlansAreInOrder(setup: Setup, enabled: set<string>, plan: ExecutionPlan, event: GateEvent,
                        states: seq<ModuleStateRecord>)
    requires WellKeyed(setup.modules) && PlanOf(setup.modules, plan, enabled)
    ensures var x := Execution(setup, event, Slots(plan), states);
            InOrder(x) && GraphOf(x) == EnabledGraph(setup.modules, enabled)
              && Elements(SlotIds(Slots(plan))) == enabled
  {
    hide Slots, Topological, IsPlan, Acyclic, StagesMonotone, InOrder, GraphOf, SlotIds;
    var x := Execution(setup, event, Slots(plan), states);
    PlanHasStages(setup.modules, enabled, plan);
    SlotsFollowPlan(plan);
    PlanIsTopological(setup.modules, enabled, plan);
    TopologicalParts(EnabledGraph(setup.modules, enabled), Concatenated(plan));
    TopologicalIsInOrder(x, enabled);
    GraphIsEnabled(x, enabled);
  }

  lemma TopologicalIsInOrder(x: Execution, enabled: set<string>)
    requires WellKeyed(x.setup.modules) && DependenciesMet(x.setup.modules, enabled)
    requires NoDuplicates(SlotIds(x.slots)) && Elements(SlotIds(x.slots)) == enabled
    requires RespectsDependencies(EnabledGraph(x.setup.modules, enabled), SlotIds(x.slots))
    ensures Valid(x) && InOrder(x)
  {
    hide RespectsDependencies, EnabledGraph;
    DistinctSlots(x, enabled);
    forall i, d | 0 <= i < |x.slots| && d in DefinitionAt(x, i).dependencies
      ensures ComesBefore(x, i, d.moduleId)
    {
      var j := EarlierSlot(x, enabled, i, d);
      assert x.slots[j].id == d.moduleId;
    }
  }

  lemma DistinctSlots(x: Execution, enabled: set<string>)
    requires enabled <= x.setup.modules.Keys && NoDuplicates(SlotIds(x.slots)) && Elements(SlotIds(x.slots)) == enabled
    ensures Known(x.setup.modules, x.slots)
    ensures forall i :: 0 <= i < |x.slots| ==> x.slots[i].id in enabled
    ensures forall i, j :: 0 <= i < j < |x.slots| ==> x.slots[i].id != x.slots[j].id
  {
    var order := SlotIds(x.slots);
    forall i | 0 <= i < |x.slots| ensures x.slots[i].id in enabled { assert order[i] in Elements(order); }
    forall i, j | 0 <= i < j < |x.slots| ensures x.slots[i].id != x.slots[j].id { assert order[i] != order[j]; }
  }

  lemma EarlierSlot(x: Execution, enabled: set<string>, i: nat, d: Dependency) returns (j: nat)
    requires Valid(x) && DependenciesMet(x.setup.modules, enabled) && i < |x.slots| && x.slots[i].id in enabled
    requires RespectsDependencies(EnabledGraph(x.setup.modules, enabled), SlotIds(x.slots))
    requires d in DefinitionAt(x, i).dependencies
    ensures j < i && x.slots[j].id == d.moduleId
  {
    hide RespectsDependencies;
    assert d.moduleId in DependencyIds(x.setup.modules[x.slots[i].id]);
    j := DependencyIsEarlier(EnabledGraph(x.setup.modules, enabled), SlotIds(x.slots), i, d.moduleId);
  }

  lemma PlanHasStages(modules: Modules, enabled: set<string>, plan: ExecutionPlan)
    requires enabled <= modules.Keys && IsPlan(modules, enabled, plan)
    ensures forall k: Kind :: k in plan
  {
  }

  lemma TopologicalParts(g: Graph, order: seq<string>)
    requires Topological(g, order)
    ensures NoDuplicates(order) && Elements(order) == g.Keys && RespectsDependencies(g, order)
  {
  }

  lemma GraphIsEnabled(x: Execution, enabled: set<string>)
    requires Valid(x) && DependenciesMet(x.setup.modules, enabled) && Elements(SlotIds(x.slots)) == enabled
    ensures GraphOf(x) == EnabledGraph(x.setup.modules, enabled)
  {
    forall id ensures id in GraphOf(x) <==> id in enabled {
      if id in enabled {
        assert id in Elements(SlotIds(x.slots));
        var i :| 0 <= i < |x.slots| && SlotIds(x.slots)[i] == id;
        assert x.slots[i].id == id;
      }
      if id in GraphOf(x) {
        var i :| 0 <= i < |x.slots| && x.slots[i].id == id;
        assert SlotIds(x.slots)[i] in SlotIds(x.slots);
      }
    }
    forall id | id in enabled
      ensures DependencyIds(x.setup.modules[id]) * enabled == DependencyIds(x.setup.modules[id])
    {
      assert DependencyIds(x.setup.modules[id]) <= enabled;
    }
  }

  /** Plans that were built can be executed: every planned module is registered. */
  lemma BuiltPlansAreRunnable(setup: Setup, sets: map<string, set<string>>)
    requires WellKeyed(setup.modules) && PlansFor(setup.modules, setup.plans, sets)
    ensures Runnable(setup)
  {
    hide Slots, PlanOf, InOrder;
    var event := GateEvent(GateEvaluated, "", 0, "", Ready, Open, [], NoGatePayload, None, None);
    forall symbol | symbol in setup.plans ensures Known(setup.modules, Slots(setup.plans[symbol])) {
      PlansAreInOrder(setup, sets[symbol], setup.plans[symbol], event, []);
      OrderedIsKnown(Execution(setup, event, Slots(setup.plans[symbol]), []));
    }
  }

  lemma OrderedIsKnown(x: Execution)
    requires InOrder(x)
    ensures Known(x.setup.modules, x.slots)
  {
  }

  // ----- Histories -----

  function After(setup: Setup, s: EngineState, events: seq<GateEvent>): EngineState
    requires Runnable(setup)
  {
    if |events| == 0 then s
    else Consumed(setup, After(setup, s, events[..|events| - 1]), events[|events| - 1]).0
  }

  /** What the n-th event of a history gives. */
  function Response(setup: Setup, s: EngineState, events: seq<GateEvent>, n: nat): seq<AnalysisEvent>
    requires Runnable(setup) && n < |events|
  {
    Consumed(setup, After(setup, s, events[..n]), events[n]).1
  }

  lemma {:induction false} AfterGrows(setup: Setup, s: EngineState, events: seq<GateEvent>, i: nat, j: nat)
    requires Runnable(setup) && i <= j <= |events|
    ensures After(setup, s, events[..i]).processed <= After(setup, s, events[..j]).processed
    ensures After(setup, s, events[..i]).halted <= After(setup, s, events[..j]).halted
  {
    hide Executed, Slots;
    if i < j {
      AfterGrows(setup, s, events, i, j - 1);
      assert events[..j][..j - 1] == events[..j - 1];
    }
  }

  /** A run id is answered at most once: after an evaluation that was answered, every later evaluation with the same
      run id gives nothing. */
  lemma AnsweredOnce(setup: Setup, s: EngineState, events: seq<GateEvent>, i: nat, j: nat)
    requires Runnable(setup) && i < j < |events|
    requires events[i].eventType == GateEvaluated && events[j].eventType == GateEvaluated
             && events[i].runId == events[j].runId
    requires Response(setup, s, events, i) != []
    ensures Response(setup, s, events, j) == []
  {
    hide Executed, Slots;
    AfterGrows(setup, s, events, i + 1, j);
    assert events[..i + 1][..i] == events[..i];
  }

  /** After the gate's halt of a symbol, its events give nothing any more. */
  lemma HaltedForGood(setup: Setup, s: EngineState, events: seq<GateEvent>, i: nat, j: nat)
    requires Runnable(setup) && i < j < |events|
    requires events[i].eventType == StateGateHalted && events[i].symbol == events[j].symbol
    ensures Response(setup, s, events, j) == []
  {
    hide Executed, Slots;
    AfterGrows(setup, s, events, i + 1, j);
    assert events[..i + 1][..i] == events[..i];
  }

  function WithoutResets(events: seq<GateEvent>): seq<GateEvent> {
    if |events| == 0 then []
    else
      WithoutResets(events[..|events| - 1])
      + (if events[|events| - 1].eventType == StateReset then [] else [events[|events| - 1]])
  }

  function AllResponses(setup: Setup, s: EngineState, events: seq<GateEvent>): seq<AnalysisEvent>
    requires Runnable(setup)
  {
    if |events| == 0 then []
    else
      var before, last := events[..|events| - 1], events[|events| - 1];
      AllResponses(setup, s, before) + Consumed(setup, After(setup, s, before), last).1
  }

  /** Resets use up no run id and change nothing: without them the history comes to the same state and answers. */
  lemma {:induction false} ResetsPlayNoPart(setup: Setup, s: EngineState, events: seq<GateEvent>)
    requires Runnable(setup)
    ensures After(setup, s, WithoutResets(events)) == After(setup, s, events)
    ensures AllResponses(setup, s, WithoutResets(events)) == AllResponses(setup, s, events)
  {
    hide Executed, Slots;
    if |events| > 0 {
      var before, last := events[..|events| - 1], events[|events| - 1];
      ResetsPlayNoPart(setup, s, before);
      if last.eventType == StateReset {
        assert WithoutResets(events) == WithoutResets(before);
      } else {
        assert WithoutResets(events)[..|WithoutResets(events)| - 1] == WithoutResets(before);
      }
    }
  }

  /** An evaluation of a run id not seen before, for a symbol that is not halted, is answered by exactly one block: the
      closed gate by a skip, the open gate by a start, one outcome for each planned module and a completion. */
  lemma AnswerShape(setup: Setup, s: EngineState, event: GateEvent)
    requires Runnable(setup) && WellKeyed(setup.modules)
    requires event.eventType == GateEvaluated && event.symbol !in s.halted && event.runId !in s.processed
    ensures var (next, answer) := Consumed(setup, s, event);
            && next.processed == s.processed + {event.runId} && next.halted == s.halted
            && (event.gate == Closed ==> answer == [SkippedEvent(event)] && next.states == s.states)
            && (event.gate == Open && PlanFor(setup.plans, event.symbol).None? ==> answer == [FailedEvent(event)])
            && (event.gate == Open && PlanFor(setup.plans, event.symbol).Some? ==>
                  var x := Execution(setup, event, Slots(PlanFor(setup.plans, event.symbol).value), s.states);
                  && Valid(x)
                  && answer == [AnalysisEventOf(AnalysisRunStarted, event, NoAnalysisPayload)] + Blocks(x, |x.slots|)
                               + [CompletedEvent(event, At(x, |x.slots|))]
                  && next.states == At(x, |x.slots|).states)
  {
    hide ProgressAt, Slots, Blocks;
    if event.gate == Open && PlanFor(setup.plans, event.symbol).Some? {
      var x := Execution(setup, event, Slots(PlanFor(setup.plans, event.symbol).value), s.states);
      OneOutcomeEach(x, |x.slots|);
    }
  }
}
