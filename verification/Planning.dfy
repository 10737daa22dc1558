/** The execution plan of the analysis engine: stages in a fixed order, and inside a stage
    Kahn's algorithm with a sorted queue. */
module Planning {
  import opened Ordering
  import opened DependencyGraph
  import opened Registry

  const STAGE_ORDER: seq<Kind> := [Signal, Detector, Rule, Output]

  datatype ExecutionStep = ExecutionStep(
    moduleId: string,
    kind: Kind,
    artifactSchemas: seq<ArtifactSchema>,
    dependencies: seq<string>)

  type ExecutionPlan = map<Kind, seq<ExecutionStep>>

  function StageIndex(kind: Kind): nat {
    match kind
    case Signal => 0
    case Detector => 1
    case Rule => 2
    case Output => 3
  }

  // ----- One stage -----

  /** The dependencies of a stage's modules that lie in the same stage. */
  function StageGraph(definitions: Modules): Graph {
    EnabledGraph(definitions, definitions.Keys)
  }

  /** Who depends on `d`. */
  function DependentsOf(g: Graph, d: string): set<string> {
    set m | m in g && d in g[m]
  }

  method CollectDependents(g: Graph) returns (dependents: Graph)
    requires Closed(g)
    ensures dependents.Keys == g.Keys && forall d :: d in g ==> dependents[d] == DependentsOf(g, d)
  {
    dependents := map id | id in g :: {};
    var todo := g.Keys;
    while todo != {}
      invariant todo <= g.Keys && dependents.Keys == g.Keys
      invariant forall d :: d in g ==> dependents[d] == DependentsOf(g, d) - todo
      decreases todo
    {
      var id :| id in todo;
      var deps := g[id];
      ghost var before := dependents;
      while deps != {}
        invariant deps <= g[id] && dependents.Keys == g.Keys
        invariant forall d :: d in g ==> dependents[d] == (if d in g[id] - deps then before[d] + {id} else before[d])
        decreases deps
      {
        var dep :| dep in deps;
        dependents := dependents[dep := dependents[dep] + {id}];
        deps := deps - {dep};
      }
      todo := todo - {id};
    }
  }

  /** `indegree` counts the dependencies that are still to come. */
  ghost predicate Counts(g: Graph, done: set<string>, indegree: map<string, int>) {
    indegree.Keys == g.Keys && forall m :: m in g ==> indegree[m] == |g[m] - done|
  }

  /** In the middle of a round the dependents seen so far have been counted down once more. */
  ghost predicate Counting(g: Graph, done: set<string>, seen: set<string>, indegree: map<string, int>) {
    indegree.Keys == g.Keys && forall m :: m in g ==> indegree[m] == |g[m] - done| - (if m in seen then 1 else 0)
  }

  /** What is done has all its dependencies done. */
  ghost predicate Settled(g: Graph, done: set<string>) {
    forall d :: d in done && d in g ==> g[d] <= done
  }

  function Released(g: Graph, done: set<string>, seen: set<string>): set<string> {
    set m | m in seen && m in g && g[m] <= done
  }

  /** The state of a round for `current` once the dependents in `seen` are treated. */
  ghost predicate Releasing(g: Graph, done: set<string>, current: string, seen: set<string>,
                            indegree: map<string, int>, queue: seq<string>) {
    && Counting(g, done, seen, indegree)
    && NoDuplicates(queue)
    && Elements(queue) == (Ready(g, done) - {current}) + Released(g, done + {current}, seen)
  }

  /** The state between two rounds. */
  ghost predicate RoundStart(g: Graph, done: set<string>, indegree: map<string, int>, queue: seq<string>) {
    && Counts(g, done, indegree)
    && queue == Sorted(Ready(g, done))
    && Settled(g, done)
  }

  /** The inner loop of one round: `current` is done, its dependents count down, and those
      that reach zero join the queue. */
  method Release(ghost g: Graph, ghost done: set<string>, ghost current: string, dependents: seq<string>,
                 indegree: map<string, int>, queue: seq<string>)
    returns (indegree': map<string, int>, queue': seq<string>)
    requires current in Ready(g, done) && Settled(g, done)
    requires StrictlyIncreasing(dependents) && Elements(dependents) == DependentsOf(g, current)
    requires Releasing(g, done, current, {}, indegree, queue)
    ensures Releasing(g, done, current, DependentsOf(g, current), indegree', queue')
  {
    hide Releasing, Ready, DependentsOf, StrictlyIncreasing;
    indegree', queue' := indegree, queue;
    var i := 0;
    assert dependents[..0] == [] && Elements(dependents[..0]) == {};
    while i < |dependents|
      invariant i <= |dependents|
      invariant Releasing(g, done, current, Elements(dependents[..i]), indegree', queue')
    {
      var dependent := dependents[i];
      DropsByOne(g, done, current, dependents, i);
      ReleaseStep(g, done, current, Elements(dependents[..i]), dependent, indegree', queue');
      assert dependents[..i + 1] == dependents[..i] + [dependent];
      ElementsConcat(dependents[..i], [dependent]);
      indegree' := indegree'[dependent := indegree'[dependent] - 1];
      if indegree'[dependent] == 0 {
        queue' := queue' + [dependent];
      }
      i := i + 1;
    }
    assert dependents[..i] == dependents;
  }

  lemma ReleaseStep(g: Graph, done: set<string>, current: string, seen: set<string>, m: string,
                    indegree: map<string, int>, queue: seq<string>)
    requires Releasing(g, done, current, seen, indegree, queue)
    requires m in g && m !in seen && m !in Ready(g, done)
    requires |g[m] - done| == 1 <==> g[m] <= done + {current}
    ensures m in indegree
    ensures var indegree' := indegree[m := indegree[m] - 1];
            var queue' := if indegree'[m] == 0 then queue + [m] else queue;
            Releasing(g, done, current, seen + Elements([m]), indegree', queue')
  {
    assert Elements([m]) == {m};
    assert m !in Elements(queue);
    if indegree[m] == 1 {
      NoDuplicatesSnoc(queue, m);
      ElementsConcat(queue, [m]);
      assert Released(g, done + {current}, seen + {m}) == Released(g, done + {current}, seen) + {m};
    } else {
      assert Released(g, done + {current}, seen + {m}) == Released(g, done + {current}, seen);
    }
  }

  /** Once all dependents are seen the counts and the sorted queue are those of the next round. */
  lemma RoundComplete(g: Graph, done: set<string>, current: string, indegree: map<string, int>, queue: seq<string>)
    requires current in Ready(g, done) && Settled(g, done)
    requires Releasing(g, done, current, DependentsOf(g, current), indegree, queue)
    ensures RoundStart(g, done + {current}, indegree, Sort(StringLe, queue))
  {
    SortOfDistinct(queue);
    NextCounts(g, done, current, indegree);
    NextReady(g, done, current);
  }

  lemma NextCounts(g: Graph, done: set<string>, current: string, indegree: map<string, int>)
    requires current in Ready(g, done) && Counting(g, done, DependentsOf(g, current), indegree)
    ensures Counts(g, done + {current}, indegree)
  {
    forall m | m in g ensures indegree[m] == |g[m] - (done + {current})| {
      if current in g[m] {
        assert g[m] - done == (g[m] - (done + {current})) + {current};
      } else {
        assert g[m] - (done + {current}) == g[m] - done;
      }
    }
  }

  lemma NextReady(g: Graph, done: set<string>, current: string)
    requires current in Ready(g, done) && Settled(g, done)
    ensures (Ready(g, done) - {current}) + Released(g, done + {current}, DependentsOf(g, current))
         == Ready(g, done + {current})
  {
  }

  lemma NoDuplicatesSnoc<T>(s: seq<T>, x: T)
    requires NoDuplicates(s) && x !in s
    ensures NoDuplicates(s + [x])
  {
  }

  /** The next dependent is new to the round and loses exactly the dependency `current`. */
  lemma DropsByOne(g: Graph, done: set<string>, current: string, dependents: seq<string>, i: nat)
    requires current in Ready(g, done) && Settled(g, done)
    requires StrictlyIncreasing(dependents) && Elements(dependents) == DependentsOf(g, current)
    requires i < |dependents|
    ensures var m := dependents[i];
            && m in g && m !in Elements(dependents[..i])
            && m != current && m !in done && m !in Ready(g, done)
            && |g[m] - done| > 0
            && (|g[m] - done| == 1 <==> g[m] <= done + {current})
  {
    var m := dependents[i];
    assert m in Elements(dependents);
    assert g[m] - done == (g[m] - (done + {current})) + {current};
    if |g[m] - done| == 1 {
      assert g[m] - (done + {current}) == {};
    }
  }

  /** Kahn's loop computes the greedy order; it covers the stage exactly when the stage has no cycle. */
  method OrderStage(definitions: Modules) returns (result: Result<seq<Definition>, PlanError>)
    requires forall id :: id in definitions ==> definitions[id].moduleId == id
    ensures result.Ok? <==> Acyclic(StageGraph(definitions))
    ensures result.Ok? ==> ModuleIds(result.value) == Greedy(StageGraph(definitions), {})
    ensures result.Ok? ==> forall d :: d in result.value ==> d.moduleId in definitions && definitions[d.moduleId] == d
    ensures result.Err? ==> result.error == StageCycle
  {
    hide *;
    var g := StageGraph(definitions);
    StageGraphFacts(definitions);
    var dependents := CollectDependents(g);
    var indegree := map id | id in g :: |g[id]|;
    var queue := Sorted(set id | id in indegree && indegree[id] == 0);
    var ordered: seq<Definition> := [];
    ghost var done: set<string> := {};
    Start(g, indegree);
    ModuleIdsLength(ordered);
    assert ModuleIds(ordered) == [];
    while queue != []
      invariant RoundStart(g, done, indegree, queue)
      invariant ModuleIds(ordered) + Greedy(g, done) == Greedy(g, {})
      invariant forall d :: d in ordered ==> d.moduleId in definitions && definitions[d.moduleId] == d
      decreases g.Keys - done
    {
      var current := queue[0];
      TakeLeast(g, done, indegree, queue);
      queue := queue[1..];
      assert definitions[current].moduleId == current;
      ModuleIdsSnoc(ordered, definitions[current]);
      assert ModuleIds(ordered) + ([current] + Greedy(g, done + {current}))
          == (ModuleIds(ordered) + [current]) + Greedy(g, done + {current});
      ordered := ordered + [definitions[current]];
      indegree, queue := Release(g, done, current, Sorted(dependents[current]), indegree, queue);
      RoundComplete(g, done, current, indegree, queue);
      queue := Sort(StringLe, queue);
      done := done + {current};
    }
    Finished(g, done, indegree);
    assert ModuleIds(ordered) + [] == ModuleIds(ordered);
    assert ModuleIds(ordered) == Greedy(g, {});
    GreedyCompleteIffAcyclic(g);
    ModuleIdsLength(ordered);
    if |ordered| != |definitions| {
      return Err(StageCycle);
    }
    return Ok(ordered);
  }

  lemma StageGraphFacts(definitions: Modules)
    ensures var g := StageGraph(definitions);
            Closed(g) && g.Keys == definitions.Keys && |g| == |definitions|
  {
    var g := StageGraph(definitions);
    assert |g| == |g.Keys| && |definitions| == |definitions.Keys|;
  }

  lemma ModuleIdsLength(ordered: seq<Definition>)
    ensures |ModuleIds(ordered)| == |ordered|
  {
  }

  lemma Start(g: Graph, indegree: map<string, int>)
    requires indegree == map id | id in g :: |g[id]|
    ensures RoundStart(g, {}, indegree, Sorted(set id | id in indegree && indegree[id] == 0))
  {
    assert Settled(g, {});
    StartCounts(g, indegree);
    StartReady(g, indegree);
  }

  lemma StartCounts(g: Graph, indegree: map<string, int>)
    requires indegree == map id | id in g :: |g[id]|
    ensures Counts(g, {}, indegree)
  {
    assert forall m :: m in g ==> g[m] - {} == g[m];
  }

  lemma StartReady(g: Graph, indegree: map<string, int>)
    requires indegree == map id | id in g :: |g[id]|
    ensures (set id | id in indegree && indegree[id] == 0) == Ready(g, {})
  {
  }

  /** The head of the sorted queue is the greedy choice. */
  lemma TakeLeast(g: Graph, done: set<string>, indegree: map<string, int>, queue: seq<string>)
    requires RoundStart(g, done, indegree, queue) && queue != []
    ensures queue[0] in Ready(g, done) && queue[0] in g.Keys - done && Settled(g, done)
    ensures Greedy(g, done) == [queue[0]] + Greedy(g, done + {queue[0]})
    ensures Releasing(g, done, queue[0], {}, indegree, queue[1..])
  {
    SortedHead(Ready(g, done));
    assert Counting(g, done, {}, indegree);
    assert Released(g, done + {queue[0]}, {}) == {};
  }

  lemma SortedHead(xs: set<string>)
    requires Sorted(xs) != []
    ensures xs != {} && Sorted(xs)[0] == Least(xs)
    ensures NoDuplicates(Sorted(xs)[1..]) && Elements(Sorted(xs)[1..]) == xs - {Least(xs)}
  {
    assert Sorted(xs) == [Least(xs)] + Sorted(xs - {Least(xs)});
    assert Sorted(xs)[1..] == Sorted(xs - {Least(xs)});
  }

  /** An empty queue means that nothing is ready any more. */
  lemma Finished(g: Graph, done: set<string>, indegree: map<string, int>)
    requires RoundStart(g, done, indegree, [])
    ensures Greedy(g, done) == []
  {
    assert Elements(Sorted(Ready(g, done))) == {};
  }

  lemma ModuleIdsSnoc(ordered: seq<Definition>, last: Definition)
    ensures ModuleIds(ordered + [last]) == ModuleIds(ordered) + [last.moduleId]
  {
  }

  // ----- The whole plan -----

  function StageModules(modules: Modules, enabled: set<string>, kind: Kind): Modules
    requires enabled <= modules.Keys
  {
    map id | id in enabled && modules[id].kind == kind :: modules[id]
  }

  /** No module depends on a module of a later stage. */
  ghost predicate StagesMonotone(modules: Modules, enabled: set<string>)
    requires enabled <= modules.Keys
  {
    forall id, d :: id in enabled && d in DependencyIds(modules[id]) && d in enabled ==>
      StageIndex(modules[d].kind) <= StageIndex(modules[id].kind)
  }

  /** What a set of enabled modules must satisfy to have a plan. */
  ghost predicate Plannable(modules: Modules, enabled: set<string>) {
    && DependenciesMet(modules, enabled)
    && Acyclic(EnabledGraph(modules, enabled))
    && StagesMonotone(modules, enabled)
  }

  function StepOf(definition: Definition): ExecutionStep {
    ExecutionStep(
      definition.moduleId, definition.kind, definition.artifactSchemas,
      seq(|definition.dependencies|, i requires 0 <= i < |definition.dependencies| =>
            definition.dependencies[i].moduleId))
  }

  function StepIds(steps: seq<ExecutionStep>): seq<string> {
    seq(|steps|, i requires 0 <= i < |steps| => steps[i].moduleId)
  }

  /** The plan's stages one after the other. */
  function Concatenated(plan: ExecutionPlan): seq<string>
    requires forall k :: k in STAGE_ORDER ==> k in plan
  {
    StepIds(plan[Signal]) + StepIds(plan[Detector]) + StepIds(plan[Rule]) + StepIds(plan[Output])
  }

  /** One stage of the plan: the least topological order of the enabled modules of that kind. */
  ghost predicate IsStage(modules: Modules, enabled: set<string>, kind: Kind, steps: seq<ExecutionStep>)
    requires enabled <= modules.Keys
  {
    && StepIds(steps) == Greedy(StageGraph(StageModules(modules, enabled, kind)), {})
    && forall step :: step in steps ==> step.moduleId in enabled && step == StepOf(modules[step.moduleId])
  }

  ghost predicate IsPlan(modules: Modules, enabled: set<string>, plan: ExecutionPlan)
    requires enabled <= modules.Keys
  {
    && (forall k: Kind :: k in plan)
    && (forall k: Kind :: IsStage(modules, enabled, k, plan[k]))
  }

  method ValidateStageDependencies(modules: Modules, enabled: set<string>) returns (error: Option<PlanError>)
    requires enabled <= modules.Keys
    ensures error.None? <==> StagesMonotone(modules, enabled)
    ensures error.Some? ==>
              && error.value.LaterStage? && error.value.id in enabled && error.value.dependencyId in enabled
              && error.value.dependencyId in DependencyIds(modules[error.value.id])
              && StageIndex(modules[error.value.dependencyId].kind) > StageIndex(modules[error.value.id].kind)
  {
    var todo := enabled;
    while todo != {}
      invariant todo <= enabled
      invariant forall id, d :: id in enabled - todo && d in DependencyIds(modules[id]) && d in enabled ==>
                  StageIndex(modules[d].kind) <= StageIndex(modules[id].kind)
      decreases todo
    {
      var id :| id in todo;
      var deps := modules[id].dependencies;
      var i := 0;
      while i < |deps|
        invariant i <= |deps|
        invariant forall k :: 0 <= k < i && deps[k].moduleId in enabled ==>
                    StageIndex(modules[deps[k].moduleId].kind) <= StageIndex(modules[id].kind)
      {
        var d := deps[i].moduleId;
        if d in enabled && StageIndex(modules[d].kind) > StageIndex(modules[id].kind) {
          assert d in DependencyIds(modules[id]);
          return Some(LaterStage(id, d));
        }
        i := i + 1;
      }
      todo := todo - {id};
    }
    return None;
  }

  /** One stage of the loop: after validation its cycle error cannot occur. */
  method PlanStage(modules: Modules, enabled: set<string>, kind: Kind) returns (steps: seq<ExecutionStep>)
    requires WellKeyed(modules) && enabled <= modules.Keys
    requires Acyclic(EnabledGraph(modules, enabled))
    ensures IsStage(modules, enabled, kind, steps)
  {
    var stage := StageModules(modules, enabled, kind);
    StageIsRestriction(modules, enabled, kind);
    RestrictAcyclic(EnabledGraph(modules, enabled), stage.Keys);
    var result := OrderStage(stage);
    assert result.Ok?;
    var ordered := result.value;
    steps := seq(|ordered|, i requires 0 <= i < |ordered| => StepOf(ordered[i]));
    assert StepIds(steps) == ModuleIds(ordered);
    forall step | step in steps ensures step.moduleId in enabled && step == StepOf(modules[step.moduleId]) {
      var i :| 0 <= i < |steps| && steps[i] == step;
      assert ordered[i] in ordered;
    }
  }

  lemma StageIsRestriction(modules: Modules, enabled: set<string>, kind: Kind)
    requires enabled <= modules.Keys
    ensures var stage := StageModules(modules, enabled, kind);
            StageGraph(stage) == Restrict(EnabledGraph(modules, enabled), stage.Keys)
  {
    var stage := StageModules(modules, enabled, kind);
    forall id | id in stage
      ensures StageGraph(stage)[id] == Restrict(EnabledGraph(modules, enabled), stage.Keys)[id]
    {
      assert DependencyIds(modules[id]) * enabled * stage.Keys == DependencyIds(modules[id]) * stage.Keys;
    }
  }

  /** A plan exists exactly when the enabled modules are known, complete, acyclic and stage-monotone;
      it then lists each of them once, dependencies strictly first. The cycle error of a stage never shows. */
  method BuildExecutionPlan(registry: ModuleRegistry, enabledIds: seq<string>)
    returns (result: Result<ExecutionPlan, PlanError>)
    requires WellKeyed(registry.modules)
    ensures result.Ok? <==> Plannable(registry.modules, Elements(enabledIds))
    ensures result.Ok? ==>
              && IsPlan(registry.modules, Elements(enabledIds), result.value)
              && Topological(EnabledGraph(registry.modules, Elements(enabledIds)), Concatenated(result.value))
    ensures result.Err? ==> result.error != StageCycle
    ensures result.Err? && result.error.LaterStage? ==>
              DependenciesMet(registry.modules, Elements(enabledIds)) &&
              Acyclic(EnabledGraph(registry.modules, Elements(enabledIds)))
  {
    hide *;
    var modules, enabled := registry.modules, Elements(enabledIds);
    var error := registry.ValidateDependencies(enabledIds);
    PlannableParts(modules, enabled);
    if error.Some? {
      return Err(error.value);
    }
    error := ValidateStageDependencies(modules, enabled);
    if error.Some? {
      return Err(error.value);
    }
    var plan: ExecutionPlan := map[];
    var i := 0;
    while i < |STAGE_ORDER|
      invariant i <= |STAGE_ORDER|
      invariant forall j :: 0 <= j < i ==>
                  STAGE_ORDER[j] in plan && IsStage(modules, enabled, STAGE_ORDER[j], plan[STAGE_ORDER[j]])
    {
      var steps := PlanStage(modules, enabled, STAGE_ORDER[i]);
      StagesDiffer(i);
      plan := plan[STAGE_ORDER[i] := steps];
      i := i + 1;
    }
    AllStages(modules, enabled, plan);
    PlanIsTopological(modules, enabled, plan);
    return Ok(plan);
  }

  lemma StagesDiffer(i: nat)
    requires i < |STAGE_ORDER|
    ensures forall j :: 0 <= j < i ==> STAGE_ORDER[j] != STAGE_ORDER[i]
  {
  }

  lemma PlannableParts(modules: Modules, enabled: set<string>)
    ensures DependenciesMet(modules, enabled) ==> enabled <= modules.Keys
    ensures Plannable(modules, enabled) <==>
              DependenciesMet(modules, enabled) && Acyclic(EnabledGraph(modules, enabled))
                && StagesMonotone(modules, enabled)
  {
  }

  lemma AllStages(modules: Modules, enabled: set<string>, plan: ExecutionPlan)
    requires enabled <= modules.Keys
    requires forall j :: 0 <= j < |STAGE_ORDER| ==>
               STAGE_ORDER[j] in plan && IsStage(modules, enabled, STAGE_ORDER[j], plan[STAGE_ORDER[j]])
    ensures IsPlan(modules, enabled, plan)
  {
    forall k: Kind ensures k in plan && IsStage(modules, enabled, k, plan[k]) {
      assert STAGE_ORDER[StageIndex(k)] == k;
    }
  }

  // ----- Stages put together -----

  lemma NoDuplicatesConcat<T>(a: seq<T>, b: seq<T>)
    requires NoDuplicates(a) && NoDuplicates(b) && Elements(a) !! Elements(b)
    ensures NoDuplicates(a + b)
  {
    assert forall i :: 0 <= i < |a| ==> a[i] in Elements(a);
    assert forall i :: 0 <= i < |b| ==> b[i] in Elements(b);
  }

  /** An order of a subgraph serves the whole graph once everything outside it is done. */
  lemma {:induction false} LiftRespects(g: Graph, nodes: set<string>, outside: set<string>, done: set<string>,
                                        order: seq<string>)
    requires RespectsFrom(Restrict(g, nodes), done, order)
    requires forall n :: n in nodes && n in g ==> g[n] - nodes <= outside
    ensures RespectsFrom(g, outside + done, order)
    decreases |order|
  {
    if |order| > 0 {
      assert order[0] in g && g[order[0]] <= outside + done;
      LiftRespects(g, nodes, outside, done + {order[0]}, order[1..]);
      assert outside + (done + {order[0]}) == (outside + done) + {order[0]};
    }
  }

  /** The enabled modules of the stages before `n`. */
  ghost function Before(modules: Modules, enabled: set<string>, n: nat): set<string>
    requires enabled <= modules.Keys
  {
    set id | id in enabled && StageIndex(modules[id].kind) < n
  }

  /** One more stage: what was listed so far, then the stage of that index. */
  lemma AppendStage(modules: Modules, enabled: set<string>, n: nat, listed: seq<string>, steps: seq<ExecutionStep>)
    requires n < |STAGE_ORDER| && Plannable(modules, enabled)
    requires IsStage(modules, enabled, STAGE_ORDER[n], steps)
    requires enabled <= modules.Keys
    requires var g := EnabledGraph(modules, enabled);
             NoDuplicates(listed) && Elements(listed) == Before(modules, enabled, n) && RespectsDependencies(g, listed)
    ensures var g := EnabledGraph(modules, enabled);
            var longer := listed + StepIds(steps);
            NoDuplicates(longer) && Elements(longer) == Before(modules, enabled, n + 1)
              && RespectsDependencies(g, longer)
  {
    hide *;
    var g := EnabledGraph(modules, enabled);
    var stage := StageModules(modules, enabled, STAGE_ORDER[n]).Keys;
    var ids := StepIds(steps);
    PlannableParts(modules, enabled);
    StageTopological(modules, enabled, STAGE_ORDER[n], steps);
    StageMembers(modules, enabled, n);
    LiftRespects(g, stage, Before(modules, enabled, n), {}, ids);
    assert Before(modules, enabled, n) + {} == {} + Elements(listed);
    RespectsSplit(g, {}, listed, ids);
    RespectsMeans(g, listed);
    RespectsMeans(g, listed + ids);
    ElementsConcat(listed, ids);
    NoDuplicatesConcat(listed, ids);
  }

  lemma StageTopological(modules: Modules, enabled: set<string>, kind: Kind, steps: seq<ExecutionStep>)
    requires enabled <= modules.Keys && Acyclic(EnabledGraph(modules, enabled))
             && IsStage(modules, enabled, kind, steps)
    ensures var stage := StageModules(modules, enabled, kind).Keys;
            && NoDuplicates(StepIds(steps)) && Elements(StepIds(steps)) == stage
            && RespectsFrom(Restrict(EnabledGraph(modules, enabled), stage), {}, StepIds(steps))
  {
    var stage := StageModules(modules, enabled, kind);
    StageIsRestriction(modules, enabled, kind);
    RestrictAcyclic(EnabledGraph(modules, enabled), stage.Keys);
    GreedyCompleteIffAcyclic(StageGraph(stage));
  }

  lemma RespectsMeans(g: Graph, order: seq<string>)
    ensures RespectsDependencies(g, order) <==> RespectsFrom(g, {}, order)
  {
  }

  lemma StageMembers(modules: Modules, enabled: set<string>, n: nat)
    requires n < |STAGE_ORDER| && enabled <= modules.Keys && StagesMonotone(modules, enabled)
    ensures var stage := StageModules(modules, enabled, STAGE_ORDER[n]).Keys;
            var g := EnabledGraph(modules, enabled);
            && Before(modules, enabled, n) !! stage
            && Before(modules, enabled, n + 1) == Before(modules, enabled, n) + stage
            && forall m :: m in stage && m in g ==> g[m] - stage <= Before(modules, enabled, n)
  {
    assert forall k: Kind :: StageIndex(k) == n <==> k == STAGE_ORDER[n];
  }

  /** Concatenating the stages of a plan lists every enabled module once and every dependency
      strictly before its dependent, within a stage and across stages. */
  lemma PlanIsTopological(modules: Modules, enabled: set<string>, plan: ExecutionPlan)
    requires Plannable(modules, enabled) && IsPlan(modules, enabled, plan)
    ensures Topological(EnabledGraph(modules, enabled), Concatenated(plan))
  {
    hide Acyclic, Plannable, IsStage, RespectsFrom, NoDuplicates, Elements, StepIds;
    PlannableParts(modules, enabled);
    Nothing(modules, enabled);
    AppendStage(modules, enabled, 0, [], plan[Signal]);
    AppendStage(modules, enabled, 1, [] + StepIds(plan[Signal]), plan[Detector]);
    var two := [] + StepIds(plan[Signal]) + StepIds(plan[Detector]);
    AppendStage(modules, enabled, 2, two, plan[Rule]);
    AppendStage(modules, enabled, 3, two + StepIds(plan[Rule]), plan[Output]);
    assert [] + StepIds(plan[Signal]) == StepIds(plan[Signal]);
    assert Before(modules, enabled, 4) == enabled;
  }

  lemma Nothing(modules: Modules, enabled: set<string>)
    requires enabled <= modules.Keys
    ensures NoDuplicates<string>([]) && Elements<string>([]) == Before(modules, enabled, 0)
    ensures RespectsDependencies(EnabledGraph(modules, enabled), [])
  {
  }

  /** No other topological order of a stage comes before the planned one, so the plan depends only on
      which modules are enabled, not on the order or the repetitions in which they are listed. */
  lemma StageIsLeast(modules: Modules, enabled: set<string>, plan: ExecutionPlan, kind: Kind, order: seq<string>)
    requires enabled <= modules.Keys && IsPlan(modules, enabled, plan)
    requires Topological(StageGraph(StageModules(modules, enabled, kind)), order)
    ensures OrderLe(StepIds(plan[kind]), order)
  {
    GreedyIsLeast(StageGraph(StageModules(modules, enabled, kind)), order);
  }

  lemma PlanIsUnique(modules: Modules, enabled: set<string>, plan: ExecutionPlan, other: ExecutionPlan)
    requires enabled <= modules.Keys && IsPlan(modules, enabled, plan) && IsPlan(modules, enabled, other)
    ensures plan == other
  {
    forall k: Kind ensures plan[k] == other[k] {
      assert IsStage(modules, enabled, k, plan[k]) && IsStage(modules, enabled, k, other[k]);
      assert |StepIds(plan[k])| == |plan[k]| && |StepIds(other[k])| == |other[k]|;
      forall i | 0 <= i < |plan[k]| ensures plan[k][i] == other[k][i] {
        assert StepIds(plan[k])[i] == StepIds(other[k])[i];
        assert plan[k][i] in plan[k] && other[k][i] in other[k];
      }
    }
    assert plan.Keys == other.Keys;
  }
}
