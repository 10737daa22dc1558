/** What a plan makes of the definitions of the modules, told by their fields. */
module PlanMeaning {
  import opened Ordering
  import opened DependencyGraph
  import opened Registry
  import opened Planning

  ghost predicate DependsOn(modules: Modules, id: string, d: string) {
    id in modules && exists k :: 0 <= k < |modules[id].dependencies| && modules[id].dependencies[k].moduleId == d
  }

  /** Signals come first, then detectors, then rules, then outputs. */
  predicate Earlier(a: Kind, b: Kind) {
    match a
    case Signal => b != Signal
    case Detector => b == Rule || b == Output
    case Rule => b == Output
    case Output => false
  }

  /** Enabled modules each of which depends on the next, back to the first. */
  ghost predicate Round(modules: Modules, enabled: set<string>, p: seq<string>) {
    && |p| > 1 && p[0] == p[|p| - 1]
    && (forall i :: 0 <= i < |p| ==> p[i] in enabled)
    && (forall i, j :: 0 <= i < |p| - 1 && j == i + 1 ==> DependsOn(modules, p[i], p[j]))
  }

  /** No module depends on one that is not enabled, or on one of a later kind. */
  ghost predicate Sound(modules: Modules, enabled: set<string>) {
    forall id :: id in enabled ==>
      && id in modules
      && forall d :: DependsOn(modules, id, d) ==>
           d in enabled && (d in modules ==> !Earlier(modules[id].kind, modules[d].kind))
  }

  lemma DependsExactly(modules: Modules, id: string)
    requires id in modules
    ensures forall d :: d in DependencyIds(modules[id]) <==> DependsOn(modules, id, d)
  {
    forall d ensures d in DependencyIds(modules[id]) <==> DependsOn(modules, id, d) {
      if DependsOn(modules, id, d) {
        var k :| 0 <= k < |modules[id].dependencies| && modules[id].dependencies[k].moduleId == d;
        assert modules[id].dependencies[k] in modules[id].dependencies;
      }
    }
  }

  lemma {:induction false} WalkTells(g: Graph, p: seq<string>)
    ensures Walk(g, p) <==>
              && |p| > 0 && (forall i :: 0 <= i < |p| ==> p[i] in g)
              && forall i, j :: 0 <= i < |p| - 1 && j == i + 1 ==> p[j] in g[p[i]]
  {
    if |p| > 1 {
      WalkTells(g, p[1..]);
      if Walk(g, p) {
        forall i | 0 <= i < |p| ensures p[i] in g {
          if i > 0 { assert p[1..][i - 1] in g; }
        }
        forall i, j | 0 <= i < |p| - 1 && j == i + 1 ensures p[j] in g[p[i]] {
          if i > 0 { assert p[1..][j - 1] in g[p[1..][i - 1]]; }
        }
      }
    }
  }

  lemma CycleTells(modules: Modules, enabled: set<string>, p: seq<string>)
    requires enabled <= modules.Keys
    ensures Cycle(EnabledGraph(modules, enabled), p) <==> Round(modules, enabled, p)
  {
    hide Walk;
    var g := EnabledGraph(modules, enabled);
    WalkTells(g, p);
    if forall i :: 0 <= i < |p| ==> p[i] in enabled {
      forall i, j | 0 <= i < |p| - 1 && j == i + 1
        ensures p[j] in g[p[i]] <==> DependsOn(modules, p[i], p[j])
      {
        DependsExactly(modules, p[i]);
      }
    }
  }

  /** A set of modules has a plan exactly if it is complete, no module depends on one of a later kind, and no chain of
      dependencies returns to its start. */
  lemma PlannableExactly(modules: Modules, enabled: set<string>)
    ensures Plannable(modules, enabled) <==> Sound(modules, enabled) && forall p :: !Round(modules, enabled, p)
  {
    hide Acyclic, Round, Cycle;
    forall id | id in enabled && id in modules
      ensures forall d :: d in DependencyIds(modules[id]) <==> DependsOn(modules, id, d)
    {
      DependsExactly(modules, id);
    }
    assert Sound(modules, enabled) <==> DependenciesMet(modules, enabled) && StagesMonotone(modules, enabled) by {
      hide DependencyIds, DependsOn;
      LaterIs();
    }
    if enabled <= modules.Keys {
      forall p ensures Cycle(EnabledGraph(modules, enabled), p) <==> Round(modules, enabled, p) {
        CycleTells(modules, enabled, p);
      }
      AcyclicMeans(EnabledGraph(modules, enabled));
    }
  }

  lemma LaterIs()
    ensures forall a: Kind, b: Kind :: Earlier(a, b) <==> StageIndex(a) < StageIndex(b)
  {
  }

  lemma AcyclicMeans(g: Graph)
    ensures Acyclic(g) <==> forall p :: !Cycle(g, p)
  {
  }

  // ----- The stages -----

  /** One of the first `n` steps is that of the module. */
  ghost predicate Listed(steps: seq<ExecutionStep>, n: nat, id: string) {
    exists j :: 0 <= j < n && j < |steps| && steps[j].moduleId == id
  }

  /** What the module needs within its stage is among the first `n` steps. */
  ghost predicate Served(modules: Modules, enabled: set<string>, kind: Kind, steps: seq<ExecutionStep>, n: nat,
                         id: string)
  {
    forall d :: DependsOn(modules, id, d) && d in enabled && d in modules && modules[d].kind == kind ==>
      Listed(steps, n, d)
  }

  /** An enabled module of the kind that is not among the first `n` steps, while all it needs within the stage is. */
  ghost predicate Waits(modules: Modules, enabled: set<string>, kind: Kind, steps: seq<ExecutionStep>, n: nat,
                        id: string)
  {
    && id in enabled && id in modules && modules[id].kind == kind
    && !Listed(steps, n, id) && Served(modules, enabled, kind, steps, n, id)
  }

  /** A step names a module and carries its kind, its artifacts and what it depends on, in order. */
  ghost predicate Carries(modules: Modules, step: ExecutionStep, id: string) {
    && id in modules && step.moduleId == id && step.kind == modules[id].kind
    && step.artifactSchemas == modules[id].artifactSchemas
    && |step.dependencies| == |modules[id].dependencies|
    && forall i :: 0 <= i < |step.dependencies| ==> step.dependencies[i] == modules[id].dependencies[i].moduleId
  }

  lemma {:induction false} GreedyAt(g: Graph, done: set<string>, i: nat)
    requires i < |Greedy(g, done)|
    ensures var taken := done + Elements(Greedy(g, done)[..i]);
            Ready(g, taken) != {} && Greedy(g, done)[i] == Least(Ready(g, taken))
    decreases i
  {
    hide Greedy, Elements;
    GreedyEmpty(g, done);
    var next := Least(Ready(g, done));
    GreedyStep(g, done);
    var rest := Greedy(g, done + {next});
    if i == 0 {
      NoElements();
      assert Greedy(g, done)[..0] == [] && done + {} == done;
    } else {
      GreedyAt(g, done + {next}, i - 1);
      assert Greedy(g, done)[..i] == [next] + rest[..i - 1];
      ElementsCons(next, rest[..i - 1]);
      assert done + ({next} + Elements(rest[..i - 1])) == (done + {next}) + Elements(rest[..i - 1]);
    }
  }

  lemma GreedyEmpty(g: Graph, done: set<string>)
    ensures Greedy(g, done) != [] ==> Ready(g, done) != {}
  {
  }

  lemma NoElements()
    ensures Elements<string>([]) == {}
  {
  }

  lemma TakenAreListed(steps: seq<ExecutionStep>, n: nat)
    requires n <= |steps|
    ensures forall id :: id in Elements(StepIds(steps)[..n]) <==> Listed(steps, n, id)
  {
    var ids := StepIds(steps);
    forall id ensures id in Elements(ids[..n]) <==> Listed(steps, n, id) {
      if id in ids[..n] {
        var j :| 0 <= j < n && ids[..n][j] == id;
        assert steps[j].moduleId == id;
      }
      if Listed(steps, n, id) {
        var j :| 0 <= j < n && steps[j].moduleId == id;
        assert ids[..n][j] == id;
      }
    }
  }

  /** What is ready after the first `n` steps of a stage. */
  lemma ReadyTells(modules: Modules, enabled: set<string>, kind: Kind, steps: seq<ExecutionStep>, n: nat)
    requires enabled <= modules.Keys && n <= |steps|
    ensures var g := StageGraph(StageModules(modules, enabled, kind));
            forall id :: id in Ready(g, {} + Elements(StepIds(steps)[..n])) <==>
                           Waits(modules, enabled, kind, steps, n, id)
  {
    hide Elements, Listed, DependencyIds, DependsOn;
    var stage := StageModules(modules, enabled, kind);
    var g, taken := StageGraph(stage), {} + Elements(StepIds(steps)[..n]);
    hide StepIds;
    TakenAreListed(steps, n);
    forall id ensures id in Ready(g, taken) <==> Waits(modules, enabled, kind, steps, n, id) {
      if id in stage {
        DependsExactly(modules, id);
        assert g[id] == DependencyIds(modules[id]) * stage.Keys;
      }
    }
  }

  /** Each stage lists the enabled modules of its kind, each once and with its fields; at every place stands the least,
      by its id, of the modules not listed before whose dependencies within the stage are. */
  lemma StageTells(modules: Modules, enabled: set<string>, plan: ExecutionPlan, kind: Kind)
    requires Plannable(modules, enabled) && IsPlan(modules, enabled, plan)
    ensures var steps := plan[kind];
            && (forall step :: step in steps ==> step.moduleId in enabled && step.kind == kind
                                                 && Carries(modules, step, step.moduleId))
            && (forall id :: id in enabled && modules[id].kind == kind ==> Listed(steps, |steps|, id))
            && (forall i, j :: 0 <= i < j < |steps| ==> steps[i].moduleId != steps[j].moduleId)
            && (forall i :: 0 <= i < |steps| ==> Served(modules, enabled, kind, steps, i, steps[i].moduleId))
            && (forall i, id :: 0 <= i < |steps| && Waits(modules, enabled, kind, steps, i, id) ==>
                                  StringLe(steps[i].moduleId, id))
  {
    hide Acyclic, Topological, Greedy, Elements, Listed, Served, StageGraph, RespectsFrom, Ready;
    var steps, stage := plan[kind], StageModules(modules, enabled, kind);
    var g := StageGraph(stage);
    PlannableParts(modules, enabled);
    assert IsStage(modules, enabled, kind, steps);
    StageTopological(modules, enabled, kind, steps);
    TakenAreListed(steps, |steps|);
    assert StepIds(steps)[..|steps|] == StepIds(steps);
    StepsAreOfTheStage(modules, enabled, kind, steps);
    forall i, j | 0 <= i < j < |steps| ensures steps[i].moduleId != steps[j].moduleId {
      assert StepIds(steps)[i] != StepIds(steps)[j];
    }
    forall i | 0 <= i < |steps|
      ensures Served(modules, enabled, kind, steps, i, steps[i].moduleId)
      ensures forall id :: Waits(modules, enabled, kind, steps, i, id) ==> StringLe(steps[i].moduleId, id)
    {
      GreedyAt(g, {}, i);
      ReadyTells(modules, enabled, kind, steps, i);
      assert StepIds(steps)[i] == steps[i].moduleId;
    }
  }

  lemma StepsAreOfTheStage(modules: Modules, enabled: set<string>, kind: Kind, steps: seq<ExecutionStep>)
    requires enabled <= modules.Keys && IsStage(modules, enabled, kind, steps)
    requires Elements(StepIds(steps)) == StageModules(modules, enabled, kind).Keys
    ensures forall step :: step in steps ==> step.moduleId in enabled && step.kind == kind
                                             && Carries(modules, step, step.moduleId)
  {
    forall step | step in steps
      ensures step.moduleId in enabled && step.kind == kind && Carries(modules, step, step.moduleId)
    {
      var i :| 0 <= i < |steps| && steps[i] == step;
      assert StepIds(steps)[i] in Elements(StepIds(steps));
    }
  }
}
