/** The module registry of the analysis engine and its dependency validation. */
module Registry {
  import opened Ordering
  import opened DependencyGraph

  datatype Kind = Signal | Detector | Rule | Output

  datatype ArtifactSchema = ArtifactSchema(name: string, schema: string, version: string)

  /** A module needs the artifact `artifactName` that `moduleId` emits. */
  datatype Dependency = Dependency(moduleId: string, artifactName: string)

  datatype Definition = Definition(
    moduleId: string,
    kind: Kind,
    dependencies: seq<Dependency>,
    artifactSchemas: seq<ArtifactSchema>,
    enabledByDefault: bool,
    stateSchemaId: Option<string>,
    stateSchemaVersion: Option<string>)

  /** The `ValueError`s of registration, validation and planning. */
  datatype PlanError =
    | DuplicateModule(id: string)
    | UnknownModule(id: string)
    | MissingDependency(id: string, dependency: Dependency)
    | DependencyCycle(id: string)
    | LaterStage(id: string, dependencyId: string)
    | StageCycle

  type Modules = map<string, Definition>

  /** Every registered definition carries the name it is registered under. */
  ghost predicate WellKeyed(modules: Modules) {
    forall id :: id in modules ==> modules[id].moduleId == id
  }

  function DependencyIds(definition: Definition): set<string> {
    set d | d in definition.dependencies :: d.moduleId
  }

  /** The dependency relation among the enabled modules. */
  function EnabledGraph(modules: Modules, enabled: set<string>): Graph
    requires enabled <= modules.Keys
  {
    map id | id in enabled :: DependencyIds(modules[id]) * enabled
  }

  /** All enabled modules are registered, and so enabled are all their dependencies. */
  ghost predicate DependenciesMet(modules: Modules, enabled: set<string>) {
    enabled <= modules.Keys && forall id :: id in enabled ==> DependencyIds(modules[id]) <= enabled
  }

  /** The depth-first search of `_validate_cycles`: the two sets its recursive closure shares. */
  class CycleSearch {
    const modules: Modules
    const enabled: set<string>
    var visiting: set<string>
    var visited: set<string>
    ghost var finished: seq<string>  // visited nodes in the order their calls returned

    constructor (modules: Modules, enabled: set<string>)
      requires enabled <= modules.Keys
      ensures this.modules == modules && this.enabled == enabled
      ensures Valid() && visiting == {} && visited == {}
    {
      this.modules, this.enabled := modules, enabled;
      visiting, visited, finished := {}, {}, [];
    }

    ghost function Edges(): Graph
      requires enabled <= modules.Keys
    {
      EnabledGraph(modules, enabled)
    }

    /** What is visited has been shown free of cycles: it is listed dependencies first. */
    ghost predicate Valid()
      reads this
    {
      && enabled <= modules.Keys
      && visiting !! visited
      && visiting + visited <= enabled
      && visited <= Elements(finished)
      && RespectsDependencies(Edges(), finished)
    }

    /** `path` is a walk along dependencies through the open calls, ending in `current`. */
    ghost predicate OnPath(current: string, path: seq<string>)
      reads this
    {
      && enabled <= modules.Keys
      && Walk(Edges(), path)
      && path[|path| - 1] == current
      && visiting <= Elements(path[..|path| - 1])
    }

    ghost predicate AllVisited(deps: seq<Dependency>, n: nat)
      requires n <= |deps|
      reads this
    {
      forall k :: 0 <= k < n && deps[k].moduleId in enabled ==> deps[k].moduleId in visited
    }

    /** Either `current` ends up visited, or it names a node on a cycle. */
    method Dfs(current: string, ghost path: seq<string>) returns (error: Option<PlanError>)
      requires Valid() && OnPath(current, path)
      modifies this
      ensures error.None? ==>
                && Valid() && visiting == old(visiting)
                && old(visited) <= visited && current in visited
      ensures error.Some? ==> error.value.DependencyCycle? && OnCycle(Edges(), error.value.id)
      decreases |enabled| - |visiting|, 0
    {
      if current in visited {
        return None;
      }
      if current in visiting {
        CycleOnPath(path);
        return Some(DependencyCycle(current));
      }
      EnterCall(current, path);
      visiting := visiting + {current};
      error := VisitDependencies(current, path);
      if error.None? {
        Finish(current, old(visiting));
      }
    }

    /** The loop of the call for `current`, between entering it and leaving it. */
    method VisitDependencies(current: string, ghost path: seq<string>) returns (error: Option<PlanError>)
      requires Valid() && current in visiting && visiting <= Elements(path)
      requires Walk(Edges(), path) && path[|path| - 1] == current
      modifies this
      ensures error.None? ==>
                && Valid() && visiting == old(visiting)
                && old(visited) <= visited && AllVisited(modules[current].dependencies, |modules[current].dependencies|)
      ensures error.Some? ==> error.value.DependencyCycle? && OnCycle(Edges(), error.value.id)
      decreases |enabled| - |visiting|, 1
    {
      var deps := modules[current].dependencies;
      var i := 0;
      while i < |deps|
        invariant i <= |deps|
        invariant Valid() && visiting == old(visiting) && old(visited) <= visited
        invariant AllVisited(deps, i)
      {
        if deps[i].moduleId in enabled {
          ExtendPath(current, path, i);
          error := Dfs(deps[i].moduleId, path + [deps[i].moduleId]);
          if error.Some? {
            return;
          }
        }
        i := i + 1;
      }
      return None;
    }

    /** Leaving the call: all dependencies are visited, so `current` comes next in the listing. */
    method Finish(current: string, ghost before: set<string>)
      requires Valid() && current in visiting
               && AllVisited(modules[current].dependencies, |modules[current].dependencies|)
      requires visiting == before + {current} && current !in before
      modifies this
      ensures Valid() && visiting == before && visited == old(visited) + {current}
    {
      assert Edges()[current] <= visited;
      visiting := visiting - {current};
      visited := visited + {current};
      ElementsConcat(finished, [current]);
      RespectsSnoc(Edges(), finished, current);
      finished := finished + [current];
    }

    lemma EdgesAre()
      requires enabled <= modules.Keys
      ensures Edges() == EnabledGraph(modules, enabled)
    {
    }

    lemma StartCall(id: string)
      requires Valid() && visiting == {} && id in enabled
      ensures enabled <= modules.Keys && OnPath(id, [id])
    {
      assert [id][..0] == [];
    }

    lemma Concludes()
      requires Valid() && enabled <= visited
      ensures enabled <= modules.Keys && Acyclic(Edges())
    {
      ListedImpliesAcyclic(Edges(), finished);
    }

    lemma EnterCall(current: string, path: seq<string>)
      requires Valid() && OnPath(current, path) && current !in visiting + visited
      ensures current in enabled && visiting + {current} <= Elements(path)
      ensures |visiting + {current}| == |visiting| + 1 <= |enabled|
    {
      var below := path[..|path| - 1];
      assert path == below + [current];
      ElementsConcat(below, [current]);
      WalkEnd(Edges(), path);
      SubsetCardinality(visiting + {current}, enabled);
    }

    lemma ExtendPath(current: string, path: seq<string>, k: nat)
      requires Valid() && Walk(Edges(), path) && path[|path| - 1] == current && visiting <= Elements(path)
      requires current in modules && k < |modules[current].dependencies|
      requires modules[current].dependencies[k].moduleId in enabled
      ensures var next := modules[current].dependencies[k].moduleId; OnPath(next, path + [next])
    {
      var d := modules[current].dependencies[k];
      assert d in modules[current].dependencies;
      WalkEnd(Edges(), path);
      WalkSnoc(Edges(), path, d.moduleId);
      assert (path + [d.moduleId])[..|path|] == path;
    }

    lemma CycleOnPath(path: seq<string>)
      requires enabled <= modules.Keys && Walk(Edges(), path)
      requires path[|path| - 1] in path[..|path| - 1]
      ensures OnCycle(Edges(), path[|path| - 1])
    {
      var i :| 0 <= i < |path| - 1 && path[..|path| - 1][i] == path[|path| - 1];
      WalkSuffix(Edges(), path, i);
      assert Cycle(Edges(), path[i..]) && path[i..][0] == path[|path| - 1];
    }
  }

  ghost predicate OnCycle(g: Graph, node: string) {
    exists p :: Cycle(g, p) && p[0] == node
  }

  lemma CyclicIfOnCycle(g: Graph, node: string)
    requires OnCycle(g, node)
    ensures !Acyclic(g)
  {
  }

  lemma RespectsSnoc(g: Graph, order: seq<string>, last: string)
    requires RespectsDependencies(g, order) && last in g && g[last] <= Elements(order)
    ensures RespectsDependencies(g, order + [last])
  {
    RespectsSplit(g, {}, order, [last]);
    assert {} + Elements(order) == Elements(order);
  }

  class ModuleRegistry {
    var modules: Modules
    /** The ids in the order in which the modules are listed. */
    var order: seq<string>

    constructor ()
      ensures modules == map[] && order == []
    {
      modules, order := map[], [];
    }

    /** Registering a list of modules: the first name met twice is refused. The modules are then listed by their ids, in
        whatever order they came. */
    method Register(definitions: seq<Definition>) returns (error: Option<PlanError>)
      requires modules == map[] && order == []
      modifies this
      ensures WellKeyed(modules)
      ensures error.None? <==> NoDuplicates(ModuleIds(definitions))
      ensures error.None? ==>
                && modules.Keys == Elements(ModuleIds(definitions))
                && (forall d :: d in definitions ==> d.moduleId in modules && modules[d.moduleId] == d)
                && StrictlyIncreasing(order) && Elements(order) == modules.Keys
      ensures error.Some? ==>
                && error.value.DuplicateModule?
                && exists i, j :: 0 <= i < j < |definitions| &&
                                  definitions[i].moduleId == definitions[j].moduleId == error.value.id
    {
      var i := 0;
      while i < |definitions|
        invariant i <= |definitions|
        invariant WellKeyed(modules) && order == ModuleIds(definitions)[..i]
        invariant forall id :: id in modules <==> id in ModuleIds(definitions)[..i]
        invariant forall k :: 0 <= k < i ==> modules[ModuleIds(definitions)[k]] == definitions[k]
        invariant NoDuplicates(ModuleIds(definitions)[..i])
      {
        var id := definitions[i].moduleId;
        if id in modules {
          var j :| 0 <= j < i && ModuleIds(definitions)[j] == id;
          assert ModuleIds(definitions)[j] == ModuleIds(definitions)[i];
          return Some(DuplicateModule(id));
        }
        assert ModuleIds(definitions)[..i + 1] == ModuleIds(definitions)[..i] + [id];
        modules := modules[id := definitions[i]];
        order := order + [id];
        i := i + 1;
      }
      assert ModuleIds(definitions)[..i] == ModuleIds(definitions);
      order := Sorted(Elements(order));
      return None;
    }

    /** No exception exactly when every enabled module and every dependency of one is enabled and known. */
    method ValidateMissingDependencies(enabled: set<string>) returns (error: Option<PlanError>)
      ensures error.None? <==> DependenciesMet(modules, enabled)
      ensures error.Some? ==> match error.value
                                case UnknownModule(id) => id in enabled && id !in modules
                                case MissingDependency(id, d) =>
                                  id in enabled && id in modules && d in modules[id].dependencies
                                    && d.moduleId !in enabled
                                case _ => false
    {
      var todo := enabled;
      while todo != {}
        invariant todo <= enabled
        invariant forall id :: id in enabled - todo ==> id in modules && DependencyIds(modules[id]) <= enabled
        decreases todo
      {
        var id :| id in todo;
        if id !in modules {
          return Some(UnknownModule(id));
        }
        var deps := modules[id].dependencies;
        var i := 0;
        while i < |deps|
          invariant i <= |deps|
          invariant forall k :: 0 <= k < i ==> deps[k].moduleId in enabled
        {
          if deps[i].moduleId !in enabled {
            assert deps[i].moduleId in DependencyIds(modules[id]);
            return Some(MissingDependency(id, deps[i]));
          }
          i := i + 1;
        }
        todo := todo - {id};
      }
      return None;
    }

    /** The search raises exactly on graphs with a cycle, and names a node that lies on one. */
    method ValidateCycles(enabled: set<string>) returns (error: Option<PlanError>)
      requires enabled <= modules.Keys
      ensures error.None? <==> Acyclic(EnabledGraph(modules, enabled))
      ensures error.Some? ==> error.value.DependencyCycle? && OnCycle(EnabledGraph(modules, enabled), error.value.id)
    {
      hide *;
      var search := new CycleSearch(modules, enabled);
      var ids := Sorted(enabled);
      var i := 0;
      while i < |ids|
        invariant i <= |ids|
        invariant search.modules == modules && search.enabled == enabled
        invariant search.Valid() && search.visiting == {}
        invariant forall k :: 0 <= k < i ==> ids[k] in search.visited
      {
        SortedMember(enabled, i);
        search.StartCall(ids[i]);
        error := search.Dfs(ids[i], [ids[i]]);
        if error.Some? {
          CyclicIfOnCycle(search.Edges(), error.value.id);
          search.EdgesAre();
          return;
        }
        i := i + 1;
      }
      SortedCovers(enabled, search.visited);
      search.Concludes();
      search.EdgesAre();
      return None;
    }

    /** Both checks in turn: what is enabled is then known, complete and free of cycles. */
    method ValidateDependencies(enabledIds: seq<string>) returns (error: Option<PlanError>)
      ensures var enabled := Elements(enabledIds);
              && (error.None? <==> DependenciesMet(modules, enabled) && Acyclic(EnabledGraph(modules, enabled)))
              && (error.Some? ==>
                    error.value.UnknownModule? || error.value.MissingDependency? || error.value.DependencyCycle?)
              && (error.Some? && error.value.DependencyCycle? ==>
                    DependenciesMet(modules, enabled) && OnCycle(EnabledGraph(modules, enabled), error.value.id))
    {
      error := ValidateMissingDependencies(Elements(enabledIds));
      if error.None? {
        error := ValidateCycles(Elements(enabledIds));
      }
    }
  }

  function ModuleIds(definitions: seq<Definition>): seq<string> {
    seq(|definitions|, i requires 0 <= i < |definitions| => definitions[i].moduleId)
  }
}
