/** How the outcomes of a plan's modules hang together, within a run and from run to run. */
module AnalysisRuns {
  import opened Ordering
  import opened DependencyGraph
  import opened GateAssembly
  import opened Registry
  import opened Planning
  import opened AnalysisEngine

  /** One execution: of these slots, for this gate event, with these module states kept so far. */
  datatype Execution = Execution(setup: Setup, event: GateEvent, slots: seq<Slot>, states: seq<ModuleStateRecord>)

  ghost predicate Valid(x: Execution) {
    Known(x.setup.modules, x.slots) && WellKeyed(x.setup.modules)
  }

  /** How the turn of the i-th module ends. */
  function Outcome(x: Execution, i: nat): Verdict
    requires Valid(x) && i < |x.slots|
  {
    VerdictAt(x.setup, x.event, x.slots, i, x.states)
  }

  function At(x: Execution, n: nat): Progress
    requires Valid(x) && n <= |x.slots|
  {
    ProgressAt(x.setup, x.event, x.slots, n, x.states)
  }

  function DefinitionAt(x: Execution, i: nat): Definition
    requires Valid(x) && i < |x.slots|
  {
    x.setup.modules[x.slots[i].id]
  }

  lemma AtStep(x: Execution, n: nat)
    requires Valid(x) && n < |x.slots|
    ensures At(x, n + 1) == Taken(At(x, n), x.event, DefinitionAt(x, n), Outcome(x, n))
    ensures Outcome(x, n) == VerdictOf(x.setup.code, DefinitionAt(x, n), x.slots[n].stage, ContextOf(x.event),
                                       At(x, n).artifacts, At(x, n).states)
    ensures DefinitionAt(x, n).moduleId == x.slots[n].id
  {
  }

  lemma NothingYet(x: Execution)
    requires Valid(x)
    ensures At(x, 0) == Begin(x.event, x.states)
  {
  }

  // ----- What the artifact store holds -----

  predicate Emits(verdict: Verdict, moduleId: string, name: string) {
    verdict.Succeeded? && exists a :: a in verdict.result.artifacts && a.moduleId == moduleId && a.name == name
  }

  lemma OrderedElements(artifacts: seq<Artifact>)
    ensures forall a :: a in Ordered(artifacts) <==> a in artifacts
  {
    SortPermutes(ByName, artifacts);
    forall a ensures a in Ordered(artifacts) <==> a in artifacts {
      assert a in multiset(Ordered(artifacts)) <==> a in multiset(artifacts);
    }
  }

  /** A module's artifacts are emitted in the order of their names, and those of one name in the order returned. */
  lemma ArtifactsByName(artifacts: seq<Artifact>, name: string)
    ensures multiset(Ordered(artifacts)) == multiset(artifacts) && SortedBy(ByName, Ordered(artifacts))
    ensures Filter((a: Artifact) => a.name == name, Ordered(artifacts))
            == Filter((a: Artifact) => a.name == name, artifacts)
  {
    SortPermutes(ByName, artifacts);
    StringLeIsTotalOrder();
    SortSorts(ByName, artifacts);
    SortIsStable(ByName, (a: Artifact) => a.name == name, artifacts);
  }

  lemma {:induction false} AddAllKeys(artifacts: Artifacts, more: seq<Artifact>, moduleId: string, name: string)
    ensures (moduleId, name) in AddAll(artifacts, more) <==>
              (moduleId, name) in artifacts || exists a :: a in more && a.moduleId == moduleId && a.name == name
  {
    if |more| > 0 {
      var before, last := more[..|more| - 1], more[|more| - 1];
      AddAllKeys(artifacts, before, moduleId, name);
      assert forall a :: a in more <==> a in before || a == last;
    }
  }

  /** The store before the n-th module holds what the modules before it have emitted. */
  lemma {:induction false} StoreHolds(x: Execution, n: nat, moduleId: string, name: string)
    requires Valid(x) && n <= |x.slots|
    ensures (moduleId, name) in At(x, n).artifacts <==> exists j :: 0 <= j < n && Emits(Outcome(x, j), moduleId, name)
  {
    hide Outcome, Ordered, At, VerdictOf, AddAll, EmittedEvents, NewStates;
    NothingYet(x);
    if n > 0 {
      StoreHolds(x, n - 1, moduleId, name);
      AtStep(x, n - 1);
      if Outcome(x, n - 1).Succeeded? {
        var artifacts := Outcome(x, n - 1).result.artifacts;
        AddAllKeys(At(x, n - 1).artifacts, Ordered(artifacts), moduleId, name);
        OrderedElements(artifacts);
      }
    }
  }

  /** A module fails for a missing dependency exactly if one of the artifacts it requires has not been emitted
      earlier in the run. */
  lemma MissingExactly(x: Execution, i: nat)
    requires Valid(x) && i < |x.slots|
    ensures Outcome(x, i).Missing? <==>
              exists d :: d in DefinitionAt(x, i).dependencies &&
                forall j :: 0 <= j < i ==> !Emits(Outcome(x, j), d.moduleId, d.artifactName)
  {
    hide Outcome, At, Emits;
    AtStep(x, i);
    forall d | d in DefinitionAt(x, i).dependencies
      ensures (d.moduleId, d.artifactName) in At(x, i).artifacts
              <==> exists j :: 0 <= j < i && Emits(Outcome(x, j), d.moduleId, d.artifactName)
    {
      StoreHolds(x, i, d.moduleId, d.artifactName);
    }
  }

  // ----- What a module is handed -----

  /** Under the text key of a dependency a module finds the artifact of the last dependency that reads the same. */
  lemma {:induction false} HandedUnderKey(artifacts: Artifacts, dependencies: seq<Dependency>, i: nat)
    requires DependenciesAvailable(artifacts, dependencies) && i < |dependencies|
    requires forall j :: i < j < |dependencies| ==> PayloadKey(dependencies[j]) != PayloadKey(dependencies[i])
    ensures var d := dependencies[i];
            var payloads := DependencyPayloads(artifacts, dependencies);
            PayloadKey(d) in payloads && payloads[PayloadKey(d)] == artifacts[(d.moduleId, d.artifactName)]
  {
    var n := |dependencies| - 1;
    assert dependencies[n] in dependencies;
    if i < n {
      assert forall d :: d in dependencies[..n] ==> d in dependencies;
      HandedUnderKey(artifacts, dependencies[..n], i);
    }
  }

  /** Of two different module ids, some artifacts read the same exactly when one id continues the other after a
      colon, as "a:b" continues "a". */
  lemma KeysCollideExactly(x: string, y: string)
    requires x != y && |x| <= |y|
    ensures (exists n, m :: PayloadKey(Dependency(x, n)) == PayloadKey(Dependency(y, m))) <==> x + ":" <= y
  {
    if n, m :| PayloadKey(Dependency(x, n)) == PayloadKey(Dependency(y, m)) {
      var key := y + ":" + m;
      assert key == x + ":" + n;
      assert x == key[..|x|] == y[..|x|] && y == key[..|y|];
      assert x + ":" == key[..|x| + 1] == y[..|x| + 1];
    }
    if x + ":" <= y {
      var rest := y[|x| + 1..];
      assert y == x + ":" + rest;
      assert x + ":" + (rest + ":") == y + ":" + "";
      assert PayloadKey(Dependency(x, rest + ":")) == PayloadKey(Dependency(y, ""));
    }
  }

  /** Of two dependencies that share a key, the module is handed only the artifact of the later one. */
  lemma LaterIsHanded(artifacts: Artifacts, a: Dependency, b: Dependency)
    requires DependenciesAvailable(artifacts, [a, b]) && PayloadKey(a) == PayloadKey(b)
    ensures DependencyPayloads(artifacts, [a, b]) == map[PayloadKey(b) := artifacts[(b.moduleId, b.artifactName)]]
  {
    var both := [a, b];
    assert both[0] == a && both[1] == b && both[..1] == [a] && [a][..0] == [];
    assert DependencyPayloads(artifacts, both[..1]) == map[PayloadKey(a) := artifacts[(a.moduleId, a.artifactName)]];
  }

  /** Every dependency finds its own artifact under its key. */
  ghost predicate EachIsHanded(artifacts: Artifacts, dependencies: seq<Dependency>)
    requires DependenciesAvailable(artifacts, dependencies)
  {
    var payloads := DependencyPayloads(artifacts, dependencies);
    forall d :: d in dependencies ==>
      PayloadKey(d) in payloads && payloads[PayloadKey(d)] == artifacts[(d.moduleId, d.artifactName)]
  }

  /** Whatever the artifacts, a module is handed all of those it requires exactly when no two of its dependencies share
      a key. */
  lemma EachIsHandedExactly(dependencies: seq<Dependency>)
    ensures (forall artifacts: Artifacts :: DependenciesAvailable(artifacts, dependencies) ==>
               EachIsHanded(artifacts, dependencies))
      <==> forall a, b :: a in dependencies && b in dependencies && PayloadKey(a) == PayloadKey(b) ==> a == b
  {
    if forall a, b :: a in dependencies && b in dependencies && PayloadKey(a) == PayloadKey(b) ==> a == b {
      forall artifacts: Artifacts, d | DependenciesAvailable(artifacts, dependencies) && d in dependencies
        ensures var payloads := DependencyPayloads(artifacts, dependencies);
                PayloadKey(d) in payloads && payloads[PayloadKey(d)] == artifacts[(d.moduleId, d.artifactName)]
      {
        HandedUnderKey(artifacts, dependencies, LastUnderKey(dependencies, d));
      }
    } else {
      var a, b :| a in dependencies && b in dependencies && PayloadKey(a) == PayloadKey(b) && a != b;
      var signed := Signed(dependencies);
      assert signed[(a.moduleId, a.artifactName)] != signed[(b.moduleId, b.artifactName)];
      assert !EachIsHanded(signed, dependencies);
    }
  }

  function LastUnderKey(dependencies: seq<Dependency>, d: Dependency): (i: nat)
    requires d in dependencies
    ensures i < |dependencies| && PayloadKey(dependencies[i]) == PayloadKey(d)
    ensures forall j :: i < j < |dependencies| ==> PayloadKey(dependencies[j]) != PayloadKey(d)
  {
    var n := |dependencies| - 1;
    if PayloadKey(dependencies[n]) == PayloadKey(d) then n else LastUnderKey(dependencies[..n], d)
  }

  /** A store in which every artifact bears the name it is stored under. */
  function Signed(dependencies: seq<Dependency>): Artifacts {
    map d | d in dependencies ::
      (d.moduleId, d.artifactName) := Artifact(SignalArtifact, d.moduleId, d.artifactName, "", "", "")
  }

  // ----- Modules that emit under their own id -----

  /** Whatever a module returns, it returns under its own id. */
  ghost predicate EmitsOwn(code: Code) {
    forall id, context, payloads, state ::
      var result := code(id, context, payloads, state);
      result.Ok? ==> forall a :: a in result.value.artifacts ==> a.moduleId == id
  }

  /** Every module comes once, after all it depends on. */
  ghost predicate InOrder(x: Execution) {
    && Valid(x)
    && (forall i, j :: 0 <= i < j < |x.slots| ==> x.slots[i].id != x.slots[j].id)
    && (forall i, d :: 0 <= i < |x.slots| && d in DefinitionAt(x, i).dependencies ==> ComesBefore(x, i, d.moduleId))
  }

  ghost predicate ComesBefore(x: Execution, i: nat, id: string)
    requires i <= |x.slots|
  {
    exists j :: 0 <= j < i && x.slots[j].id == id
  }

  lemma DependencyBefore(x: Execution, i: nat, d: Dependency) returns (j: nat)
    requires InOrder(x) && i < |x.slots| && d in DefinitionAt(x, i).dependencies
    ensures j < i && x.slots[j].id == d.moduleId
  {
    assert ComesBefore(x, i, d.moduleId);
    j :| 0 <= j < i && x.slots[j].id == d.moduleId;
  }

  lemma OwnOutcome(x: Execution, i: nat)
    requires Valid(x) && EmitsOwn(x.setup.code) && i < |x.slots| && Outcome(x, i).Succeeded?
    ensures forall a :: a in Outcome(x, i).result.artifacts ==> a.moduleId == x.slots[i].id
  {
    AtStep(x, i);
  }

  /** In a plan, a module fails for a missing dependency exactly if a module it depends on has not emitted the
      artifact: which of the two ran first, and what others have emitted, plays no part. */
  lemma MissingInPlan(x: Execution, i: nat)
    requires InOrder(x) && EmitsOwn(x.setup.code) && i < |x.slots|
    ensures Outcome(x, i).Missing? <==>
              exists j, d ::
                0 <= j < |x.slots| && d in DefinitionAt(x, i).dependencies && d.moduleId == x.slots[j].id &&
                !Emits(Outcome(x, j), d.moduleId, d.artifactName)
  {
    hide Outcome, At, EmitsOwn;
    MissingExactly(x, i);
    if Outcome(x, i).Missing? {
      var d :| && d in DefinitionAt(x, i).dependencies
               && forall j :: 0 <= j < i ==> !Emits(Outcome(x, j), d.moduleId, d.artifactName);
      var j := DependencyBefore(x, i, d);
      assert !Emits(Outcome(x, j), d.moduleId, d.artifactName);
    }
    if j, d :| 0 <= j < |x.slots| && d in DefinitionAt(x, i).dependencies && d.moduleId == x.slots[j].id &&
                !Emits(Outcome(x, j), d.moduleId, d.artifactName) {
      forall k | 0 <= k < i ensures !Emits(Outcome(x, k), d.moduleId, d.artifactName) {
        if Outcome(x, k).Succeeded? {
          OwnOutcome(x, k);
        }
      }
    }
  }

  /** What fails takes along what depends on it: a module with a failed dependency fails for that reason. */
  lemma FailedDependency(x: Execution, i: nat, d: Dependency, j: nat)
    requires InOrder(x) && EmitsOwn(x.setup.code) && i < |x.slots| && j < |x.slots|
    requires d in DefinitionAt(x, i).dependencies && d.moduleId == x.slots[j].id && !Outcome(x, j).Succeeded?
    ensures Outcome(x, i).Missing?
  {
    hide Outcome, EmitsOwn;
    MissingInPlan(x, i);
    assert !Emits(Outcome(x, j), d.moduleId, d.artifactName);
  }

  ghost predicate Planned(x: Execution, id: string) {
    exists i :: 0 <= i < |x.slots| && x.slots[i].id == id
  }

  /** Where a module stands in the slots. */
  ghost function Position(x: Execution, id: string): (i: nat)
    requires Planned(x, id)
    ensures i < |x.slots| && x.slots[i].id == id
  {
    var i :| 0 <= i < |x.slots| && x.slots[i].id == id; i
  }

  /** The dependencies among the planned modules. */
  function GraphOf(x: Execution): Graph
    requires Valid(x)
  {
    map i | 0 <= i < |x.slots| :: x.slots[i].id := DependencyIds(x.setup.modules[x.slots[i].id])
  }

  /** Failure spreads along the dependencies, however long the way: if the end of a walk has failed, then every
      module on the walk before it fails for a missing dependency. So success is closed under dependencies. */
  lemma {:induction false} FailureSpreads(x: Execution, path: seq<string>)
    requires InOrder(x) && EmitsOwn(x.setup.code) && Walk(GraphOf(x), path) && |path| > 1
    requires Planned(x, path[|path| - 1]) && !Outcome(x, Position(x, path[|path| - 1])).Succeeded?
    ensures Planned(x, path[0]) && Outcome(x, Position(x, path[0])).Missing?
    decreases |path|
  {
    hide Outcome, EmitsOwn;
    var id, next := path[0], path[1];
    WalkStart(GraphOf(x), path);
    WalkStart(GraphOf(x), path[1..]);
    if |path| > 2 {
      assert path[1..][|path| - 2] == path[|path| - 1];
      FailureSpreads(x, path[1..]);
    }
    var i, j := Position(x, id), Position(x, next);
    assert next in DependencyIds(DefinitionAt(x, i));
    var d :| d in DefinitionAt(x, i).dependencies && d.moduleId == next;
    FailedDependency(x, i, d, j);
  }

  lemma WalkStart(g: Graph, path: seq<string>)
    requires Walk(g, path)
    ensures path[0] in g && (|path| > 1 ==> path[1] in g[path[0]] && Walk(g, path[1..]))
  {
  }

  // ----- The order of a plan plays no part in its outcomes -----

  /** What a module's turn has put into the store. */
  function Own(verdict: Verdict): Artifacts {
    if verdict.Succeeded? then AddAll(map[], Ordered(verdict.result.artifacts)) else map[]
  }

  /** The two stores agree on the artifact, or both lack it. */
  ghost predicate SameAt(a: Artifacts, b: Artifacts, key: (string, string)) {
    (key in a <==> key in b) && (key in a ==> a[key] == b[key])
  }

  lemma {:induction false} AddAllOver(artifacts: Artifacts, more: seq<Artifact>, key: (string, string))
    ensures SameAt(AddAll(artifacts, more), if key in AddAll(map[], more) then AddAll(map[], more) else artifacts, key)
  {
    if |more| > 0 { AddAllOver(artifacts, more[..|more| - 1], key); }
  }

  lemma {:induction false} OwnKeysOnly(more: seq<Artifact>, id: string, key: (string, string))
    requires forall a :: a in more ==> a.moduleId == id
    requires key in AddAll(map[], more)
    ensures key.0 == id
  {
    var last := more[|more| - 1];
    assert last in more;
    if key != (last.moduleId, last.name) { OwnKeysOnly(more[..|more| - 1], id, key); }
  }

  /** Under a module's id the store holds what its own turn has put there, and nothing before. */
  lemma {:induction false} StoreAt(x: Execution, n: nat, j: nat, key: (string, string))
    requires InOrder(x) && EmitsOwn(x.setup.code) && n <= |x.slots| && j < |x.slots| && key.0 == x.slots[j].id
    ensures SameAt(At(x, n).artifacts, if j < n then Own(Outcome(x, j)) else map[], key)
    decreases n
  {
    hide Outcome, Ordered, EmitsOwn, At, VerdictOf, EmittedEvents, NewStates;
    NothingYet(x);
    if n > 0 {
      StoreAt(x, n - 1, j, key);
      AtStep(x, n - 1);
      if Outcome(x, n - 1).Succeeded? {
        var artifacts := Outcome(x, n - 1).result.artifacts;
        AddAllOver(At(x, n - 1).artifacts, Ordered(artifacts), key);
        OwnOutcome(x, n - 1);
        OrderedElements(artifacts);
        if key in Own(Outcome(x, n - 1)) {
          OwnKeysOnly(Ordered(artifacts), x.slots[n - 1].id, key);
        }
      }
    }
  }

  /** A module's state is the one from before the run until its own turn. */
  lemma {:induction false} StateUntilTurn(x: Execution, n: nat, id: string)
    requires Valid(x) && n <= |x.slots| && forall j :: 0 <= j < n ==> x.slots[j].id != id
    ensures LatestState(At(x, n).states, x.event.symbol, id) == LatestState(x.states, x.event.symbol, id)
  {
    hide Outcome, AddAll, Ordered, At, VerdictOf, EmittedEvents, NewStates, LatestState;
    NothingYet(x);
    if n > 0 {
      StateUntilTurn(x, n - 1, id);
      AtStep(x, n - 1);
      LatestAppended(At(x, n - 1).states, x, n - 1, x.event.symbol, id);
    }
  }

  /** What one turn changes of the latest states. */
  lemma LatestAppended(records: seq<ModuleStateRecord>, x: Execution, i: nat, symbol: string, id: string)
    requires Valid(x) && i < |x.slots|
    ensures Outcome(x, i).Succeeded? ==>
              var more := NewStates(x.event, DefinitionAt(x, i), Outcome(x, i).result);
              LatestState(records + more, symbol, id)
              == if more != [] && symbol == x.event.symbol && id == x.slots[i].id then Some(more[0])
                 else LatestState(records, symbol, id)
  {
    AtStep(x, i);
    if Outcome(x, i).Succeeded? {
      var more := NewStates(x.event, DefinitionAt(x, i), Outcome(x, i).result);
      if more == [] {
        assert records + more == records;
      } else {
        assert (records + more)[..|records|] == records;
      }
    }
  }

  lemma {:induction false} SamePayloads(a: Artifacts, b: Artifacts, dependencies: seq<Dependency>)
    requires forall d :: d in dependencies ==> SameAt(a, b, (d.moduleId, d.artifactName))
    ensures DependencyPayloads(a, dependencies) == DependencyPayloads(b, dependencies)
    ensures DependenciesAvailable(a, dependencies) == DependenciesAvailable(b, dependencies)
  {
    if |dependencies| > 0 {
      var before, last := dependencies[..|dependencies| - 1], dependencies[|dependencies| - 1];
      assert last in dependencies;
      SamePayloads(a, b, before);
      assert forall d :: d in dependencies <==> d in before || d == last;
    }
  }

  /** Two executions of the same modules for the same event, from the same states. */
  ghost predicate Alike(x: Execution, y: Execution) {
    && x.setup == y.setup && x.event == y.event && x.states == y.states
    && InOrder(x) && InOrder(y) && EmitsOwn(x.setup.code)
    && (forall i, j :: 0 <= i < |x.slots| && 0 <= j < |y.slots| && x.slots[i].id == y.slots[j].id ==>
          x.slots[i] == y.slots[j])
  }

  /** The outcome of a module depends on the modules it needs, not on the order they are taken in: in any two orders
      that put dependencies first, each module succeeds, fails or raises in the same way. */
  lemma {:induction false} OrderPlaysNoPart(x: Execution, y: Execution, i: nat, j: nat)
    requires Alike(x, y) && i < |x.slots| && j < |y.slots| && x.slots[i].id == y.slots[j].id
    ensures Outcome(x, i) == Outcome(y, j)
    decreases i
  {
    hide Outcome, EmitsOwn, Own, At, NewStates;
    var dependencies := DefinitionAt(x, i).dependencies;
    forall d | d in dependencies ensures SameAt(At(x, i).artifacts, At(y, j).artifacts, (d.moduleId, d.artifactName)) {
      var k := DependencyBefore(x, i, d);
      var l := DependencyBefore(y, j, d);
      OrderPlaysNoPart(x, y, k, l);
      StoreAt(x, i, k, (d.moduleId, d.artifactName));
      StoreAt(y, j, l, (d.moduleId, d.artifactName));
    }
    SamePayloads(At(x, i).artifacts, At(y, j).artifacts, dependencies);
    StateUntilTurn(x, i, x.slots[i].id);
    StateUntilTurn(y, j, y.slots[j].id);
    AtStep(x, i);
    AtStep(y, j);
  }

  // ----- Failures and the status of a run -----

  /** The failures are the modules that did not succeed, in the order of the plan, and every module has exactly one
      block of events: its failure, or its artifacts in the order of their names. */
  function Failures(x: Execution, n: nat): seq<string>
    requires Valid(x) && n <= |x.slots|
  {
    if n == 0 then []
    else Failures(x, n - 1) + (if Outcome(x, n - 1).Succeeded? then [] else [x.slots[n - 1].id])
  }

  function Block(x: Execution, i: nat): seq<AnalysisEvent>
    requires Valid(x) && i < |x.slots|
  {
    match Outcome(x, i)
    case Missing => [FailureEvent(x.event, DefinitionAt(x, i), MISSING_DEPENDENCY, "dependency not available")]
    case Raised(detail) => [FailureEvent(x.event, DefinitionAt(x, i), EXCEPTION, detail)]
    case Succeeded(result) => EmittedEvents(x.event, Ordered(result.artifacts))
  }

  function Blocks(x: Execution, n: nat): seq<AnalysisEvent>
    requires Valid(x) && n <= |x.slots|
  {
    if n == 0 then [] else Blocks(x, n - 1) + Block(x, n - 1)
  }

  lemma {:induction false} OneOutcomeEach(x: Execution, n: nat)
    requires Valid(x) && n <= |x.slots|
    ensures At(x, n).failures == Failures(x, n)
    ensures At(x, n).events == [AnalysisEventOf(AnalysisRunStarted, x.event, NoAnalysisPayload)] + Blocks(x, n)
  {
    hide Outcome, AddAll, Ordered, EmittedEvents, FailureEvent, At, VerdictOf, NewStates;
    NothingYet(x);
    if n > 0 {
      OneOutcomeEach(x, n - 1);
      AtStep(x, n - 1);
    }
  }

  lemma {:induction false} FailuresAre(x: Execution, n: nat, id: string)
    requires Valid(x) && n <= |x.slots|
    ensures id in Failures(x, n) <==> exists i :: 0 <= i < n && x.slots[i].id == id && !Outcome(x, i).Succeeded?
  {
    hide Outcome;
    if n > 0 { FailuresAre(x, n - 1, id); }
  }

  lemma {:induction false} NoModuleFailsTwice(x: Execution, n: nat)
    requires InOrder(x) && n <= |x.slots|
    ensures NoDuplicates(Failures(x, n))
  {
    hide Outcome;
    if n > 0 {
      NoModuleFailsTwice(x, n - 1);
      FailuresAre(x, n - 1, x.slots[n - 1].id);
      NoDuplicatesSnoc(Failures(x, n - 1), x.slots[n - 1].id);
    }
  }

  /** A run is a success exactly if every planned module has succeeded, and otherwise partial; it names exactly the
      modules that did not succeed, once each and in order. */
  lemma RunStatusIs(x: Execution)
    requires InOrder(x)
    ensures var p := At(x, |x.slots|);
            var failed := set i | 0 <= i < |x.slots| && !Outcome(x, i).Succeeded? :: x.slots[i].id;
            CompletedEvent(x.event, p).payload == Status(if failed == {} then Success else Partial, Sorted(failed))
  {
    hide Outcome;
    var n := |x.slots|;
    OneOutcomeEach(x, n);
    NoModuleFailsTwice(x, n);
    var failed := set i | 0 <= i < n && !Outcome(x, i).Succeeded? :: x.slots[i].id;
    forall id ensures id in Elements(Failures(x, n)) <==> id in failed {
      FailuresAre(x, n, id);
    }
    assert Elements(Failures(x, n)) == failed;
    SortOfDistinct(Failures(x, n));
    if Failures(x, n) != [] { assert Failures(x, n)[0] in Elements(Failures(x, n)); }
  }

  // ----- Module states from run to run -----

  /** The module has left a state record in this execution. */
  predicate KeepsState(x: Execution, i: nat)
    requires Valid(x) && i < |x.slots|
  {
    Outcome(x, i).Succeeded? && DefinitionAt(x, i).stateSchemaId.Some? && Outcome(x, i).result.statePayload.Some?
  }

  /** One turn changes the state of one module of one symbol, and only if the module keeps one. */
  lemma TurnPayload(x: Execution, i: nat, symbol: string, id: string)
    requires Valid(x) && i < |x.slots|
    ensures LatestPayload(At(x, i + 1).states, symbol, id)
         == if symbol == x.event.symbol && id == x.slots[i].id && KeepsState(x, i)
           then Outcome(x, i).result.statePayload
            else LatestPayload(At(x, i).states, symbol, id)
  {
    hide Outcome, At, AddAll, Ordered, LatestState;
    AtStep(x, i);
    LatestAppended(At(x, i).states, x, i, symbol, id);
  }

  /** After a run, the latest state of a module is the one it returned in the run if it succeeded and keeps states,
      and otherwise the one from before the run, as it is for all other symbols. In the run the module itself is
      handed the state from before. */
  lemma {:induction false} StatesAfterRun(x: Execution, i: nat, n: nat, symbol: string)
    requires InOrder(x) && i < |x.slots| && n <= |x.slots|
    ensures var id := x.slots[i].id;
            LatestPayload(At(x, n).states, symbol, id)
            == (if symbol == x.event.symbol && i < n && KeepsState(x, i) then Outcome(x, i).result.statePayload
                else LatestPayload(x.states, symbol, id))
    ensures LatestPayload(At(x, i).states, x.event.symbol, x.slots[i].id)
            == LatestPayload(x.states, x.event.symbol, x.slots[i].id)
    decreases n
  {
    hide Outcome, LatestPayload, KeepsState, ProgressAt;
    StateBeforeTurn(x, i);
    if n == 0 {
      NothingYet(x);
    } else {
      StatesAfterRun(x, i, n - 1, symbol);
      TurnPayload(x, n - 1, symbol, x.slots[i].id);
    }
  }

  lemma StateBeforeTurn(x: Execution, i: nat)
    requires InOrder(x) && i < |x.slots|
    ensures LatestPayload(At(x, i).states, x.event.symbol, x.slots[i].id)
            == LatestPayload(x.states, x.event.symbol, x.slots[i].id)
  {
    hide At, LatestState;
    StateUntilTurn(x, i, x.slots[i].id);
  }
}
