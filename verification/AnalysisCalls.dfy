/** What a module's code is called with, and what becomes of its answer. */
module AnalysisCalls {
  import opened Ordering
  import opened GateAssembly
  import opened Registry
  import opened AnalysisEngine
  import opened AnalysisRuns

  // ----- The artifact emitted for a dependency -----

  /** The last artifact of that id and name, in the order returned. */
  function LastOf(artifacts: seq<Artifact>, moduleId: string, name: string): Option<Artifact> {
    if |artifacts| == 0 then None
    else
      var last := artifacts[|artifacts| - 1];
      if last.moduleId == moduleId && last.name == name then Some(last)
      else LastOf(artifacts[..|artifacts| - 1], moduleId, name)
  }

  /** The last artifact of that id and name that the first n modules have emitted. */
  function EmittedFor(x: Execution, n: nat, moduleId: string, name: string): Option<Artifact>
    requires Valid(x) && n <= |x.slots|
  {
    if n == 0 then None
    else
      var outcome := Outcome(x, n - 1);
      var own := if outcome.Succeeded? then LastOf(outcome.result.artifacts, moduleId, name) else None;
      if own.Some? then own else EmittedFor(x, n - 1, moduleId, name)
  }

  lemma {:induction false} LastIsFiltered(s: seq<Artifact>, moduleId: string, name: string)
    ensures var matching := Filter((a: Artifact) => a.moduleId == moduleId && a.name == name, s);
            LastOf(s, moduleId, name) == if matching == [] then None else Some(matching[|matching| - 1])
  {
    if |s| > 0 {
      var before, last := s[..|s| - 1], s[|s| - 1];
      assert s == before + [last];
      LastIsFiltered(before, moduleId, name);
      FilterSnoc((a: Artifact) => a.moduleId == moduleId && a.name == name, before, last);
    }
  }

  /** Emitting by name leaves the last artifact of each id and name the last one. */
  lemma LastOfOrdered(artifacts: seq<Artifact>, moduleId: string, name: string)
    ensures LastOf(Ordered(artifacts), moduleId, name) == LastOf(artifacts, moduleId, name)
  {
    hide LastOf, Ordered;
    var matches := (a: Artifact) => a.moduleId == moduleId && a.name == name;
    var named := (a: Artifact) => a.name == name;
    ArtifactsByName(artifacts, name);
    FilterTwice(matches, named, artifacts);
    FilterTwice(matches, named, Ordered(artifacts));
    LastIsFiltered(artifacts, moduleId, name);
    LastIsFiltered(Ordered(artifacts), moduleId, name);
  }

  lemma {:induction false} AddAllLast(artifacts: Artifacts, more: seq<Artifact>, moduleId: string, name: string)
    ensures var own := LastOf(more, moduleId, name);
            Lookup(AddAll(artifacts, more), (moduleId, name))
            == if own.Some? then own else Lookup(artifacts, (moduleId, name))
  {
    if |more| > 0 { AddAllLast(artifacts, more[..|more| - 1], moduleId, name); }
  }

  function Lookup(artifacts: Artifacts, key: (string, string)): Option<Artifact> {
    if key in artifacts then Some(artifacts[key]) else None
  }

  /** The store before the n-th module holds the last artifact that was emitted under each id and name. */
  lemma {:induction false} StoreIsEmitted(x: Execution, n: nat, moduleId: string, name: string)
    requires Valid(x) && n <= |x.slots|
    ensures Lookup(At(x, n).artifacts, (moduleId, name)) == EmittedFor(x, n, moduleId, name)
  {
    hide Outcome, Ordered, At, VerdictOf, AddAll, EmittedEvents, NewStates, LastOf;
    NothingYet(x);
    if n > 0 {
      StoreIsEmitted(x, n - 1, moduleId, name);
      AtStep(x, n - 1);
      if Outcome(x, n - 1).Succeeded? {
        var artifacts := Outcome(x, n - 1).result.artifacts;
        AddAllLast(At(x, n - 1).artifacts, Ordered(artifacts), moduleId, name);
        LastOfOrdered(artifacts, moduleId, name);
      }
    }
  }

  // ----- The call -----

  /** The context tells the gate event. */
  predicate IsContext(context: RunContext, event: GateEvent) {
    && context.symbol == event.symbol && context.runId == event.runId && context.timestamp == event.timestamp
    && context.mode == event.mode && context.gate == event.gate && context.reasons == event.reasons
    && context.output == (if event.payload.EvaluatedPayload? then event.payload.output else None)
    && context.hysteresis == (if event.payload.EvaluatedPayload? then event.payload.hysteresis else None)
  }

  /** Under the text key of each dependency there is the artifact that was last emitted for it; where dependencies share
      a key, for the last of them. */
  ghost predicate IsHanded(x: Execution, i: nat, payloads: map<string, Artifact>)
    requires Valid(x) && i < |x.slots|
  {
    var dependencies := DefinitionAt(x, i).dependencies;
    && (forall key :: key in payloads <==>
          exists k :: 0 <= k < |dependencies| && key == dependencies[k].moduleId + ":" + dependencies[k].artifactName)
    && forall k :: 0 <= k < |dependencies|
                   && (forall l :: k < l < |dependencies| ==>
                         PayloadKey(dependencies[l]) != PayloadKey(dependencies[k])) ==>
         var d := dependencies[k];
         EmittedFor(x, i, d.moduleId, d.artifactName) == Some(payloads[d.moduleId + ":" + d.artifactName])
  }

  ghost predicate IsStateOf(records: seq<ModuleStateRecord>, k: nat, symbol: string, moduleId: string) {
    k < |records| && records[k].symbol == symbol && records[k].moduleId == moduleId
  }

  /** The state is the payload of the last record of the symbol and module, none if there is no record. */
  ghost predicate IsState(records: seq<ModuleStateRecord>, symbol: string, moduleId: string, state: Option<string>) {
    match state
    case None => forall k: nat :: !IsStateOf(records, k, symbol, moduleId)
    case Some(payload) =>
      exists k: nat :: && IsStateOf(records, k, symbol, moduleId) && records[k].payload == payload
                       && forall l: nat :: l > k ==> !IsStateOf(records, l, symbol, moduleId)
  }

  /** The kind of artifact that a stage emits. */
  predicate MayEmit(stage: Kind, kind: ArtifactKind) {
    || (stage == Signal && kind == SignalArtifact)
    || (stage == Detector && kind == DetectionArtifact)
    || (stage == Rule && kind == EvaluationArtifact)
    || (stage == Output && kind == OutputArtifact)
  }

  lemma {:induction false} LatestIs(records: seq<ModuleStateRecord>, symbol: string, moduleId: string)
    ensures IsState(records, symbol, moduleId, LatestPayload(records, symbol, moduleId))
  {
    if |records| > 0 {
      var n := |records| - 1;
      var before := records[..n];
      if records[n].symbol == symbol && records[n].moduleId == moduleId {
        assert IsStateOf(records, n, symbol, moduleId);
      } else {
        LatestIs(before, symbol, moduleId);
        assert forall k: nat :: IsStateOf(records, k, symbol, moduleId) <==> IsStateOf(before, k, symbol, moduleId);
      }
    }
  }

  lemma OneState(records: seq<ModuleStateRecord>, symbol: string, moduleId: string, a: Option<string>,
                 b: Option<string>)
    requires IsState(records, symbol, moduleId, a) && IsState(records, symbol, moduleId, b)
    ensures a == b
  {
    if a.Some? && b.Some? {
      var k: nat :| && IsStateOf(records, k, symbol, moduleId) && records[k].payload == a.value
                    && forall l: nat :: l > k ==> !IsStateOf(records, l, symbol, moduleId);
      var m: nat :| && IsStateOf(records, m, symbol, moduleId) && records[m].payload == b.value
                    && forall l: nat :: l > m ==> !IsStateOf(records, l, symbol, moduleId);
      assert !(k < m) && !(m < k);
    }
  }

  lemma {:induction false} PayloadKeysAre(artifacts: Artifacts, dependencies: seq<Dependency>, key: string)
    requires DependenciesAvailable(artifacts, dependencies)
    ensures key in DependencyPayloads(artifacts, dependencies) <==>
              exists k :: 0 <= k < |dependencies|
                && key == dependencies[k].moduleId + ":" + dependencies[k].artifactName
  {
    if |dependencies| > 0 {
      var n := |dependencies| - 1;
      var before := dependencies[..n];
      assert dependencies[n] in dependencies && forall d :: d in before ==> d in dependencies;
      PayloadKeysAre(artifacts, before, key);
      assert forall k :: 0 <= k < n ==> before[k] == dependencies[k];
    }
  }

  /** What a module is handed: determined by what was emitted. */
  lemma HandedPayloads(x: Execution, i: nat, payloads: map<string, Artifact>)
    requires Valid(x) && i < |x.slots| && IsHanded(x, i, payloads)
    requires DependenciesAvailable(At(x, i).artifacts, DefinitionAt(x, i).dependencies)
    ensures payloads == DependencyPayloads(At(x, i).artifacts, DefinitionAt(x, i).dependencies)
  {
    hide At, Outcome, EmittedFor;
    var artifacts, dependencies := At(x, i).artifacts, DefinitionAt(x, i).dependencies;
    var own := DependencyPayloads(artifacts, dependencies);
    forall key ensures key in payloads <==> key in own {
      PayloadKeysAre(artifacts, dependencies, key);
    }
    forall key | key in own ensures payloads[key] == own[key] {
      PayloadKeysAre(artifacts, dependencies, key);
      var k :| 0 <= k < |dependencies| && key == dependencies[k].moduleId + ":" + dependencies[k].artifactName;
      var last := LastUnderKey(dependencies, dependencies[k]);
      HandedUnderKey(artifacts, dependencies, last);
      StoreIsEmitted(x, i, dependencies[last].moduleId, dependencies[last].artifactName);
    }
  }

  /** A module whose dependencies have all been emitted is decided by its code, which is called with its own id, the
      fields of the gate event, the artifacts emitted for its dependencies, and the state that it last left for the
      symbol: it raises what the code raises or the first artifact of a wrong kind, and otherwise succeeds with what
      the code returns. */
  lemma CodeDecides(x: Execution, i: nat, context: RunContext, payloads: map<string, Artifact>, state: Option<string>)
    requires InOrder(x) && i < |x.slots|
    requires forall d :: d in DefinitionAt(x, i).dependencies ==> EmittedFor(x, i, d.moduleId, d.artifactName).Some?
    requires IsContext(context, x.event) && IsHanded(x, i, payloads)
    requires IsState(x.states, x.event.symbol, x.slots[i].id, state)
    ensures var outcome := Outcome(x, i);
            match x.setup.code(x.slots[i].id, context, payloads, state)
            case Err(detail) => outcome == Raised(detail)
            case Ok(result) =>
              if forall a :: a in result.artifacts ==> MayEmit(x.slots[i].stage, a.kind)
              then outcome == Succeeded(result)
              else exists k :: && 0 <= k < |result.artifacts| && !MayEmit(x.slots[i].stage, result.artifacts[k].kind)
                               && (forall l :: 0 <= l < k ==> MayEmit(x.slots[i].stage, result.artifacts[l].kind))
                               && outcome == Raised(WrongKind(x.slots[i], result.artifacts[k]))
  {
    hide Outcome, At, EmittedFor, IsHanded, LatestPayload;
    AtStep(x, i);
    forall d | d in DefinitionAt(x, i).dependencies
      ensures (d.moduleId, d.artifactName) in At(x, i).artifacts
    {
      StoreIsEmitted(x, i, d.moduleId, d.artifactName);
    }
    HandedPayloads(x, i, payloads);
    assert context == ContextOf(x.event);
    StatesAfterRun(x, i, 0, x.event.symbol);
    LatestIs(x.states, x.event.symbol, x.slots[i].id);
    OneState(x.states, x.event.symbol, x.slots[i].id, state, LatestPayload(x.states, x.event.symbol, x.slots[i].id));
    match x.setup.code(x.slots[i].id, context, payloads, state)
    case Err(_) =>
    case Ok(result) => KindsAreChecked(x.slots[i], result.artifacts);
  }

  /** The text of the exception for an artifact of a wrong kind. */
  function WrongKind(slot: Slot, a: Artifact): string {
    var expected := match slot.stage
                    case Signal => "signal" case Detector => "detection"
                    case Rule => "evaluation" case Output => "output";
    var found := match a.kind
                 case SignalArtifact => "signal" case DetectionArtifact => "detection"
                 case EvaluationArtifact => "evaluation" case OutputArtifact => "output";
    "invalid artifact kind for " + slot.id + ": " + found + " (expected ('" + expected + "',))"
  }

  lemma {:induction false} KindsAreChecked(slot: Slot, artifacts: seq<Artifact>)
    ensures match InvalidKind(slot.id, artifacts, slot.stage)
            case None => forall a :: a in artifacts ==> MayEmit(slot.stage, a.kind)
            case Some(detail) =>
              exists k :: && 0 <= k < |artifacts| && !MayEmit(slot.stage, artifacts[k].kind)
                          && (forall l :: 0 <= l < k ==> MayEmit(slot.stage, artifacts[l].kind))
                          && detail == WrongKind(slot, artifacts[k])
  {
    hide WrongKind;
    if |artifacts| > 0 {
      if !MayEmit(slot.stage, artifacts[0].kind) {
        TextOfWrongKind(slot, artifacts);
      } else {
        KindsAreChecked(slot, artifacts[1..]);
        if InvalidKind(slot.id, artifacts, slot.stage).Some? {
          var k :| && 0 <= k < |artifacts[1..]| && !MayEmit(slot.stage, artifacts[1..][k].kind)
                   && (forall l :: 0 <= l < k ==> MayEmit(slot.stage, artifacts[1..][l].kind))
                   && InvalidKind(slot.id, artifacts, slot.stage) == Some(WrongKind(slot, artifacts[1..][k]));
          assert artifacts[k + 1] == artifacts[1..][k];
          assert forall l :: 0 <= l < k + 1 ==> l == 0 || artifacts[l] == artifacts[1..][l - 1];
        }
      }
    }
  }

  lemma TextOfWrongKind(slot: Slot, artifacts: seq<Artifact>)
    requires |artifacts| > 0 && !MayEmit(slot.stage, artifacts[0].kind)
    ensures InvalidKind(slot.id, artifacts, slot.stage) == Some(WrongKind(slot, artifacts[0]))
  {
  }
}
