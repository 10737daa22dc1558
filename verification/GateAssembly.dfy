/** The state gate, first part: its contracts, and the assembly of the orchestrator events of one run
    into one authoritative input. */
module GateAssembly {
  import opened Ordering
  import opened Regimes
  import opened HysteresisRules
  import opened OrchestratorContracts

  datatype GateStatus = Open | Closed

  datatype StateStatus = Bootstrap | Ready | Hold | Degraded | Halted

  datatype GateConfig = GateConfig(
    maxGapMs: int,
    denylist: seq<string>,
    blockDuringTransition: bool,
    publishMaxPending: int)

  const RUN_FAILED := "run_failed"
  const DENYLISTED_PREFIX := "denylisted_invalidation:"
  const TRANSITION_ACTIVE := "transition_active"
  const RESET_TIMESTAMP_GAP := "reset_timestamp_gap"
  const INTERNAL_FAILURE := "internal_failure"

  datatype GateEventType = GateEvaluated | StateReset | StateGateHalted

  datatype GatePayload =
    | NoGatePayload
    | EvaluatedPayload(output: Option<RegimeOutput>, hysteresis: Option<HysteresisState>)
    | ResetPayload(reason: string)
    | HaltedPayload(errorKind: string, errorDetail: string)

  datatype GateEvent = GateEvent(
    eventType: GateEventType,
    symbol: string,
    timestamp: int,
    runId: string,
    status: StateStatus,
    gate: GateStatus,
    reasons: seq<string>,
    payload: GatePayload,
    inputType: Option<EventType>,
    mode: Option<EngineMode>)

  // ----- Assembling the events of one run -----

  datatype AssembledRun = AssembledRun(
    runId: string,
    symbol: string,
    timestamp: int,
    mode: Option<EngineMode>,
    inputType: EventType,
    output: Option<RegimeOutput>,
    hysteresis: Option<HysteresisState>)

  /** The `ValueError`s of assembly. */
  datatype IngestError = InconsistentSymbol | InconsistentTimestamp | InconsistentMode | BadPayload

  datatype Assembly = Assembly(
    symbol: string,
    timestamp: int,
    mode: Option<EngineMode>,
    output: Option<RegimeOutput>,
    hysteresis: Option<HysteresisState>,
    failed: bool)

  predicate IsInput(t: EventType) {
    t != EngineRunStarted
  }

  function Applied(a: Assembly, event: OrchestratorEvent): Result<Assembly, IngestError> {
    match event.eventType
    case EngineRunStarted => Ok(a)
    case EngineRunCompleted =>
      if event.payload.CompletedPayload? then Ok(a.(output := Some(event.payload.output))) else Err(BadPayload)
    case EngineRunFailed =>
      if event.payload.NoPayload? || event.payload.FailedPayload? then Ok(a.(failed := true)) else Err(BadPayload)
    case HysteresisStatePublished =>
      if event.payload.StatePayload? then Ok(a.(hysteresis := Some(event.payload.state))) else Err(BadPayload)
  }

  /** Hysteresis wins over failure, failure over completion; in hysteresis mode completion alone is not enough. */
  function ReadyType(a: Assembly): Option<EventType> {
    if a.hysteresis.Some? then Some(HysteresisStatePublished)
    else if a.failed then Some(EngineRunFailed)
    else if a.output.Some? && a.mode != Some(Hysteresis) then Some(EngineRunCompleted)
    else None
  }

  function Assembled(runId: string, a: Assembly, ready: EventType): AssembledRun {
    AssembledRun(runId, a.symbol, a.timestamp, a.mode, ready,
                 if ready == EngineRunCompleted || ready == HysteresisStatePublished then a.output else None,
                 if ready == HysteresisStatePublished then a.hysteresis else None)
  }

  datatype AssemblerState = AssemblerState(
    assemblies: map<string, Assembly>,
    processed: set<string>,
    latest: map<string, int>)

  predicate Stale(latest: map<string, int>, symbol: string, timestamp: int) {
    symbol in latest && timestamp <= latest[symbol]
  }

  /** The pending assembly that an event meets, made consistent with it. */
  function Opened(s: AssemblerState, event: OrchestratorEvent): Result<Assembly, IngestError> {
    if event.runId !in s.assemblies then
      Ok(Assembly(event.symbol, event.timestamp, event.mode, None, None, false))
    else
      var a := s.assemblies[event.runId];
      if event.symbol != a.symbol then Err(InconsistentSymbol)
      else if event.timestamp != a.timestamp then Err(InconsistentTimestamp)
      else if event.mode.None? then Ok(a)
      else if a.mode.None? then Ok(a.(mode := event.mode))
      else if a.mode != event.mode then Err(InconsistentMode)
      else Ok(a)
  }

  function Ingested(s: AssemblerState, event: OrchestratorEvent)
    : (AssemblerState, Result<Option<AssembledRun>, IngestError>)
  {
    if !IsInput(event.eventType) || event.runId in s.processed then (s, Ok(None))
    else if Stale(s.latest, event.symbol, event.timestamp) then (s.(processed := s.processed + {event.runId}), Ok(None))
    else
      var entry := Opened(s, event);
      if entry.Err? then (s, Err(entry.error)) else
        var applied := Applied(entry.value, event);
        if applied.Err? then (s.(assemblies := s.assemblies[event.runId := entry.value]), Err(applied.error)) else
          var a := applied.value;
          var ready := ReadyType(a);
          if ready.None? then (s.(assemblies := s.assemblies[event.runId := a]), Ok(None))
          else (AssemblerState(s.assemblies - {event.runId}, s.processed + {event.runId},
                               s.latest[a.symbol := a.timestamp]),
                Ok(Some(Assembled(event.runId, a, ready.value))))
  }

  class RunAssembly {
    const symbol: string
    const timestamp: int
    var mode: Option<EngineMode>
    var output: Option<RegimeOutput>
    var hysteresis: Option<HysteresisState>
    var failed: bool

    constructor (symbol: string, timestamp: int, mode: Option<EngineMode>)
      ensures Value() == Assembly(symbol, timestamp, mode, None, None, false)
    {
      this.symbol, this.timestamp, this.mode := symbol, timestamp, mode;
      output, hysteresis, failed := None, None, false;
    }

    function Value(): Assembly
      reads this
    {
      Assembly(symbol, timestamp, mode, output, hysteresis, failed)
    }

    method EnsureConsistent(symbol: string, timestamp: int) returns (error: Option<IngestError>)
      ensures error == (if symbol != this.symbol then Some(InconsistentSymbol)
                        else if timestamp != this.timestamp then Some(InconsistentTimestamp) else None)
    {
      if symbol != this.symbol {
        return Some(InconsistentSymbol);
      }
      if timestamp != this.timestamp {
        return Some(InconsistentTimestamp);
      }
      return None;
    }

    /** A known mode may not change; a missing one is filled in. */
    method UpdateEngineMode(mode: Option<EngineMode>) returns (error: Option<IngestError>)
      modifies this
      ensures Value() == old(Value()).(mode := if old(this.mode).None? then mode else old(this.mode))
      ensures error == if mode.Some? && old(this.mode).Some? && mode != old(this.mode)
                       then Some(InconsistentMode) else None
    {
      if mode.None? {
        return None;
      }
      if this.mode.None? {
        this.mode := mode;
        return None;
      }
      if this.mode != mode {
        return Some(InconsistentMode);
      }
      return None;
    }

    method ApplyEvent(event: OrchestratorEvent) returns (error: Option<IngestError>)
      modifies this
      ensures error.None? ==> Applied(old(Value()), event) == Ok(Value())
      ensures error.Some? ==> Applied(old(Value()), event) == Err(error.value) && Value() == old(Value())
    {
      if event.eventType == EngineRunCompleted {
        if !event.payload.CompletedPayload? {
          return Some(BadPayload);
        }
        output := Some(event.payload.output);
      } else if event.eventType == EngineRunFailed {
        if !event.payload.NoPayload? && !event.payload.FailedPayload? {
          return Some(BadPayload);
        }
        failed := true;
      } else if event.eventType == HysteresisStatePublished {
        if !event.payload.StatePayload? {
          return Some(BadPayload);
        }
        hysteresis := Some(event.payload.state);
      }
      return None;
    }

    method ReadyEventType() returns (ready: Option<EventType>)
      ensures ready == ReadyType(Value())
    {
      if hysteresis.Some? {
        return Some(HysteresisStatePublished);
      }
      if failed {
        return Some(EngineRunFailed);
      }
      if output.Some? && mode != Some(Hysteresis) {
        return Some(EngineRunCompleted);
      }
      return None;
    }
  }

  class RunAssembler {
    var assemblies: map<string, RunAssembly>
    var processed: set<string>
    var latest: map<string, int>

    constructor (processed: set<string>, latest: map<string, int>)
      ensures Valid() && State() == AssemblerState(map[], processed, latest)
      ensures assemblies == map[]
    {
      assemblies := map[];
      this.processed, this.latest := processed, latest;
    }

    /** Runs do not share an assembly object. */
    ghost predicate Valid()
      reads this
    {
      forall a, b :: a in assemblies && b in assemblies && a != b ==> assemblies[a] != assemblies[b]
    }

    ghost function State(): AssemblerState
      reads this, assemblies.Values
    {
      AssemblerState(map id | id in assemblies :: assemblies[id].Value(), processed, latest)
    }

    /** The assembly of the run, created for its first event and checked against a later one. */
    method Open(event: OrchestratorEvent) returns (assembly: RunAssembly?, error: Option<IngestError>)
      requires Valid()
      modifies this, assemblies.Values
      ensures Valid() && processed == old(processed) && latest == old(latest)
      ensures fresh(assemblies.Values - old(assemblies.Values))
      ensures error.Some? ==> State() == old(State()) && Opened(old(State()), event) == Err(error.value)
      ensures error.None? ==>
                && assembly != null && event.runId in assemblies && assemblies[event.runId] == assembly
                && Opened(old(State()), event) == Ok(assembly.Value())
                && State() == old(State()).(assemblies := old(State()).assemblies[event.runId := assembly.Value()])
    {
      error := None;
      if event.runId !in assemblies {
        assembly := new RunAssembly(event.symbol, event.timestamp, event.mode);
        assert forall id :: id in assemblies ==> assemblies[id] in assemblies.Values;
        assemblies := assemblies[event.runId := assembly];
        assert forall o :: o in assemblies.Values ==> o == assembly || o in old(assemblies.Values);
      } else {
        assembly := assemblies[event.runId];
        assert assembly in assemblies.Values;
        error := assembly.EnsureConsistent(event.symbol, event.timestamp);
        if error.None? {
          error := assembly.UpdateEngineMode(event.mode);
        }
      }
    }

    /** The event's content goes into the run's assembly. */
    method Apply(event: OrchestratorEvent, assembly: RunAssembly) returns (error: Option<IngestError>)
      requires Valid() && event.runId in assemblies && assemblies[event.runId] == assembly
      modifies assembly
      ensures State() == old(State()).(assemblies := old(State()).assemblies[event.runId := assembly.Value()])
      ensures error.None? ==> Applied(old(assembly.Value()), event) == Ok(assembly.Value())
      ensures error.Some? ==>
                Applied(old(assembly.Value()), event) == Err(error.value) && assembly.Value() == old(assembly.Value())
    {
      error := assembly.ApplyEvent(event);
      assert State().assemblies == old(State()).assemblies[event.runId := assembly.Value()];
    }

    /** The run is ready: it leaves the pending ones, and its timestamp is the latest of its symbol. */
    method Complete(runId: string, assembly: RunAssembly, ready: EventType) returns (run: AssembledRun)
      requires Valid() && runId in assemblies && assemblies[runId] == assembly
      modifies this
      ensures Valid() && assemblies == old(assemblies) - {runId}
      ensures run == Assembled(runId, old(assembly.Value()), ready)
      ensures State() == AssemblerState(
                old(State()).assemblies - {runId}, old(processed) + {runId},
                old(latest)[assembly.symbol := assembly.timestamp])
    {
      run := AssembledRun(runId, assembly.symbol, assembly.timestamp, assembly.mode, ready,
                          if ready == EngineRunCompleted || ready == HysteresisStatePublished
                          then assembly.output else None,
                          if ready == HysteresisStatePublished then assembly.hysteresis else None);
      processed := processed + {runId};
      assemblies := assemblies - {runId};
      latest := latest[assembly.symbol := assembly.timestamp];
      assert State().assemblies == old(State()).assemblies - {runId};
    }

    /** One event: ignored, dropped as stale, refused, kept pending, or completing its run. */
    method Ingest(event: OrchestratorEvent) returns (result: Result<Option<AssembledRun>, IngestError>)
      requires Valid()
      modifies this, assemblies.Values
      ensures Valid() && fresh(assemblies.Values - old(assemblies.Values))
      ensures (State(), result) == Ingested(old(State()), event)
    {
      hide Opened, Applied, Assembled, ReadyType;
      if !IsInput(event.eventType) || event.runId in processed {
        return Ok(None);
      }
      if event.symbol in latest && event.timestamp <= latest[event.symbol] {
        processed := processed + {event.runId};
        assert State().assemblies == old(State().assemblies);
        return Ok(None);
      }
      ghost var before := State();
      var assembly, error := Open(event);
      if error.Some? {
        return Err(error.value);
      }
      ghost var opening := assembly.Value();
      assert assembly in assemblies.Values;
      error := Apply(event, assembly);
      IngestedByParts(before, event, opening, assembly.Value());
      if error.Some? {
        return Err(error.value);
      }
      var ready := assembly.ReadyEventType();
      if ready.None? {
        return Ok(None);
      }
      var run := Complete(event.runId, assembly, ready.value);
      return Ok(Some(run));
    }
  }

  /** Writing the opened and then the changed assembly is what ingesting writes. */
  lemma IngestedByParts(s: AssemblerState, event: OrchestratorEvent, opening: Assembly, changed: Assembly)
    requires IsInput(event.eventType) && event.runId !in s.processed && !Stale(s.latest, event.symbol, event.timestamp)
    requires Opened(s, event) == Ok(opening)
    ensures var twice := s.assemblies[event.runId := opening][event.runId := changed];
            && (Applied(opening, event).Err? && changed == opening ==>
                  Ingested(s, event) == (s.(assemblies := twice), Err(Applied(opening, event).error)))
            && (Applied(opening, event) == Ok(changed) ==>
                  Ingested(s, event) == match ReadyType(changed)
                                        case None => (s.(assemblies := twice), Ok(None))
                                        case Some(ready) =>
                                          (AssemblerState(twice - {event.runId}, s.processed + {event.runId},
                                                          s.latest[changed.symbol := changed.timestamp]),
                                           Ok(Some(Assembled(event.runId, changed, ready)))))
  {
    var twice := s.assemblies[event.runId := opening][event.runId := changed];
    assert twice == s.assemblies[event.runId := changed];
    assert twice - {event.runId} == s.assemblies - {event.runId};
  }
}
