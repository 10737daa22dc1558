/** The state gate, second part: evaluation, reset detection, the append-only store and the
    fail-closed processor. */
module GateProcessing {
  import opened Ordering
  import opened Regimes
  import opened HysteresisRules
  import opened OrchestratorContracts
  import opened GateAssembly

  // ----- Evaluation: ordered rules -----

  datatype GateEvaluation = GateEvaluation(
    gate: GateStatus,
    status: StateStatus,
    reasons: seq<string>,
    inputType: EventType,
    mode: Option<EngineMode>,
    output: Option<RegimeOutput>,
    hysteresis: Option<HysteresisState>)

  function Denied(run: AssembledRun, config: GateConfig): set<string> {
    match run.output
    case None => {}
    case Some(output) => set i | i in output.invalidations && i in config.denylist
  }

  predicate InTransition(run: AssembledRun, config: GateConfig) {
    config.blockDuringTransition && run.hysteresis.Some? && run.hysteresis.value.progress > 0
  }

  /** The gate opens exactly for runs that did not fail, carry no denylisted invalidation and are not held by
      a transition; the earliest of these obstacles gives the status. */
  function Evaluate(run: AssembledRun, config: GateConfig): (e: GateEvaluation)
    ensures e.gate == Open <==>
              run.inputType != EngineRunFailed && Denied(run, config) == {} && !InTransition(run, config)
    ensures e.gate == Open <==> e.status == Ready
    ensures e.gate == Open <==> e.reasons == []
    ensures e.status == Degraded <==> run.inputType == EngineRunFailed
    ensures e.status == Hold && Denied(run, config) != {} ==>
              |e.reasons| == |Denied(run, config)| &&
              forall i :: i in Denied(run, config) ==> DENYLISTED_PREFIX + i in e.reasons
    ensures e.inputType == run.inputType && e.mode == run.mode
  {
    if run.inputType == EngineRunFailed then
      GateEvaluation(Closed, Degraded, [RUN_FAILED], run.inputType, run.mode, None, None)
    else if Denied(run, config) != {} then
      var reasons := Sorted(set i | i in Denied(run, config) :: DENYLISTED_PREFIX + i);
      PrefixKeepsSize(DENYLISTED_PREFIX, Denied(run, config));
      assert forall i :: i in Denied(run, config) ==> DENYLISTED_PREFIX + i in Elements(reasons);
      GateEvaluation(Closed, Hold, reasons, run.inputType, run.mode, run.output, None)
    else if InTransition(run, config) then
      GateEvaluation(Closed, Hold, [TRANSITION_ACTIVE], run.inputType, run.mode, run.output, run.hysteresis)
    else
      GateEvaluation(Open, Ready, [], run.inputType, run.mode, run.output, run.hysteresis)
  }

  lemma {:induction false} PrefixKeepsSize(prefix: string, xs: set<string>)
    ensures |set i | i in xs :: prefix + i| == |xs|
    decreases |xs|
  {
    var image := set i | i in xs :: prefix + i;
    if xs != {} {
      var x :| x in xs;
      PrefixKeepsSize(prefix, xs - {x});
      var rest := set i | i in xs - {x} :: prefix + i;
      assert forall i :: (prefix + i)[|prefix|..] == i;
      assert prefix + x !in rest;
      assert image == rest + {prefix + x};
    }
  }

  // ----- Snapshots and the state machine -----

  datatype GateSnapshot = GateSnapshot(
    symbol: string,
    lastRunId: Option<string>,
    lastTimestamp: Option<int>,
    status: StateStatus,
    gate: GateStatus,
    reasons: seq<string>,
    mode: Option<EngineMode>,
    source: Option<EventType>)

  type Snapshots = map<string, GateSnapshot>

  function BootstrapSnapshot(symbol: string): GateSnapshot {
    GateSnapshot(symbol, None, None, Bootstrap, Closed, [], None, None)
  }

  function SnapshotFor(snapshots: Snapshots, symbol: string): GateSnapshot {
    if symbol in snapshots then snapshots[symbol] else BootstrapSnapshot(symbol)
  }

  /** More than `maxGapMs` have passed since the symbol's last run. */
  predicate GapSince(snapshot: GateSnapshot, timestamp: int, config: GateConfig) {
    snapshot.lastTimestamp.Some? && timestamp - snapshot.lastTimestamp.value > config.maxGapMs
  }

  function ResetEvent(run: AssembledRun, e: GateEvaluation): GateEvent {
    GateEvent(StateReset, run.symbol, run.timestamp, run.runId, Bootstrap, Closed, [RESET_TIMESTAMP_GAP],
              ResetPayload(RESET_TIMESTAMP_GAP), Some(run.inputType), e.mode)
  }

  function EvaluatedEvent(run: AssembledRun, e: GateEvaluation): GateEvent {
    GateEvent(GateEvaluated, run.symbol, run.timestamp, run.runId, e.status, e.gate, e.reasons,
              if e.output.Some? || e.hysteresis.Some? then EvaluatedPayload(e.output, e.hysteresis) else NoGatePayload,
              Some(e.inputType), e.mode)
  }

  function SnapshotOf(run: AssembledRun, e: GateEvaluation): GateSnapshot {
    GateSnapshot(run.symbol, Some(run.runId), Some(run.timestamp), e.status, e.gate, e.reasons, e.mode,
                 Some(e.inputType))
  }

  function MachineEvents(snapshots: Snapshots, run: AssembledRun, e: GateEvaluation,
                         config: GateConfig): seq<GateEvent> {
    (if GapSince(SnapshotFor(snapshots, run.symbol), run.timestamp, config) then [ResetEvent(run, e)] else [])
      + [EvaluatedEvent(run, e)]
  }

  class StateGateStateMachine {
    const config: GateConfig
    var snapshots: Snapshots

    constructor (config: GateConfig, snapshots: Snapshots)
      ensures this.config == config && this.snapshots == snapshots
    {
      this.config, this.snapshots := config, snapshots;
    }

    method ProcessRun(run: AssembledRun, evaluation: GateEvaluation) returns (events: seq<GateEvent>)
      modifies this
      ensures events == MachineEvents(old(snapshots), run, evaluation, config)
      ensures snapshots == old(snapshots)[run.symbol := SnapshotOf(run, evaluation)]
    {
      var snapshot := if run.symbol in snapshots then snapshots[run.symbol] else BootstrapSnapshot(run.symbol);
      events := [];
      var last := snapshot.lastTimestamp;
      if last.Some? && run.timestamp - last.value > config.maxGapMs {
        events := events + [ResetEvent(run, evaluation)];
        snapshot := BootstrapSnapshot(run.symbol);
        snapshots := snapshots[run.symbol := snapshot];
      }
      events := events + [EvaluatedEvent(run, evaluation)];
      snapshots := snapshots[run.symbol := SnapshotOf(run, evaluation)];
    }
  }

  // ----- The append-only store -----

  datatype GateRecord = GateRecord(
    symbol: string,
    timestamp: int,
    runId: string,
    status: StateStatus,
    gate: GateStatus,
    reasons: seq<string>,
    mode: Option<EngineMode>,
    source: Option<EventType>,
    output: Option<RegimeOutput>,
    hysteresis: Option<HysteresisState>,
    resetReason: Option<string>,
    error: Option<(string, string)>)

  function RecordOf(event: GateEvent): GateRecord {
    match event.eventType
    case GateEvaluated =>
      GateRecord(event.symbol, event.timestamp, event.runId, event.status, event.gate, event.reasons, event.mode,
                 event.inputType,
                 if event.payload.EvaluatedPayload? then event.payload.output else None,
                 if event.payload.EvaluatedPayload? then event.payload.hysteresis else None,
                 None, None)
    case StateReset =>
      GateRecord(event.symbol, event.timestamp, event.runId, Bootstrap, Closed, event.reasons, event.mode,
                 event.inputType,
                 None, None,
                 if event.payload.ResetPayload? then Some(event.payload.reason) else None, None)
    case StateGateHalted =>
      GateRecord(event.symbol, event.timestamp, event.runId, event.status, event.gate, event.reasons, event.mode,
                 event.inputType,
                 None, None, None,
                 if event.payload.HaltedPayload? then Some((event.payload.errorKind, event.payload.errorDetail))
                 else None)
  }

  function RecordSnapshot(record: GateRecord): GateSnapshot {
    GateSnapshot(record.symbol, Some(record.runId), Some(record.timestamp), record.status, record.gate, record.reasons,
                 record.mode, record.source)
  }

  /** The snapshots that a log stands for: each symbol's last record. */
  function FoldSnapshots(records: seq<GateRecord>): Snapshots {
    if |records| == 0 then map[] else
      var last := records[|records| - 1];
      FoldSnapshots(records[..|records| - 1])[last.symbol := RecordSnapshot(last)]
  }

  function RunIds(records: seq<GateRecord>): set<string> {
    set r | r in records :: r.runId
  }

  function LatestTimestamps(snapshots: Snapshots): map<string, int> {
    map s | s in snapshots && snapshots[s].lastTimestamp.Some? :: snapshots[s].lastTimestamp.value
  }

  lemma FoldSnoc(records: seq<GateRecord>, last: GateRecord)
    ensures FoldSnapshots(records + [last]) == FoldSnapshots(records)[last.symbol := RecordSnapshot(last)]
  {
    assert (records + [last])[..|records + [last]| - 1] == records;
  }

  class StateGateStateStore {
    var records: seq<GateRecord>
    var snapshots: Snapshots

    constructor (records: seq<GateRecord>)
      ensures this.records == records && Valid()
    {
      this.records := records;
      this.snapshots := map[];
      new;
      var i := 0;
      while i < |records|
        invariant i <= |records| && this.records == records
        invariant snapshots == FoldSnapshots(records[..i])
      {
        assert records[..i + 1] == records[..i] + [records[i]];
        FoldSnoc(records[..i], records[i]);
        snapshots := snapshots[records[i].symbol := RecordSnapshot(records[i])];
        i := i + 1;
      }
      assert records[..i] == records;
    }

    /** The cache is the fold of the log. */
    ghost predicate Valid()
      reads this
    {
      snapshots == FoldSnapshots(records)
    }

    /** Appends the event's record, or raises and leaves the store as it was. */
    method AppendEvent(event: GateEvent, fails: bool) returns (ok: bool)
      requires Valid()
      modifies this
      ensures Valid() && ok == !fails
      ensures records == if fails then old(records) else old(records) + [RecordOf(event)]
    {
      if fails {
        return false;
      }
      var record := RecordOf(event);
      FoldSnoc(records, record);
      records := records + [record];
      snapshots := snapshots[record.symbol := RecordSnapshot(record)];
      return true;
    }
  }

  // ----- The processor -----

  /** Which append of a call raises, if any, and whether writing the halt record raises. */
  datatype Faults = Faults(failingAppend: Option<nat>, haltAppendFails: bool)

  datatype ProcessorState = ProcessorState(
    assembler: AssemblerState,
    machine: Snapshots,
    records: seq<GateRecord>,
    halted: bool)

  function Initial(records: seq<GateRecord>): ProcessorState {
    ProcessorState(
      AssemblerState(map[], RunIds(records), LatestTimestamps(FoldSnapshots(records))),
      FoldSnapshots(records), records, false)
  }

  function HaltEvent(symbol: string, timestamp: int, runId: string, inputType: Option<EventType>,
                     mode: Option<EngineMode>,
                     errorKind: string, errorDetail: string): GateEvent {
    GateEvent(StateGateHalted, symbol, timestamp, runId, Halted, Closed, [INTERNAL_FAILURE],
              HaltedPayload(errorKind, errorDetail), inputType, mode)
  }

  const PUBLISH_BLOCKED := "publish_blocked"
  const PUBLISH_DETAIL := "output publish backpressure exceeded"
  const PERSISTENCE_FAILURE := "persistence_failure"
  const PERSISTENCE_DETAIL := "append failed"

  function RecordsOf(events: seq<GateEvent>): seq<GateRecord> {
    seq(|events|, i requires 0 <= i < |events| => RecordOf(events[i]))
  }

  lemma RecordsOfSnoc(events: seq<GateEvent>, k: nat)
    ensures RecordsOf(events[..0]) == []
    ensures k < |events| ==> RecordsOf(events[..k + 1]) == RecordsOf(events[..k]) + [RecordOf(events[k])]
  {
  }

  /** A completed run: evaluated, recorded event by event, and returned; or the halt that replaces it. */
  function Processed(s: ProcessorState, run: AssembledRun, faults: Faults, config: GateConfig)
    : (ProcessorState, seq<GateEvent>)
  {
    var e := Evaluate(run, config);
    var events := MachineEvents(s.machine, run, e, config);
    var moved := s.(machine := s.machine[run.symbol := SnapshotOf(run, e)]);
    if |events| > config.publishMaxPending then
      var halt := HaltEvent(run.symbol, run.timestamp, run.runId, Some(run.inputType), run.mode, PUBLISH_BLOCKED,
                            PUBLISH_DETAIL);
      (moved.(halted := true, records := if faults.haltAppendFails then s.records else s.records + [RecordOf(halt)]),
       [halt])
    else if faults.failingAppend.Some? && faults.failingAppend.value < |events| then
      var k := faults.failingAppend.value;
      var bad := events[k];
      var halt := HaltEvent(bad.symbol, bad.timestamp, bad.runId, bad.inputType, bad.mode, PERSISTENCE_FAILURE,
                            PERSISTENCE_DETAIL);
      (moved.(halted := true, records := s.records + RecordsOf(events[..k])), [halt])
    else
      (moved.(records := s.records + RecordsOf(events)), events)
  }

  /** One input to the processor. */
  function Consumed(s: ProcessorState, event: OrchestratorEvent, faults: Faults, config: GateConfig)
    : (ProcessorState, Result<seq<GateEvent>, IngestError>)
  {
    if s.halted then (s, Ok([])) else
      var (assembler, ingested) := Ingested(s.assembler, event);
      var entered := s.(assembler := assembler);
      match ingested
      case Err(e) => (entered, Err(e))
      case Ok(None) => (entered, Ok([]))
      case Ok(Some(run)) =>
        var (next, events) := Processed(entered, run, faults, config);
        (next, Ok(events))
  }

  class StateGateProcessor {
    const config: GateConfig
    const store: StateGateStateStore
    const assembler: RunAssembler
    const machine: StateGateStateMachine
    var halted: bool

    /** A processor over a store, empty or restored from records. */
    constructor (config: GateConfig, store: StateGateStateStore)
      requires store.Valid()
      ensures this.config == config && this.store == store && store.records == old(store.records)
      ensures fresh(assembler) && fresh(machine) && assembler.assemblies == map[]
      ensures Valid() && State() == Initial(store.records)
    {
      this.config, this.store, this.halted := config, store, false;
      this.assembler := new RunAssembler(RunIds(store.records), LatestTimestamps(store.snapshots));
      this.machine := new StateGateStateMachine(config, store.snapshots);
    }

    ghost predicate Valid()
      reads this, store, assembler, machine
    {
      store.Valid() && assembler.Valid() && machine.config == config
    }

    ghost function State(): ProcessorState
      reads this, store, assembler, machine, assembler.assemblies.Values
    {
      ProcessorState(assembler.State(), machine.snapshots, store.records, halted)
    }

    method EnterHalted(event: GateEvent, persist: bool, appendFails: bool)
      requires store.Valid()
      modifies this, store
      ensures halted && store.Valid()
      ensures store.records == if persist && !appendFails then old(store.records) + [RecordOf(event)]
              else old(store.records)
    {
      halted := true;
      if persist {
        var _ := store.AppendEvent(event, appendFails);
      }
    }

    /** Appends the events one by one until one fails. */
    method AppendAll(events: seq<GateEvent>, failing: Option<nat>) returns (written: nat)
      requires store.Valid()
      modifies store
      ensures store.Valid()
      ensures written == if failing.Some? && failing.value < |events| then failing.value else |events|
      ensures store.records == old(store.records) + RecordsOf(events[..written])
    {
      hide *;
      written := 0;
      RecordsOfSnoc(events, 0);
      while written < |events|
        invariant written <= |events| && store.Valid()
        invariant failing.Some? ==> written <= failing.value || failing.value >= |events|
        invariant store.records == old(store.records) + RecordsOf(events[..written])
      {
        var ok := store.AppendEvent(events[written], failing == Some(written));
        if !ok {
          return;
        }
        RecordsOfSnoc(events, written);
        written := written + 1;
      }
    }

    method Process(run: AssembledRun, faults: Faults) returns (result: seq<GateEvent>)
      requires Valid() && !halted
      modifies this, store, machine
      ensures Valid() && (State(), result) == Processed(old(State()), run, faults, config)
    {
      hide Evaluate, MachineEvents, FoldSnapshots, RecordsOf, RecordOf;
      var evaluation := Evaluate(run, config);
      var events := machine.ProcessRun(run, evaluation);
      if |events| > config.publishMaxPending {
        var halt := HaltEvent(run.symbol, run.timestamp, run.runId, Some(run.inputType), run.mode, PUBLISH_BLOCKED,
                              PUBLISH_DETAIL);
        EnterHalted(halt, true, faults.haltAppendFails);
        return [halt];
      }
      var written := AppendAll(events, faults.failingAppend);
      if written < |events| {
        var bad := events[written];
        var halt := HaltEvent(bad.symbol, bad.timestamp, bad.runId, bad.inputType, bad.mode, PERSISTENCE_FAILURE,
                              PERSISTENCE_DETAIL);
        EnterHalted(halt, false, true);
        return [halt];
      }
      assert events[..written] == events;
      return events;
    }

    method Consume(event: OrchestratorEvent, faults: Faults) returns (result: Result<seq<GateEvent>, IngestError>)
      requires Valid()
      modifies this, store, assembler, machine, assembler.assemblies.Values
      ensures Valid() && fresh(assembler.assemblies.Values - old(assembler.assemblies.Values))
      ensures (State(), result) == Consumed(old(State()), event, faults, config)
    {
      hide Ingested, Processed, FoldSnapshots;
      if halted {
        return Ok([]);
      }
      var ingested := assembler.Ingest(event);
      if ingested.Err? {
        return Err(ingested.error);
      }
      if ingested.value.None? {
        return Ok([]);
      }
      var events := Process(ingested.value.value, faults);
      return Ok(events);
    }
  }
}
