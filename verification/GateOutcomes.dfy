/** What the state gate returns and writes for one input, told by the fields of its events and records. */
module GateOutcomes {
  import opened Ordering
  import opened OrchestratorContracts
  import opened GateAssembly
  import opened GateProcessing

  /** The event is the run's own. */
  predicate IsOf(e: GateEvent, run: AssembledRun) {
    && e.symbol == run.symbol && e.timestamp == run.timestamp && e.runId == run.runId
    && e.mode == run.mode && e.inputType == Some(run.inputType)
  }

  predicate IsReset(e: GateEvent, run: AssembledRun) {
    && IsOf(e, run) && e.eventType == StateReset && e.status == Bootstrap && e.gate == Closed
    && e.reasons == ["reset_timestamp_gap"] && e.payload == ResetPayload("reset_timestamp_gap")
  }

  predicate IsHalt(e: GateEvent, run: AssembledRun, kind: string, detail: string) {
    && IsOf(e, run) && e.eventType == StateGateHalted && e.status == Halted && e.gate == Closed
    && e.reasons == ["internal_failure"] && e.payload == HaltedPayload(kind, detail)
  }

  /** The record holds what the event says, and of its payload what its type has. */
  predicate RecordTells(r: GateRecord, e: GateEvent) {
    && r.symbol == e.symbol && r.timestamp == e.timestamp && r.runId == e.runId
    && r.status == e.status && r.gate == e.gate && r.reasons == e.reasons && r.mode == e.mode && r.source == e.inputType
    && r.output == (if e.payload.EvaluatedPayload? then e.payload.output else None)
    && r.hysteresis == (if e.payload.EvaluatedPayload? then e.payload.hysteresis else None)
    && r.resetReason == (if e.payload.ResetPayload? then Some(e.payload.reason) else None)
    && r.error == (if e.payload.HaltedPayload? then Some((e.payload.errorKind, e.payload.errorDetail)) else None)
  }

  /** The log has grown by one record for each of these events. */
  ghost predicate Wrote(before: seq<GateRecord>, after: seq<GateRecord>, events: seq<GateEvent>) {
    && |after| == |before| + |events| && after[..|before|] == before
    && forall i :: 0 <= i < |events| ==> RecordTells(after[|before| + i], events[i])
  }

  /** More time than the configuration allows has passed since the last run of the symbol. */
  predicate Gap(s: ProcessorState, run: AssembledRun, config: GateConfig) {
    && run.symbol in s.machine && s.machine[run.symbol].lastTimestamp.Some?
    && s.machine[run.symbol].lastTimestamp.value + config.maxGapMs < run.timestamp
  }

  /** What a run comes to: a halt for want of room, a halt at the append that fails, or its events, all written: a reset
      first after a gap, and then its evaluation. */
  ghost predicate RunEnds(s: ProcessorState, next: ProcessorState, events: seq<GateEvent>, run: AssembledRun,
                          faults: Faults, config: GateConfig)
  {
    var n := if Gap(s, run, config) then 2 else 1;
    if config.publishMaxPending < n then
      && next.halted && |events| == 1
      && IsHalt(events[0], run, "publish_blocked", "output publish backpressure exceeded")
      && (if faults.haltAppendFails then next.records == s.records else Wrote(s.records, next.records, events))
    else if faults.failingAppend.Some? && faults.failingAppend.value < n then
      && next.halted && |events| == 1 && IsHalt(events[0], run, "persistence_failure", "append failed")
      && (if faults.failingAppend.value == 0 then next.records == s.records
          else exists reset :: IsReset(reset, run) && Wrote(s.records, next.records, [reset]))
    else
      && next.halted == s.halted && |events| == n && (n == 2 ==> IsReset(events[0], run))
      && events[n - 1] == EvaluatedEvent(run, Evaluate(run, config))
      && Wrote(s.records, next.records, events)
      && Remembered(s, next, events[n - 1])
  }

  /** The snapshot of the symbol tells the evaluation, and no other has changed. */
  ghost predicate Remembered(s: ProcessorState, next: ProcessorState, e: GateEvent) {
    && e.symbol in next.machine
    && (forall symbol :: symbol != e.symbol ==>
          (symbol in next.machine <==> symbol in s.machine)
          && (symbol in s.machine ==> next.machine[symbol] == s.machine[symbol]))
    && var snapshot := next.machine[e.symbol];
       && snapshot.symbol == e.symbol
       && snapshot.lastRunId == Some(e.runId) && snapshot.lastTimestamp == Some(e.timestamp)
       && snapshot.status == e.status && snapshot.gate == e.gate && snapshot.reasons == e.reasons
       && snapshot.mode == e.mode && snapshot.source == e.inputType
  }

  lemma RecordsTell(e: GateEvent, run: AssembledRun, evaluation: GateEvaluation)
    requires || e == EvaluatedEvent(run, evaluation) || IsReset(e, run)
             || (e.eventType == StateGateHalted && e.payload.HaltedPayload?)
    ensures RecordTells(RecordOf(e), e)
  {
  }

  lemma AllWritten(before: seq<GateRecord>, events: seq<GateEvent>)
    requires forall i :: 0 <= i < |events| ==> RecordTells(RecordOf(events[i]), events[i])
    ensures Wrote(before, before + RecordsOf(events), events)
  {
    hide RecordTells, RecordOf;
  }

  /** Every run that the gate processes ends as told. */
  lemma ProcessedTells(s: ProcessorState, run: AssembledRun, faults: Faults, config: GateConfig)
    requires !s.halted
    ensures var (next, events) := Processed(s, run, faults, config);
            RunEnds(s, next, events, run, faults, config) && next.assembler == s.assembler
  {
    hide Evaluate, RecordTells, RecordOf, Wrote, RecordsOf;
    var e := Evaluate(run, config);
    EvaluationIsOf(run, config);
    var events := MachineEvents(s.machine, run, e, config);
    var n := if Gap(s, run, config) then 2 else 1;
    assert |events| == n && events[n - 1] == EvaluatedEvent(run, e) && (n == 2 ==> IsReset(events[0], run));
    forall i | 0 <= i < |events| ensures RecordTells(RecordOf(events[i]), events[i]) {
      RecordsTell(events[i], run, e);
    }
    var halts := Processed(s, run, faults, config).1;
    if config.publishMaxPending < n {
      RecordsTell(halts[0], run, e);
      OneRecord(halts[0]);
      AllWritten(s.records, halts);
    } else if faults.failingAppend.Some? && faults.failingAppend.value < n {
      if faults.failingAppend.value == 0 {
        NoRecords(events);
      } else {
        assert events[..1] == [events[0]];
        AllWritten(s.records, [events[0]]);
      }
    } else {
      AllWritten(s.records, events);
    }
  }

  lemma OneRecord(e: GateEvent)
    ensures RecordsOf([e]) == [RecordOf(e)]
  {
  }

  lemma NoRecords(events: seq<GateEvent>)
    ensures RecordsOf(events[..0]) == []
  {
  }

  lemma EvaluationIsOf(run: AssembledRun, config: GateConfig)
    ensures var e := EvaluatedEvent(run, Evaluate(run, config)); IsOf(e, run) && e.eventType == GateEvaluated
  {
  }

  /** Every input: a halted gate ignores it; without a completed run it writes and returns nothing, and raises what the
      assembler raises; and a completed run ends as told. */
  lemma ConsumedTells(s: ProcessorState, event: OrchestratorEvent, faults: Faults, config: GateConfig)
    ensures var (next, result) := Consumed(s, event, faults, config);
            if s.halted then next == s && result == Ok([])
            else
              var (assembler, ingested) := Ingested(s.assembler, event);
              && next.assembler == assembler
              && match ingested
                 case Err(e) => result == Err(e) && next == s.(assembler := assembler)
                 case Ok(None) => result == Ok([]) && next == s.(assembler := assembler)
                 case Ok(Some(run)) => result.Ok? && RunEnds(s, next, result.value, run, faults, config)
  {
    hide RunEnds, Processed;
    if !s.halted {
      var (assembler, ingested) := Ingested(s.assembler, event);
      if ingested.Ok? && ingested.value.Some? {
        var entered := s.(assembler := assembler);
        ProcessedTells(entered, ingested.value.value, faults, config);
        var (next, events) := Processed(entered, ingested.value.value, faults, config);
        SameEnds(entered, s, next, events, ingested.value.value, faults, config);
      }
    }
  }

  lemma SameEnds(a: ProcessorState, b: ProcessorState, next: ProcessorState, events: seq<GateEvent>, run: AssembledRun,
                 faults: Faults, config: GateConfig)
    requires RunEnds(a, next, events, run, faults, config)
    requires a.machine == b.machine && a.records == b.records && a.halted == b.halted
    ensures RunEnds(b, next, events, run, faults, config)
  {
    hide Evaluate, Wrote, IsReset, IsHalt, EvaluatedEvent;
  }
}
