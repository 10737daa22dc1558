/** What the state gate guarantees over whole runs, with appends that may fail at any point. */
module GateRuns {
  import opened Ordering
  import opened OrchestratorContracts
  import opened GateAssembly
  import opened GateProcessing

  datatype Input = Input(event: OrchestratorEvent, faults: Faults)

  type GateResult = Result<seq<GateEvent>, IngestError>

  function StateAfter(s: ProcessorState, inputs: seq<Input>, config: GateConfig): ProcessorState {
    if |inputs| == 0 then s else
      var last := inputs[|inputs| - 1];
      Consumed(StateAfter(s, inputs[..|inputs| - 1], config), last.event, last.faults, config).0
  }

  function Results(s: ProcessorState, inputs: seq<Input>, config: GateConfig): seq<GateResult> {
    if |inputs| == 0 then [] else
      var before := inputs[..|inputs| - 1];
      var last := inputs[|inputs| - 1];
      Results(s, before, config) + [Consumed(StateAfter(s, before, config), last.event, last.faults, config).1]
  }

  function EventsOf(result: GateResult): seq<GateEvent> {
    if result.Ok? then result.value else []
  }

  /** All events of a run in the order in which they were returned. */
  function Emitted(s: ProcessorState, inputs: seq<Input>, config: GateConfig): seq<GateEvent> {
    if |inputs| == 0 then [] else
      var before := inputs[..|inputs| - 1];
      var last := inputs[|inputs| - 1];
      Emitted(s, before, config) + EventsOf(Consumed(StateAfter(s, before, config), last.event, last.faults, config).1)
  }

  // ----- One completed run -----

  /** The run that a completing event hands over is new to the gate and later than anything of its symbol. */
  lemma CompletedRunIsNew(s: AssemblerState, event: OrchestratorEvent)
    requires Ingested(s, event).1.Ok? && Ingested(s, event).1.value.Some?
    ensures var run := Ingested(s, event).1.value.value;
            && run.runId == event.runId && run.runId !in s.processed
            && run.symbol == event.symbol && run.timestamp == event.timestamp
            && !Stale(s.latest, run.symbol, run.timestamp)
            && Ingested(s, event).0.processed == s.processed + {run.runId}
            && Ingested(s, event).0.latest == s.latest[run.symbol := run.timestamp]
  {
  }

  /** The events of a run: at most a closed reset, then one evaluation, all of them the run's own. */
  lemma MachineEventsShape(snapshots: Snapshots, run: AssembledRun, e: GateEvaluation, config: GateConfig)
    ensures var events := MachineEvents(snapshots, run, e, config);
            && 1 <= |events| <= 2
            && events[|events| - 1] == EvaluatedEvent(run, e)
            && (|events| == 2 ==> events[0] == ResetEvent(run, e))
            && forall i :: 0 <= i < |events| ==>
                 events[i].runId == run.runId && events[i].symbol == run.symbol && events[i].timestamp == run.timestamp
  {
  }

  // ----- Three copies of the per-symbol state -----

  /** The machine's snapshots are the fold of the log, and the assembler's timestamps are theirs. */
  ghost predicate CopiesAgree(s: ProcessorState) {
    && s.machine == FoldSnapshots(s.records)
    && s.assembler.latest == LatestTimestamps(s.machine)
  }

  lemma FoldEvents(records: seq<GateRecord>, snapshots: Snapshots, run: AssembledRun, e: GateEvaluation,
                   config: GateConfig)
    ensures FoldSnapshots(records + RecordsOf(MachineEvents(snapshots, run, e, config)))
         == FoldSnapshots(records)[run.symbol := SnapshotOf(run, e)]
  {
    var events := MachineEvents(snapshots, run, e, config);
    MachineEventsShape(snapshots, run, e, config);
    var last := RecordOf(EvaluatedEvent(run, e));
    if |events| == 1 {
      assert RecordsOf(events) == [last];
      FoldSnoc(records, last);
    } else {
      var first := RecordOf(ResetEvent(run, e));
      assert records + RecordsOf(events) == (records + [first]) + [last];
      FoldSnoc(records, first);
      FoldSnoc(records + [first], last);
    }
  }

  lemma LatestUpdate(snapshots: Snapshots, run: AssembledRun, e: GateEvaluation)
    ensures LatestTimestamps(snapshots[run.symbol := SnapshotOf(run, e)])
            == LatestTimestamps(snapshots)[run.symbol := run.timestamp]
  {
  }

  lemma StepKeepsCopies(s: ProcessorState, input: Input, config: GateConfig)
    requires !s.halted && CopiesAgree(s)
    ensures var next := Consumed(s, input.event, input.faults, config).0;
            !next.halted ==> CopiesAgree(next)
  {
    hide FoldSnapshots, LatestTimestamps, Evaluate, MachineEvents, RecordsOf, Opened, Applied;
    var (assembler, ingested) := Ingested(s.assembler, input.event);
    if ingested.Ok? && ingested.value.Some? {
      CompletedRunIsNew(s.assembler, input.event);
      var run := ingested.value.value;
      FoldEvents(s.records, s.machine, run, Evaluate(run, config), config);
      LatestUpdate(s.machine, run, Evaluate(run, config));
    }
  }

  lemma HaltedStays(s: ProcessorState, input: Input, config: GateConfig)
    requires s.halted
    ensures Consumed(s, input.event, input.faults, config) == (s, Ok([]))
  {
  }

  /** In every reachable state that is not halted, whatever appends failed, the three copies agree. */
  lemma {:induction false} CopiesAgreeAlways(records: seq<GateRecord>, inputs: seq<Input>, config: GateConfig)
    ensures var s := StateAfter(Initial(records), inputs, config);
            !s.halted ==> CopiesAgree(s)
  {
    if |inputs| > 0 {
      var before := inputs[..|inputs| - 1];
      CopiesAgreeAlways(records, before, config);
      var s := StateAfter(Initial(records), before, config);
      if s.halted {
        HaltedStays(s, inputs[|inputs| - 1], config);
      } else {
        StepKeepsCopies(s, inputs[|inputs| - 1], config);
      }
    }
  }

  // ----- What the snapshot of a symbol shows -----

  ghost predicate LastOf(records: seq<GateRecord>, symbol: string, i: nat) {
    && i < |records| && records[i].symbol == symbol
    && forall j :: i < j < |records| ==> records[j].symbol != symbol
  }

  ghost predicate ShowsRecord(snapshot: GateSnapshot, r: GateRecord) {
    && snapshot.symbol == r.symbol && snapshot.lastRunId == Some(r.runId)
    && snapshot.lastTimestamp == Some(r.timestamp) && snapshot.status == r.status && snapshot.gate == r.gate
    && snapshot.reasons == r.reasons && snapshot.mode == r.mode && snapshot.source == r.source
  }

  ghost predicate ShowsNothing(snapshot: GateSnapshot, symbol: string) {
    && snapshot.symbol == symbol && snapshot.lastRunId.None? && snapshot.lastTimestamp.None?
    && snapshot.status == Bootstrap && snapshot.gate == Closed && snapshot.reasons == []
    && snapshot.mode.None? && snapshot.source.None?
  }

  lemma {:induction false} FoldShows(records: seq<GateRecord>, symbol: string)
    ensures var shown := SnapshotFor(FoldSnapshots(records), symbol);
            && (forall i: nat :: LastOf(records, symbol, i) ==> ShowsRecord(shown, records[i]))
            && ((forall i :: 0 <= i < |records| ==> records[i].symbol != symbol) ==> ShowsNothing(shown, symbol))
  {
    if |records| > 0 {
      hide FoldSnapshots, SnapshotFor, ShowsRecord, ShowsNothing, LastOf;
      var n := |records| - 1;
      FoldShows(records[..n], symbol);
      FoldLast(records);
      forall i: nat | LastOf(records, symbol, i)
        ensures i < |records| && ShowsRecord(SnapshotFor(FoldSnapshots(records), symbol), records[i])
      {
        LastStep(records, symbol, i);
      }
      if forall i :: 0 <= i < |records| ==> records[i].symbol != symbol {
        assert forall i :: 0 <= i < n ==> records[..n][i] == records[i];
      }
    }
  }

  lemma LastStep(records: seq<GateRecord>, symbol: string, i: nat)
    requires LastOf(records, symbol, i)
    ensures var n := |records| - 1;
            && i <= n && (records[n].symbol == symbol ==> i == n)
            && (records[n].symbol != symbol ==>
                  i < n && LastOf(records[..n], symbol, i) && records[..n][i] == records[i])
  {
  }

  lemma FoldLast(records: seq<GateRecord>)
    requires |records| > 0
    ensures var n := |records| - 1;
            && ShowsRecord(SnapshotFor(FoldSnapshots(records), records[n].symbol), records[n])
            && forall symbol :: symbol != records[n].symbol ==>
                 SnapshotFor(FoldSnapshots(records), symbol) == SnapshotFor(FoldSnapshots(records[..n]), symbol)
  {
  }

  /** In every reachable state that is not halted, the snapshot of a symbol shows its last record, field by field, and a
      closed gate that waits for a first run if it has none. */
  lemma SnapshotsShowTheLog(records: seq<GateRecord>, inputs: seq<Input>, config: GateConfig, symbol: string)
    ensures var s := StateAfter(Initial(records), inputs, config);
            !s.halted ==>
              var shown := SnapshotFor(s.machine, symbol);
              && (forall i: nat :: LastOf(s.records, symbol, i) ==> ShowsRecord(shown, s.records[i]))
              && ((forall i :: 0 <= i < |s.records| ==> s.records[i].symbol != symbol) ==> ShowsNothing(shown, symbol))
  {
    hide StateAfter, LastOf, ShowsRecord, ShowsNothing;
    CopiesAgreeAlways(records, inputs, config);
    FoldShows(StateAfter(Initial(records), inputs, config).records, symbol);
  }

  // ----- One evaluation per run, in time order -----

  /** Evaluations are of different runs, and of strictly later times within a symbol. */
  ghost predicate StrictlyOrdered(events: seq<GateEvent>) {
    forall i, j :: 0 <= i < j < |events|
                   && events[i].eventType == GateEvaluated && events[j].eventType == GateEvaluated ==>
      && events[i].runId != events[j].runId
      && (events[i].symbol == events[j].symbol ==> events[i].timestamp < events[j].timestamp)
  }

  /** The assembler remembers everything that was evaluated. */
  ghost predicate Covers(s: AssemblerState, events: seq<GateEvent>) {
    forall e :: e in events && e.eventType == GateEvaluated ==>
      e.runId in s.processed && Stale(s.latest, e.symbol, e.timestamp)
  }

  lemma CoverageGrows(s: AssemblerState, event: OrchestratorEvent, events: seq<GateEvent>)
    requires Covers(s, events)
    ensures Covers(Ingested(s, event).0, events)
    ensures Ingested(s, event).1.Ok? && Ingested(s, event).1.value.Some? ==>
              forall e :: e in events && e.eventType == GateEvaluated ==>
                var run := Ingested(s, event).1.value.value;
                e.runId != run.runId && (e.symbol == run.symbol ==> e.timestamp < run.timestamp)
  {
  }

  /** What one input returns: nothing, or the run's events, or a single halt. */
  lemma StepReturns(s: ProcessorState, input: Input, config: GateConfig)
    ensures var (next, result) := Consumed(s, input.event, input.faults, config);
            var out := EventsOf(result);
            && (out != [] ==> !s.halted && next.assembler == Ingested(s.assembler, input.event).0)
            && (out == [] ==> next.halted == s.halted)
            && (out != [] && next.halted ==> |out| == 1 && out[0].eventType == StateGateHalted && out[0].gate == Closed)
            && (out != [] && !next.halted ==>
                  && Ingested(s.assembler, input.event).1.Ok? && Ingested(s.assembler, input.event).1.value.Some?
                  && var run := Ingested(s.assembler, input.event).1.value.value;
                  && out == MachineEvents(s.machine, run, Evaluate(run, config), config)
                  && next.records == s.records + RecordsOf(out))
            && (!s.halted ==> next.assembler == Ingested(s.assembler, input.event).0)
  {
    hide Ingested, Evaluate, MachineEvents, RecordsOf;
    var (assembler, ingested) := Ingested(s.assembler, input.event);
    if !s.halted && ingested.Ok? && ingested.value.Some? {
      var run := ingested.value.value;
      MachineEventsShape(s.machine, run, Evaluate(run, config), config);
    }
  }

  lemma AppendOrdered(events: seq<GateEvent>, out: seq<GateEvent>, run: AssembledRun)
    requires StrictlyOrdered(events)
    requires forall e :: e in events && e.eventType == GateEvaluated ==>
               e.runId != run.runId && (e.symbol == run.symbol ==> e.timestamp < run.timestamp)
    requires 1 <= |out| <= 2 && (|out| == 2 ==> out[0].eventType != GateEvaluated)
    requires forall i :: 0 <= i < |out| && out[i].eventType == GateEvaluated ==>
               out[i].runId == run.runId && out[i].symbol == run.symbol && out[i].timestamp == run.timestamp
    ensures StrictlyOrdered(events + out)
  {
    var all := events + out;
    forall i, j | 0 <= i < j < |all| && all[i].eventType == GateEvaluated && all[j].eventType == GateEvaluated
      ensures all[i].runId != all[j].runId && (all[i].symbol == all[j].symbol ==> all[i].timestamp < all[j].timestamp)
    {
      if j >= |events| {
        assert all[j] == out[j - |events|];
        assert i < |events|;
        assert all[i] in events;
      }
    }
  }

  lemma {:induction false} EvaluatesOnceInOrder(records: seq<GateRecord>, inputs: seq<Input>, config: GateConfig)
    ensures StrictlyOrdered(Emitted(Initial(records), inputs, config))
    ensures Covers(StateAfter(Initial(records), inputs, config).assembler, Emitted(Initial(records), inputs, config))
  {
    hide Ingested, Evaluate, MachineEvents, RecordsOf, Consumed, StrictlyOrdered, Initial;
    if |inputs| == 0 {
      NothingOrdered();
    } else {
      var before := inputs[..|inputs| - 1];
      var last := inputs[|inputs| - 1];
      EvaluatesOnceInOrder(records, before, config);
      var s := StateAfter(Initial(records), before, config);
      var events := Emitted(Initial(records), before, config);
      var out := EventsOf(Consumed(s, last.event, last.faults, config).1);
      StepReturns(s, last, config);
      CoverageGrows(s.assembler, last.event, events);
      if s.halted { HaltedStays(s, last, config); }
      if out == [] {
        assert events + out == events;
      } else {
        ReturnedOrdered(s, last, config, events);
      }
    }
  }

  lemma NothingOrdered()
    ensures StrictlyOrdered([])
  {
  }

  lemma ReturnedOrdered(s: ProcessorState, input: Input, config: GateConfig, events: seq<GateEvent>)
    requires Covers(s.assembler, events) && StrictlyOrdered(events)
    requires EventsOf(Consumed(s, input.event, input.faults, config).1) != []
    ensures var out := EventsOf(Consumed(s, input.event, input.faults, config).1);
            StrictlyOrdered(events + out)
              && Covers(Consumed(s, input.event, input.faults, config).0.assembler, events + out)
  {
    hide Ingested, Evaluate, MachineEvents, RecordsOf, Consumed, StrictlyOrdered;
    var (next, result) := Consumed(s, input.event, input.faults, config);
    var out := EventsOf(result);
    StepReturns(s, input, config);
    CoverageGrows(s.assembler, input.event, events);
    if next.halted {
      AppendHalt(events, out[0]);
      assert out == [out[0]];
    } else {
      var run := Ingested(s.assembler, input.event).1.value.value;
      CompletedRunIsNew(s.assembler, input.event);
      MachineEventsShape(s.machine, run, Evaluate(run, config), config);
      AppendOrdered(events, out, run);
    }
  }

  lemma AppendHalt(events: seq<GateEvent>, halt: GateEvent)
    requires StrictlyOrdered(events) && halt.eventType == StateGateHalted
    ensures StrictlyOrdered(events + [halt])
  {
  }

  // ----- Fail closed -----

  /** An OPEN event is returned only with its record already in the log. */
  lemma StepLogsOpen(s: ProcessorState, input: Input, config: GateConfig)
    ensures var (next, result) := Consumed(s, input.event, input.faults, config);
            && s.records <= next.records
            && forall e :: e in EventsOf(result) && e.gate == Open ==>
                 e.eventType == GateEvaluated && RecordOf(e) in next.records
  {
    hide Ingested, Evaluate, RecordOf, MachineEvents;
    var (next, result) := Consumed(s, input.event, input.faults, config);
    StepReturns(s, input, config);
    var out := EventsOf(result);
    forall e | e in out && e.gate == Open ensures e.eventType == GateEvaluated && RecordOf(e) in next.records {
      var run := Ingested(s.assembler, input.event).1.value.value;
      MachineEventsShape(s.machine, run, Evaluate(run, config), config);
      var i :| 0 <= i < |out| && out[i] == e;
      assert next.records[|s.records| + i] == RecordOf(e);
    }
  }

  lemma {:induction false} OpenIsLogged(s: ProcessorState, inputs: seq<Input>, config: GateConfig)
    ensures s.records <= StateAfter(s, inputs, config).records
    ensures forall e :: e in Emitted(s, inputs, config) && e.gate == Open ==>
              e.eventType == GateEvaluated && RecordOf(e) in StateAfter(s, inputs, config).records
  {
    hide Consumed, RecordOf;
    if |inputs| > 0 {
      var before := inputs[..|inputs| - 1];
      OpenIsLogged(s, before, config);
      StepLogsOpen(StateAfter(s, before, config), inputs[|inputs| - 1], config);
    }
  }

  /** After a halt the processor never changes and never returns anything again. */
  lemma {:induction false} HaltIsFinal(s: ProcessorState, inputs: seq<Input>, config: GateConfig)
    requires s.halted
    ensures StateAfter(s, inputs, config) == s && Emitted(s, inputs, config) == []
  {
    if |inputs| > 0 {
      HaltIsFinal(s, inputs[..|inputs| - 1], config);
      HaltedStays(s, inputs[|inputs| - 1], config);
    }
  }

  /** The input that halts the processor returns one event, a closed halt, and no part of its run. */
  lemma HaltReturnsOnlyHalt(s: ProcessorState, input: Input, config: GateConfig)
    requires !s.halted && Consumed(s, input.event, input.faults, config).0.halted
    ensures var out := EventsOf(Consumed(s, input.event, input.faults, config).1);
            |out| == 1 && out[0].eventType == StateGateHalted && out[0].gate == Closed && out[0].status == Halted
  {
  }

  /** With room for two events publishing is never blocked: the only possible halt is a failed append,
      and a processor whose appends succeed never halts. */
  lemma {:induction false} NeverBlocked(records: seq<GateRecord>, inputs: seq<Input>, config: GateConfig)
    requires config.publishMaxPending >= 2
    ensures forall e :: e in Emitted(Initial(records), inputs, config) && e.eventType == StateGateHalted ==>
              e.payload.HaltedPayload? && e.payload.errorKind == PERSISTENCE_FAILURE
    ensures (forall i :: 0 <= i < |inputs| ==> inputs[i].faults.failingAppend.None?) ==>
              !StateAfter(Initial(records), inputs, config).halted
  {
    if |inputs| > 0 {
      var before := inputs[..|inputs| - 1];
      NeverBlocked(records, before, config);
      StepNotBlocked(StateAfter(Initial(records), before, config), inputs[|inputs| - 1], config);
    }
  }

  lemma StepNotBlocked(s: ProcessorState, input: Input, config: GateConfig)
    requires config.publishMaxPending >= 2
    ensures var (next, result) := Consumed(s, input.event, input.faults, config);
            && (forall e :: e in EventsOf(result) && e.eventType == StateGateHalted ==>
                  e.payload.HaltedPayload? && e.payload.errorKind == PERSISTENCE_FAILURE)
            && (!s.halted && input.faults.failingAppend.None? ==> !next.halted)
  {
  }
}
