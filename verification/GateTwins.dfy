/** Two processors of the state gate that answer every future alike, although what they remember differs. */
module GateTwins {
  import opened Ordering
  import opened OrchestratorContracts
  import opened GateAssembly
  import opened GateProcessing
  import opened GateRuns

  /** The symbol and the time that a run id stands for, and the mode that its events carry, where the id fixes that
      too. */
  datatype RunKey = RunKey(of: string -> (string, int), mode: string -> Option<Option<EngineMode>>)

  /** The run id of every event determines its symbol and its timestamp, and its mode where that is fixed. */
  ghost predicate Keyed(inputs: seq<Input>, key: RunKey) {
    forall i :: 0 <= i < |inputs| ==> KeyedEvent(inputs[i].event, key)
  }

  ghost predicate KeyedEvent(event: OrchestratorEvent, key: RunKey) {
    && key.of(event.runId) == (event.symbol, event.timestamp)
    && (key.mode(event.runId).Some? ==> event.mode == key.mode(event.runId).value)
  }

  predicate StaleRun(latest: map<string, int>, runId: string, key: RunKey) {
    Stale(latest, key.of(runId).0, key.of(runId).1)
  }

  // ----- What every reachable processor keeps -----

  /** Pending runs carry their own key, wait for a hysteresis state if for anything, and are processed only
      once they are stale; processed runs without a record are stale. */
  ghost predicate Orderly(s: ProcessorState, key: RunKey) {
    && RunIds(s.records) <= s.assembler.processed
    && (forall id :: id in s.assembler.processed ==> id in RunIds(s.records) || StaleRun(s.assembler.latest, id, key))
    && (forall id :: id in s.assembler.assemblies ==>
          && Pending(s.assembler.assemblies[id], id, key)
          && (id in s.assembler.processed ==> StaleRun(s.assembler.latest, id, key)))
  }

  ghost predicate Pending(a: Assembly, id: string, key: RunKey) {
    && (a.symbol, a.timestamp) == key.of(id)
    && (key.mode(id).Some? ==> a.mode == key.mode(id).value)
    && a.hysteresis.None? && !a.failed
    && (a.output.Some? ==> a.mode == Some(Hysteresis))
  }

  lemma IngestOrderly(s: AssemblerState, event: OrchestratorEvent, logged: set<string>, key: RunKey)
    requires KeyedEvent(event, key)
    requires forall id :: id in s.processed ==> id in logged || StaleRun(s.latest, id, key)
    requires forall id :: id in s.assemblies ==>
               Pending(s.assemblies[id], id, key) && (id in s.processed ==> StaleRun(s.latest, id, key))
    ensures var (next, result) := Ingested(s, event);
            var logged' := if result.Ok? && result.value.Some? then logged + {event.runId} else logged;
            && s.processed <= next.processed
            && (forall id :: id in next.processed ==> id in logged' || StaleRun(next.latest, id, key))
            && (forall id :: id in next.assemblies ==>
                  Pending(next.assemblies[id], id, key) && (id in next.processed ==> StaleRun(next.latest, id, key)))
  {
    var next := Ingested(s, event).0;
    forall id | StaleRun(s.latest, id, key) ensures StaleRun(next.latest, id, key) {}
  }

  lemma RunIdsGrow(records: seq<GateRecord>, events: seq<GateEvent>, id: string)
    requires |events| > 0 && forall i :: 0 <= i < |events| ==> events[i].runId == id
    ensures RunIds(records + RecordsOf(events)) == RunIds(records) + {id}
  {
    var more := RecordsOf(events);
    assert more[0] in more && more[0].runId == id;
    forall r | r in records + more ensures r.runId in RunIds(records) + {id} {
      if r in more {
        var i :| 0 <= i < |more| && more[i] == r;
      }
    }
    forall r | r in records ensures r in records + more {}
    assert more[0] in records + more;
  }

  lemma StepOrderly(s: ProcessorState, input: Input, config: GateConfig, key: RunKey)
    requires Orderly(s, key) && KeyedEvent(input.event, key)
    requires !Consumed(s, input.event, input.faults, config).0.halted
    ensures Orderly(Consumed(s, input.event, input.faults, config).0, key)
  {
    hide Ingested, Evaluate, MachineEvents, RecordsOf, RunIds, Stale, Pending;
    if !s.halted {
      var (assembler, ingested) := Ingested(s.assembler, input.event);
      IngestOrderly(s.assembler, input.event, RunIds(s.records), key);
      if ingested.Ok? && ingested.value.Some? {
        var run := ingested.value.value;
        CompletedRunIsNew(s.assembler, input.event);
        MachineEventsShape(s.machine, run, Evaluate(run, config), config);
        RunIdsGrow(s.records, MachineEvents(s.machine, run, Evaluate(run, config), config), run.runId);
      }
    }
  }

  lemma {:induction false} RunOrderly(records: seq<GateRecord>, inputs: seq<Input>, config: GateConfig, key: RunKey)
    requires Keyed(inputs, key) && !StateAfter(Initial(records), inputs, config).halted
    ensures Orderly(StateAfter(Initial(records), inputs, config), key)
  {
    if |inputs| > 0 {
      var before := inputs[..|inputs| - 1];
      var s := StateAfter(Initial(records), before, config);
      var last := inputs[|inputs| - 1];
      if s.halted {
        HaltedStays(s, last, config);
        assert false;
      }
      RunOrderly(records, before, config, key);
      assert KeyedEvent(last.event, key);
      StepOrderly(s, last, config, key);
    }
  }

  // ----- Two processors that cannot be told apart -----

  /** The assembly holds nothing that the next event of its run would not bring along. */
  predicate Blank(a: Assembly, mode: Option<Option<EngineMode>>) {
    a.output.None? && (mode.None? ==> a.mode.None?)
  }

  /** For a run that is still open the two hold the same assembly, or one holds none and the other a blank one. */
  ghost predicate SameEntry(a: AssemblerState, b: AssemblerState, id: string, key: RunKey) {
    && (id in a.assemblies && id in b.assemblies ==> a.assemblies[id] == b.assemblies[id])
    && (id in a.assemblies && id !in b.assemblies ==> Blank(a.assemblies[id], key.mode(id)))
    && (id !in a.assemblies ==> id !in b.assemblies)
  }

  /** A run of the symbol that completes halts the gate whatever it holds: publishing has no room for its events. */
  predicate Silent(latest: map<string, int>, symbol: string, config: GateConfig) {
    || config.publishMaxPending <= 0
    || (config.publishMaxPending == 1 && config.maxGapMs <= 0 && symbol in latest)
  }

  /** The mode of the run is fixed, and it can only end in a halt. */
  predicate Hidden(latest: map<string, int>, id: string, config: GateConfig, key: RunKey) {
    key.mode(id).Some? && Silent(latest, key.of(id).0, config)
  }

  /** Whatever differs concerns stale and hidden runs only. */
  ghost predicate Alike(a: AssemblerState, b: AssemblerState, config: GateConfig, key: RunKey) {
    && a.latest == b.latest
    && b.processed <= a.processed
    && (forall id :: id in a.processed - b.processed ==> StaleRun(a.latest, id, key))
    && (forall id :: !StaleRun(a.latest, id, key) ==> SameEntry(a, b, id, key) || Hidden(a.latest, id, config, key))
    && (forall id :: id in a.assemblies ==> Pending(a.assemblies[id], id, key))
    && (forall id :: id in b.assemblies ==> Pending(b.assemblies[id], id, key))
  }

  /** Both have halted, or their records and snapshots are the same and their assemblers alike. */
  ghost predicate Twins(a: ProcessorState, b: ProcessorState, config: GateConfig, key: RunKey) {
    || (a.halted && b.halted)
    || (&& !a.halted && !b.halted && a.machine == b.machine && a.records == b.records
        && a.assembler.latest == LatestTimestamps(a.machine)
        && Alike(a.assembler, b.assembler, config, key))
  }

  lemma OpenSame(a: AssemblerState, b: AssemblerState, event: OrchestratorEvent, key: RunKey)
    requires KeyedEvent(event, key) && SameEntry(a, b, event.runId, key)
    requires event.runId in a.assemblies ==> Pending(a.assemblies[event.runId], event.runId, key)
    ensures Opened(a, event) == Opened(b, event)
  {
  }

  lemma StaleGrows(latest: map<string, int>, symbol: string, timestamp: int, key: RunKey)
    requires !Stale(latest, symbol, timestamp)
    ensures forall id :: StaleRun(latest, id, key) ==> StaleRun(latest[symbol := timestamp], id, key)
  {
  }

  /** An event leaves the assemblies of all other runs as they are. */
  lemma IngestOthers(s: AssemblerState, event: OrchestratorEvent)
    ensures var next := Ingested(s, event).0;
            && (forall id :: id != event.runId ==> (id in next.assemblies <==> id in s.assemblies))
            && (forall id :: id != event.runId && id in next.assemblies ==> next.assemblies[id] == s.assemblies[id])
  {
    hide Opened, Applied, ReadyType, Stale;
  }

  ghost predicate LiveEvent(a: AssemblerState, event: OrchestratorEvent, key: RunKey) {
    && KeyedEvent(event, key) && IsInput(event.eventType)
    && event.runId !in a.processed && !StaleRun(a.latest, event.runId, key)
  }

  /** What an event of a live run changes: its own entry, and all of them if it completes the run. */
  lemma IngestLive(s: AssemblerState, event: OrchestratorEvent, key: RunKey)
    requires LiveEvent(s, event, key)
    requires event.runId in s.assemblies ==> Pending(s.assemblies[event.runId], event.runId, key)
    ensures var (next, result) := Ingested(s, event);
            && next == (if result.Ok? && result.value.Some?
                        then AssemblerState(s.assemblies - {event.runId}, s.processed + {event.runId},
                                            s.latest[event.symbol := event.timestamp])
                        else s.(assemblies := next.assemblies))
            && (result.Ok? && result.value.Some? ==>
                  result.value.value.symbol == event.symbol && result.value.value.timestamp == event.timestamp)
            && (event.runId in next.assemblies ==> Pending(next.assemblies[event.runId], event.runId, key))
  {
  }

  /** Where both have the same entry, an event changes it in the same way. */
  lemma IngestSameEntry(a: AssemblerState, b: AssemblerState, event: OrchestratorEvent, key: RunKey)
    requires LiveEvent(a, event, key) && event.runId !in b.processed && a.latest == b.latest
    requires SameEntry(a, b, event.runId, key)
    requires event.runId in a.assemblies ==> Pending(a.assemblies[event.runId], event.runId, key)
    ensures Ingested(a, event).1 == Ingested(b, event).1
    ensures SameEntry(Ingested(a, event).0, Ingested(b, event).0, event.runId, key)
  {
    hide Applied, Pending;
    OpenSame(a, b, event, key);
  }

  /** The two results are the same but for the output of a run. */
  ghost predicate SameButOutput(p: Result<Option<AssembledRun>, IngestError>,
                                q: Result<Option<AssembledRun>, IngestError>)
  {
    if p.Ok? && p.value.Some? && q.Ok? && q.value.Some?
    then p.value.value == q.value.value.(output := p.value.value.output) else p == q
  }

  /** Where the mode is fixed, pending runs differ in their outputs at most. */
  lemma IngestFixedMode(a: AssemblerState, b: AssemblerState, event: OrchestratorEvent, key: RunKey)
    requires LiveEvent(a, event, key) && event.runId !in b.processed && a.latest == b.latest
    requires key.mode(event.runId).Some?
    requires event.runId in a.assemblies ==> Pending(a.assemblies[event.runId], event.runId, key)
    requires event.runId in b.assemblies ==> Pending(b.assemblies[event.runId], event.runId, key)
    ensures SameButOutput(Ingested(a, event).1, Ingested(b, event).1)
  {
  }

  /** Whether either side still remembers the run or has forgotten it, a stale or foreign event is ignored. */
  lemma IngestDead(a: AssemblerState, b: AssemblerState, event: OrchestratorEvent, config: GateConfig, key: RunKey)
    requires Alike(a, b, config, key) && KeyedEvent(event, key) && !LiveEvent(a, event, key)
    ensures Ingested(a, event).1 == Ingested(b, event).1 == Ok(None) && Ingested(a, event).0.latest == a.latest
    ensures Alike(Ingested(a, event).0, Ingested(b, event).0, config, key)
  {
    hide Opened, Applied, Pending, Silent;
    if event.runId in a.processed && event.runId !in b.processed {
      assert event.runId in a.processed - b.processed;
    }
  }

  /** Both assemblers return the same, but for the output of a hidden run, and stay alike. */
  lemma IngestAlike(a: AssemblerState, b: AssemblerState, event: OrchestratorEvent, config: GateConfig, key: RunKey)
    requires Alike(a, b, config, key) && LiveEvent(a, event, key)
    ensures var p, q := Ingested(a, event).1, Ingested(b, event).1;
            SameButOutput(p, q) && (p == q || Hidden(a.latest, event.runId, config, key))
    ensures Alike(Ingested(a, event).0, Ingested(b, event).0, config, key)
  {
    hide Ingested, Stale, Pending, SameEntry;
    assert event.runId !in b.processed;
    IngestLive(a, event, key);
    IngestLive(b, event, key);
    if SameEntry(a, b, event.runId, key) {
      IngestSameEntry(a, b, event, key);
    } else {
      IngestFixedMode(a, b, event, key);
    }
    EntriesStay(a, b, event, config, key);
    IngestOthers(a, event);
    IngestOthers(b, event);
  }

  lemma EntriesStay(a: AssemblerState, b: AssemblerState, event: OrchestratorEvent, config: GateConfig, key: RunKey)
    requires Alike(a, b, config, key) && LiveEvent(a, event, key)
    ensures var x, y := Ingested(a, event).0, Ingested(b, event).0;
            && (forall id :: StaleRun(a.latest, id, key) ==> StaleRun(x.latest, id, key))
            && (forall id :: Hidden(a.latest, id, config, key) ==> Hidden(x.latest, id, config, key))
            && (forall id :: id != event.runId && SameEntry(a, b, id, key) ==> SameEntry(x, y, id, key))
  {
    hide Ingested, Stale, Pending;
    IngestOthers(a, event);
    IngestOthers(b, event);
    IngestLive(a, event, key);
    if Ingested(a, event).1.Ok? && Ingested(a, event).1.value.Some? {
      StaleGrows(a.latest, event.symbol, event.timestamp, key);
    }
  }

  /** A completed run of a symbol for which publishing has no room halts, whatever its output. */
  lemma SilentHalts(s: ProcessorState, run: AssembledRun, faults: Faults, config: GateConfig)
    requires Silent(LatestTimestamps(s.machine), run.symbol, config)
    requires !Stale(LatestTimestamps(s.machine), run.symbol, run.timestamp)
    ensures var (next, events) := Processed(s, run, faults, config);
            && next.halted
            && events == [HaltEvent(run.symbol, run.timestamp, run.runId, Some(run.inputType), run.mode,
                                    PUBLISH_BLOCKED, PUBLISH_DETAIL)]
  {
    hide Evaluate, RecordOf, RecordsOf, HaltEvent;
  }

  lemma ProcessedAlike(a: ProcessorState, b: ProcessorState, run: AssembledRun, faults: Faults, config: GateConfig,
                       key: RunKey)
    requires a.machine == b.machine && a.records == b.records && !a.halted && !b.halted
    requires a.assembler.latest == LatestTimestamps(a.machine)[run.symbol := run.timestamp]
    requires Alike(a.assembler, b.assembler, config, key)
    ensures Processed(a, run, faults, config).1 == Processed(b, run, faults, config).1
    ensures Twins(Processed(a, run, faults, config).0, Processed(b, run, faults, config).0, config, key)
  {
    hide Evaluate, MachineEvents, RecordsOf, RecordOf, HaltEvent, LatestTimestamps, Alike;
    LatestUpdate(a.machine, run, Evaluate(run, config));
  }

  lemma ConsumedIs(s: ProcessorState, event: OrchestratorEvent, faults: Faults, config: GateConfig)
    requires !s.halted
    ensures var (assembler, ingested) := Ingested(s.assembler, event);
            var entered := s.(assembler := assembler);
            if ingested.Ok? && ingested.value.Some? then
              var processed := Processed(entered, ingested.value.value, faults, config);
              Consumed(s, event, faults, config) == (processed.0, Ok(processed.1))
            else
              && Consumed(s, event, faults, config).0 == entered
              && Consumed(s, event, faults, config).1 == if ingested.Ok? then Ok([]) else Err(ingested.error)
  {
    hide Opened, Applied, Stale, Processed;
  }

  lemma StepLive(a: ProcessorState, b: ProcessorState, input: Input, config: GateConfig, key: RunKey)
    requires Twins(a, b, config, key) && !a.halted && LiveEvent(a.assembler, input.event, key)
    ensures Consumed(a, input.event, input.faults, config).1 == Consumed(b, input.event, input.faults, config).1
    ensures Twins(Consumed(a, input.event, input.faults, config).0, Consumed(b, input.event, input.faults, config).0,
                  config, key)
  {
    hide Ingested, Processed, Consumed, Twins, Alike, Silent, LatestTimestamps, HaltEvent, Pending;
    var event := input.event;
    TwinBasics(a, b, event, config, key);
    IngestAlike(a.assembler, b.assembler, event, config, key);
    IngestLive(a.assembler, event, key);
    ConsumedIs(a, event, input.faults, config);
    ConsumedIs(b, event, input.faults, config);
    var p, q := Ingested(a.assembler, event).1, Ingested(b.assembler, event).1;
    var x := a.(assembler := Ingested(a.assembler, event).0);
    var y := b.(assembler := Ingested(b.assembler, event).0);
    if p.Ok? && p.value.Some? {
      CompletedTwins(x, y, p.value.value, q.value.value, input.faults, config, key);
    } else {
      AlikeTwins(x, y, config, key);
    }
  }

  /** Two completed runs that differ in their outputs at most, and not at all where publishing has room for them. */
  lemma CompletedTwins(a: ProcessorState, b: ProcessorState, run: AssembledRun,
                       run': AssembledRun, faults: Faults, config: GateConfig, key: RunKey)
    requires !a.halted && !b.halted && a.machine == b.machine && a.records == b.records
    requires a.assembler.latest == LatestTimestamps(a.machine)[run.symbol := run.timestamp]
    requires Alike(a.assembler, b.assembler, config, key)
    requires run == run'.(output := run.output)
    requires run == run' || Silent(LatestTimestamps(a.machine), run.symbol, config)
    requires !Stale(LatestTimestamps(a.machine), run.symbol, run.timestamp)
    ensures Processed(a, run, faults, config).1 == Processed(b, run', faults, config).1
    ensures Twins(Processed(a, run, faults, config).0, Processed(b, run', faults, config).0, config, key)
  {
    hide Processed, Twins, Alike, Silent, LatestTimestamps, HaltEvent, Stale;
    if run == run' {
      ProcessedAlike(a, b, run, faults, config, key);
    } else {
      SilentHalts(a, run, faults, config);
      SilentHalts(b, run', faults, config);
      HaltedTwins(Processed(a, run, faults, config).0, Processed(b, run', faults, config).0, config, key);
    }
  }

  lemma HaltedTwins(a: ProcessorState, b: ProcessorState, config: GateConfig, key: RunKey)
    requires a.halted && b.halted
    ensures Twins(a, b, config, key)
  {
  }

  lemma AlikeTwins(a: ProcessorState, b: ProcessorState, config: GateConfig, key: RunKey)
    requires !a.halted && !b.halted && a.machine == b.machine && a.records == b.records
    requires a.assembler.latest == LatestTimestamps(a.machine) && Alike(a.assembler, b.assembler, config, key)
    ensures Twins(a, b, config, key)
  {
  }

  lemma TwinBasics(a: ProcessorState, b: ProcessorState, event: OrchestratorEvent, config: GateConfig, key: RunKey)
    requires Twins(a, b, config, key) && !a.halted && LiveEvent(a.assembler, event, key)
    ensures !b.halted && a.machine == b.machine && a.records == b.records
    ensures a.assembler.latest == LatestTimestamps(a.machine) && Alike(a.assembler, b.assembler, config, key)
    ensures event.runId in a.assembler.assemblies ==>
              Pending(a.assembler.assemblies[event.runId], event.runId, key)
  {
    hide Pending;
  }

  lemma StepSame(a: ProcessorState, b: ProcessorState, input: Input, config: GateConfig, key: RunKey)
    requires Twins(a, b, config, key) && KeyedEvent(input.event, key)
    ensures Consumed(a, input.event, input.faults, config).1 == Consumed(b, input.event, input.faults, config).1
    ensures Twins(Consumed(a, input.event, input.faults, config).0, Consumed(b, input.event, input.faults, config).0,
                  config, key)
  {
    hide Ingested, Processed, Alike, LatestTimestamps, LiveEvent, KeyedEvent, HaltEvent;
    if !a.halted {
      if LiveEvent(a.assembler, input.event, key) {
        StepLive(a, b, input, config, key);
      } else {
        IngestDead(a.assembler, b.assembler, input.event, config, key);
      }
    }
  }

  lemma {:induction false} TwinsForever(a: ProcessorState, b: ProcessorState, future: seq<Input>, config: GateConfig,
                                        key: RunKey)
    requires Twins(a, b, config, key) && Keyed(future, key)
    ensures Results(a, future, config) == Results(b, future, config)
    ensures Twins(StateAfter(a, future, config), StateAfter(b, future, config), config, key)
  {
    hide Twins, Consumed;
    if |future| > 0 {
      var before := future[..|future| - 1];
      TwinsForever(a, b, before, config, key);
      assert KeyedEvent(future[|future| - 1].event, key);
      StepSame(StateAfter(a, before, config), StateAfter(b, before, config), future[|future| - 1], config, key);
    }
  }
}
