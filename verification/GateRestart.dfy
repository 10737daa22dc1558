/** A processor rebuilt from the records of another one: when it behaves the same for ever after. */
module GateRestart {
  import opened Ordering
  import opened Regimes
  import opened HysteresisRules
  import opened OrchestratorContracts
  import opened GateAssembly
  import opened GateProcessing
  import opened GateRuns
  import opened GateTwins

  // ----- What a restart loses -----

  /** The pending runs hold nothing that a restart would show: each is stale, or blank, or can only end in a halt. */
  predicate NothingPending(s: ProcessorState, config: GateConfig, key: RunKey) {
    forall id :: id in s.assembler.assemblies ==>
      var a := s.assembler.assemblies[id];
      || Stale(s.assembler.latest, a.symbol, a.timestamp)
      || Blank(a, key.mode(id))
      || Hidden(s.assembler.latest, id, config, key)
  }

  ghost predicate SameForever(a: ProcessorState, b: ProcessorState, config: GateConfig, key: RunKey) {
    forall future: seq<Input> :: Keyed(future, key) ==> Results(a, future, config) == Results(b, future, config)
  }

  lemma RestartIsTwin(s: ProcessorState, config: GateConfig, key: RunKey)
    requires Orderly(s, key) && CopiesAgree(s) && !s.halted && NothingPending(s, config, key)
    ensures Twins(s, Initial(s.records), config, key)
  {
    hide FoldSnapshots, LatestTimestamps, RunIds, Silent;
    var r := Initial(s.records).assembler;
    forall id | !StaleRun(s.assembler.latest, id, key)
      ensures SameEntry(s.assembler, r, id, key) || Hidden(s.assembler.latest, id, config, key)
    {
      if id in s.assembler.assemblies {
        assert Pending(s.assembler.assemblies[id], id, key);
      }
    }
  }

  /** An event that tells the two apart. Where the mode is free, a processor with the pending assembly refuses a
      failure in another mode, and a rebuilt one evaluates it; where it is fixed, both evaluate a hysteresis state, one
      with the output and one without. */
  function Probe(id: string, a: Assembly, mode: Option<Option<EngineMode>>): OrchestratorEvent {
    match mode
    case None =>
      OrchestratorEvent(EngineRunFailed, id, a.symbol, a.timestamp, 0, 0, TimerCut,
                        if a.mode == Some(Truth) then Some(Hysteresis) else Some(Truth), None, None, NoPayload)
    case Some(fixed) =>
      OrchestratorEvent(HysteresisStatePublished, id, a.symbol, a.timestamp, 0, 0, TimerCut, fixed, None, None,
                        StatePayload(HysteresisState(a.symbol, a.timestamp, ChopBalanced, None, 0, 1, None, [], None)))
  }

  const NO_FAULTS := Faults(None, false)

  lemma LostModeShows(s: ProcessorState, id: string, config: GateConfig, key: RunKey)
    requires Orderly(s, key) && CopiesAgree(s) && !s.halted
    requires id in s.assembler.assemblies && key.mode(id).None?
    requires var a := s.assembler.assemblies[id]; !Stale(s.assembler.latest, a.symbol, a.timestamp) && a.mode.Some?
    ensures var probe := Probe(id, s.assembler.assemblies[id], key.mode(id));
            && KeyedEvent(probe, key)
            && Consumed(s, probe, NO_FAULTS, config).1 != Consumed(Initial(s.records), probe, NO_FAULTS, config).1
  {
    hide FoldSnapshots, LatestTimestamps, RunIds, Evaluate, MachineEvents, RecordsOf;
    var a := s.assembler.assemblies[id];
    assert Pending(a, id, key);
    var probe := Probe(id, a, key.mode(id));
    assert Consumed(s, probe, NO_FAULTS, config).1 == Err(InconsistentMode);
    assert Ingested(Initial(s.records).assembler, probe).1.Ok?;
    assert Consumed(Initial(s.records), probe, NO_FAULTS, config).1.Ok?;
  }

  /** A hysteresis state completes its run, with the output that is pending or with none. */
  lemma ProbeCompletes(s: AssemblerState, id: string, a: Assembly, fixed: Option<EngineMode>)
    requires id !in s.processed && !Stale(s.latest, a.symbol, a.timestamp) && a.mode == fixed
    requires id in s.assemblies ==> s.assemblies[id] == a
    ensures var result := Ingested(s, Probe(id, a, Some(fixed))).1;
            && result.Ok? && result.value.Some? && result.value.value.inputType == HysteresisStatePublished
            && result.value.value.symbol == a.symbol && result.value.value.timestamp == a.timestamp
            && result.value.value.output == if id in s.assemblies then a.output else None
  {
  }

  /** Publishing has room for the events of a run of this symbol and time. */
  predicate Room(latest: map<string, int>, symbol: string, timestamp: int, config: GateConfig) {
    || config.publishMaxPending >= 2
    || (config.publishMaxPending == 1 && (symbol in latest ==> timestamp - latest[symbol] <= config.maxGapMs))
  }

  lemma RoomForEvents(snapshots: Snapshots, run: AssembledRun, e: GateEvaluation, config: GateConfig)
    requires Room(LatestTimestamps(snapshots), run.symbol, run.timestamp, config)
    ensures |MachineEvents(snapshots, run, e, config)| <= config.publishMaxPending
  {
  }

  /** With room for its events, the evaluation of a run that did not fail shows its output. */
  lemma OutputShows(s: ProcessorState, event: OrchestratorEvent, config: GateConfig)
    requires !s.halted
    requires var result := Ingested(s.assembler, event).1;
             && result.Ok? && result.value.Some? && result.value.value.inputType == HysteresisStatePublished
             && Room(LatestTimestamps(s.machine), result.value.value.symbol, result.value.value.timestamp, config)
    ensures var run := Ingested(s.assembler, event).1.value.value;
            var result := Consumed(s, event, NO_FAULTS, config).1;
            && result.Ok? && |result.value| > 0
            && var payload := result.value[|result.value| - 1].payload;
               (run.output.Some? <==> payload.EvaluatedPayload? && payload.output.Some?)
  {
    hide Ingested, MachineEvents, RecordsOf, Room, LatestTimestamps;
    var run := Ingested(s.assembler, event).1.value.value;
    MachineEventsShape(s.machine, run, Evaluate(run, config), config);
    RoomForEvents(s.machine, run, Evaluate(run, config), config);
  }

  /** Two processors, of which one holds the output of a live run with a fixed mode and the other one does not. */
  ghost predicate Apart(s: ProcessorState, r: ProcessorState, id: string, key: RunKey) {
    && !s.halted && s.assembler.latest == LatestTimestamps(s.machine)
    && !r.halted && r.assembler.latest == LatestTimestamps(r.machine)
    && s.assembler.latest == r.assembler.latest
    && !StaleRun(s.assembler.latest, id, key) && id !in s.assembler.processed && id !in r.assembler.processed
    && id in s.assembler.assemblies && id !in r.assembler.assemblies
    && Pending(s.assembler.assemblies[id], id, key)
    && s.assembler.assemblies[id].output.Some? && key.mode(id).Some?
  }

  lemma LostOutputShows(s: ProcessorState, r: ProcessorState, id: string, config: GateConfig, key: RunKey)
    requires Apart(s, r, id, key) && Room(s.assembler.latest, key.of(id).0, key.of(id).1, config)
    ensures var probe := Probe(id, s.assembler.assemblies[id], key.mode(id));
            && KeyedEvent(probe, key)
            && Consumed(s, probe, NO_FAULTS, config).1 != Consumed(r, probe, NO_FAULTS, config).1
  {
    hide LatestTimestamps, Ingested, Consumed, Room;
    var a := s.assembler.assemblies[id];
    var probe := Probe(id, a, key.mode(id));
    ProbeCompletes(s.assembler, id, a, key.mode(id).value);
    ProbeCompletes(r.assembler, id, a, key.mode(id).value);
    OutputShows(s, probe, config);
    OutputShows(r, probe, config);
  }

  // ----- Making room -----

  /** Not halted, its copies agree, what it has processed is stale, and what is pending carries its own key. */
  ghost predicate Calm(s: ProcessorState, key: RunKey) {
    && !s.halted && s.assembler.latest == LatestTimestamps(s.machine)
    && (forall id :: id in s.assembler.processed ==> StaleRun(s.assembler.latest, id, key))
    && (forall id :: id in s.assembler.assemblies ==> Pending(s.assembler.assemblies[id], id, key))
  }

  /** Every symbol and time has a run id, as a hash of both gives one. */
  ghost predicate Full(key: RunKey) {
    forall symbol, t :: exists id :: key.of(id) == (symbol, t)
  }

  ghost function RunAt(key: RunKey, symbol: string, t: int): (id: string)
    requires Full(key)
    ensures key.of(id) == (symbol, t)
  {
    var id :| key.of(id) == (symbol, t); id
  }

  /** The failure of a run of that symbol and time. */
  ghost function FailureAt(key: RunKey, symbol: string, t: int): Input
    requires Full(key)
  {
    var id := RunAt(key, symbol, t);
    Input(OrchestratorEvent(EngineRunFailed, id, symbol, t, 0, 0, TimerCut,
                            if key.mode(id).Some? then key.mode(id).value else None, None, None, NoPayload),
          NO_FAULTS)
  }

  ghost function Failures(key: RunKey, symbol: string, from: int, n: nat): seq<Input>
    requires Full(key)
  {
    if n == 0 then [] else Failures(key, symbol, from, n - 1) + [FailureAt(key, symbol, from + n)]
  }

  lemma {:induction false} FailuresAreKeyed(key: RunKey, symbol: string, from: int, n: nat)
    requires Full(key)
    ensures Keyed(Failures(key, symbol, from, n), key)
  {
    if n > 0 { FailuresAreKeyed(key, symbol, from, n - 1); }
  }

  /** A failure completes its run at once. */
  lemma FailureCompletes(s: AssemblerState, key: RunKey, symbol: string, t: int)
    requires Full(key) && !Stale(s.latest, symbol, t)
    requires forall id :: id in s.processed ==> StaleRun(s.latest, id, key)
    requires forall id :: id in s.assemblies ==> Pending(s.assemblies[id], id, key)
    ensures var id := RunAt(key, symbol, t);
            var (next, result) := Ingested(s, FailureAt(key, symbol, t).event);
            && result.Ok? && result.value.Some?
            && result.value.value.symbol == symbol && result.value.value.timestamp == t
            && next == AssemblerState(s.assemblies - {id}, s.processed + {id}, s.latest[symbol := t])
  {
    var id := RunAt(key, symbol, t);
    assert !StaleRun(s.latest, id, key);
  }

  /** A failure within the gap is evaluated without a halt, and leaves other pending runs as they are. */
  lemma FailureMovesOn(s: ProcessorState, config: GateConfig, key: RunKey, symbol: string, t: int)
    requires Full(key) && Calm(s, key) && !Stale(s.assembler.latest, symbol, t)
    requires Room(s.assembler.latest, symbol, t, config)
    ensures var next := Consumed(s, FailureAt(key, symbol, t).event, NO_FAULTS, config).0;
            && Calm(next, key)
            && next.assembler.latest == s.assembler.latest[symbol := t]
            && next.assembler.assemblies == s.assembler.assemblies - {RunAt(key, symbol, t)}
  {
    hide Ingested, Evaluate, MachineEvents, RecordsOf, LatestTimestamps, Room, FailureAt, Pending;
    FailureCompletes(s.assembler, key, symbol, t);
    var event := FailureAt(key, symbol, t).event;
    var run := Ingested(s.assembler, event).1.value.value;
    RoomForEvents(s.machine, run, Evaluate(run, config), config);
    LatestUpdate(s.machine, run, Evaluate(run, config));
    StaleGrows(s.assembler.latest, symbol, t, key);
  }

  /** One failure after the other at every time up to the run makes room for it. */
  lemma {:induction false} FailuresMakeRoom(s: ProcessorState, config: GateConfig, key: RunKey, symbol: string, n: nat)
    requires Full(key) && Calm(s, key) && config.publishMaxPending >= 1 && config.maxGapMs >= 1
    requires symbol in s.assembler.latest
    ensures var from := s.assembler.latest[symbol];
            var next := StateAfter(s, Failures(key, symbol, from, n), config);
            && Calm(next, key)
            && next.assembler.latest == s.assembler.latest[symbol := from + n]
            && (forall id :: key.of(id).0 == symbol && key.of(id).1 > from + n ==>
                  && (id in next.assembler.assemblies <==> id in s.assembler.assemblies)
                  && (id in next.assembler.assemblies ==>
                        next.assembler.assemblies[id] == s.assembler.assemblies[id]))
  {
    hide Calm, Consumed, FailureAt, RunAt;
    if n > 0 {
      var from := s.assembler.latest[symbol];
      FailuresMakeRoom(s, config, key, symbol, n - 1);
      var before := Failures(key, symbol, from, n - 1);
      var all := Failures(key, symbol, from, n);
      assert all[..|all| - 1] == before && all[|all| - 1] == FailureAt(key, symbol, from + n);
      FailureFaults(key, symbol, from + n);
      FailureMovesOn(StateAfter(s, before, config), config, key, symbol, from + n);
    }
  }

  lemma FailureFaults(key: RunKey, symbol: string, t: int)
    requires Full(key)
    ensures FailureAt(key, symbol, t).faults == NO_FAULTS && key.of(RunAt(key, symbol, t)) == (symbol, t)
  {
  }

  // ----- Exactly when a restart shows -----

  /** The records are those of runs of this key, and the last record of a symbol is its latest. */
  ghost predicate Logged(records: seq<GateRecord>, key: RunKey) {
    forall id :: id in RunIds(records) ==> StaleRun(Initial(records).assembler.latest, id, key)
  }

  lemma CalmStep(s: ProcessorState, input: Input, config: GateConfig, key: RunKey)
    requires Calm(s, key) && KeyedEvent(input.event, key)
    requires !Consumed(s, input.event, input.faults, config).0.halted
    ensures Calm(Consumed(s, input.event, input.faults, config).0, key)
  {
    hide Ingested, Evaluate, MachineEvents, RecordsOf, LatestTimestamps, Pending, Stale;
    IngestOrderly(s.assembler, input.event, {}, key);
    var result := Ingested(s.assembler, input.event).1;
    if result.Ok? && result.value.Some? {
      CompletedRunIsNew(s.assembler, input.event);
      LatestUpdate(s.machine, result.value.value, Evaluate(result.value.value, config));
      CompletedIsStale(s.assembler.latest, input.event, key);
    } else {
      LatestStays(s.assembler, input.event);
    }
  }

  lemma CompletedIsStale(latest: map<string, int>, event: OrchestratorEvent, key: RunKey)
    requires KeyedEvent(event, key)
    ensures StaleRun(latest[event.symbol := event.timestamp], event.runId, key)
  {
  }

  lemma LatestStays(s: AssemblerState, event: OrchestratorEvent)
    requires var result := Ingested(s, event).1; !(result.Ok? && result.value.Some?)
    ensures Ingested(s, event).0.latest == s.latest
  {
  }

  lemma {:induction false} RunCalm(records: seq<GateRecord>, inputs: seq<Input>, config: GateConfig, key: RunKey)
    requires Keyed(inputs, key) && Logged(records, key) && !StateAfter(Initial(records), inputs, config).halted
    ensures Calm(StateAfter(Initial(records), inputs, config), key)
  {
    hide Consumed, FoldSnapshots, LatestTimestamps, RunIds, KeyedEvent, StaleRun;
    if |inputs| > 0 {
      var before, last := inputs[..|inputs| - 1], inputs[|inputs| - 1];
      var s := StateAfter(Initial(records), before, config);
      if s.halted {
        HaltedStays(s, last, config);
        assert false;
      }
      RunCalm(records, before, config, key);
      CalmStep(s, last, config, key);
    }
  }

  lemma RebuiltIsApart(s: ProcessorState, id: string, key: RunKey)
    requires Orderly(s, key) && CopiesAgree(s) && !s.halted && id in s.assembler.assemblies
    requires !StaleRun(s.assembler.latest, id, key)
    requires s.assembler.assemblies[id].output.Some? && key.mode(id).Some?
    ensures Apart(s, Initial(s.records), id, key)
    ensures Calm(s, key) ==> Calm(Initial(s.records), key)
  {
    hide FoldSnapshots, LatestTimestamps, RunIds, StaleRun, Pending;
  }

  /** Results that differ at the end of a keyed future. */
  lemma LastResultShows(s: ProcessorState, r: ProcessorState, future: seq<Input>, probe: OrchestratorEvent,
                        config: GateConfig, key: RunKey)
    requires Keyed(future, key) && KeyedEvent(probe, key)
    requires Consumed(StateAfter(s, future, config), probe, NO_FAULTS, config).1
             != Consumed(StateAfter(r, future, config), probe, NO_FAULTS, config).1
    ensures !SameForever(s, r, config, key)
  {
    hide Consumed, KeyedEvent;
    var all := future + [Input(probe, NO_FAULTS)];
    assert all[..|all| - 1] == future && all[|all| - 1] == Input(probe, NO_FAULTS);
    assert forall i :: 0 <= i < |future| ==> all[i] == future[i];
    assert Keyed(all, key);
    ResultsLength(s, future, config);
    ResultsLength(r, future, config);
    assert Results(s, all, config)[|future|] != Results(r, all, config)[|future|];
  }

  lemma {:induction false} ResultsLength(s: ProcessorState, inputs: seq<Input>, config: GateConfig)
    ensures |Results(s, inputs, config)| == |inputs|
  {
    hide Consumed;
    if |inputs| > 0 { ResultsLength(s, inputs[..|inputs| - 1], config); }
  }

  lemma LostPendingShows(s: ProcessorState, id: string, config: GateConfig, key: RunKey)
    requires Orderly(s, key) && CopiesAgree(s) && !s.halted && id in s.assembler.assemblies
    requires !StaleRun(s.assembler.latest, id, key)
    requires !Blank(s.assembler.assemblies[id], key.mode(id)) && !Hidden(s.assembler.latest, id, config, key)
    requires config.publishMaxPending == 1 && key.mode(id).Some? ==> Full(key) && Calm(s, key)
    ensures !SameForever(s, Initial(s.records), config, key)
  {
    hide CopiesAgree, Consumed, Orderly, FoldSnapshots, LatestTimestamps, RunIds, SameForever, StateAfter, Results,
         FailureAt, Probe;
    var r := Initial(s.records);
    var (symbol, t) := key.of(id);
    PendingOf(s, id, key);
    var probe := Probe(id, s.assembler.assemblies[id], key.mode(id));
    if key.mode(id).None? {
      LostModeShows(s, id, config, key);
      NoneYet(s, config);
      NoneYet(r, config);
      LastResultShows(s, r, [], probe, config, key);
    } else {
      RebuiltIsApart(s, id, key);
      if Room(s.assembler.latest, symbol, t, config) {
        LostOutputShows(s, r, id, config, key);
        NoneYet(s, config);
        NoneYet(r, config);
        LastResultShows(s, r, [], probe, config, key);
      } else {
        var from := s.assembler.latest[symbol];
        var n := t - 1 - from;
        FailuresMakeRoom(s, config, key, symbol, n);
        FailuresMakeRoom(r, config, key, symbol, n);
        FailuresAreKeyed(key, symbol, from, n);
        var failures := Failures(key, symbol, from, n);
        LostOutputShows(StateAfter(s, failures, config), StateAfter(r, failures, config), id, config, key);
        LastResultShows(s, r, failures, probe, config, key);
      }
    }
  }

  lemma PendingOf(s: ProcessorState, id: string, key: RunKey)
    requires Orderly(s, key) && id in s.assembler.assemblies
    ensures Pending(s.assembler.assemblies[id], id, key)
  {
  }

  lemma NoneYet(s: ProcessorState, config: GateConfig)
    ensures StateAfter(s, [], config) == s
  {
  }

  /** A processor rebuilt from the records of one that has not halted answers every future input as the original would,
      if each pending run of the original is stale, or blank, or hidden: it holds no output, and no mode that its later
      events could contradict, or publishing has no room for its events and it can only end in a halt. This is the
      exact condition. Only where publishing has room for one event at a time does that take run ids of all times, and
      a log of such runs: a gap since the last run is then closed by other runs first. */
  lemma RestartEquivalence(records: seq<GateRecord>, past: seq<Input>, config: GateConfig, key: RunKey)
    requires Keyed(past, key) && !StateAfter(Initial(records), past, config).halted
    ensures var s := StateAfter(Initial(records), past, config);
            && (NothingPending(s, config, key) ==> SameForever(s, Initial(s.records), config, key))
            && ((config.publishMaxPending == 1 ==>
                   (forall id :: key.mode(id).None?) || (Full(key) && Logged(records, key))) ==>
                  (SameForever(s, Initial(s.records), config, key) <==> NothingPending(s, config, key)))
  {
    hide Orderly, CopiesAgree, Results, StateAfter, Initial, Twins, StaleRun, Consumed, Blank, Hidden, Calm, Logged;
    var s := StateAfter(Initial(records), past, config);
    RunOrderly(records, past, config, key);
    CopiesAgreeAlways(records, past, config);
    if NothingPending(s, config, key) {
      RestartIsTwin(s, config, key);
      forall future: seq<Input> | Keyed(future, key)
        ensures Results(s, future, config) == Results(Initial(s.records), future, config)
      {
        TwinsForever(s, Initial(s.records), future, config, key);
      }
    } else if config.publishMaxPending != 1 || (forall id :: key.mode(id).None?)
              || (Full(key) && Logged(records, key)) {
      if Logged(records, key) { RunCalm(records, past, config, key); }
      var id := SomePending(s, config, key);
      LostPendingShows(s, id, config, key);
    }
  }

  lemma SomePending(s: ProcessorState, config: GateConfig, key: RunKey) returns (id: string)
    requires Orderly(s, key) && !NothingPending(s, config, key)
    ensures id in s.assembler.assemblies && !StaleRun(s.assembler.latest, id, key)
    ensures !Blank(s.assembler.assemblies[id], key.mode(id)) && !Hidden(s.assembler.latest, id, config, key)
  {
    hide Stale, Blank, Hidden;
    id :| id in s.assembler.assemblies &&
          var a := s.assembler.assemblies[id];
          !(Stale(s.assembler.latest, a.symbol, a.timestamp) || Blank(a, key.mode(id))
            || Hidden(s.assembler.latest, id, config, key));
    PendingOf(s, id, key);
  }

  /** When run ids fix the mode as well, as those of the orchestrator do, a restart loses exactly the outputs that wait
      for their hysteresis state: it shows if and only if a pending run that is not stale holds one, and publishing has
      room for two events, or for one if runs may follow each other or none of the symbol has come before. */
  lemma RestartLosesOutputs(records: seq<GateRecord>, past: seq<Input>, config: GateConfig, key: RunKey)
    requires Keyed(past, key) && !StateAfter(Initial(records), past, config).halted
    requires forall id :: key.mode(id).Some?
    requires config.publishMaxPending == 1 ==> Full(key) && Logged(records, key)
    ensures var s := StateAfter(Initial(records), past, config);
            SameForever(s, Initial(s.records), config, key) <==>
              forall id :: id in s.assembler.assemblies ==>
                var a := s.assembler.assemblies[id];
                || Stale(s.assembler.latest, a.symbol, a.timestamp)
                || a.output.None?
                || Silent(s.assembler.latest, a.symbol, config)
  {
    hide SameForever, StateAfter, Initial, Stale, Silent, Full, Logged;
    RestartEquivalence(records, past, config, key);
    RunOrderly(records, past, config, key);
    var s := StateAfter(Initial(records), past, config);
    forall id | id in s.assembler.assemblies ensures s.assembler.assemblies[id].symbol == key.of(id).0 {
      PendingOf(s, id, key);
    }
  }

  /** When the mode of a run id is free, any mode that a pending run holds is lost as well. */
  lemma RestartLosesModes(records: seq<GateRecord>, past: seq<Input>, config: GateConfig, key: RunKey)
    requires Keyed(past, key) && !StateAfter(Initial(records), past, config).halted
    requires forall id :: key.mode(id).None?
    ensures var s := StateAfter(Initial(records), past, config);
            SameForever(s, Initial(s.records), config, key) <==>
              forall id :: id in s.assembler.assemblies ==>
                var a := s.assembler.assemblies[id];
                Stale(s.assembler.latest, a.symbol, a.timestamp) || a.mode.None?
  {
    hide SameForever, StateAfter, Initial, Stale, Logged, Full;
    RestartEquivalence(records, past, config, key);
    RunOrderly(records, past, config, key);
    var s := StateAfter(Initial(records), past, config);
    forall id | id in s.assembler.assemblies && s.assembler.assemblies[id].mode.None?
      ensures s.assembler.assemblies[id].output.None?
    {
      PendingOf(s, id, key);
    }
  }
}
