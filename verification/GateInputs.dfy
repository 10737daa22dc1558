/** What the state gate makes of the events of a run, over every history of its inputs. */
module GateInputs {
  import opened Ordering
  import opened Regimes
  import opened HysteresisRules
  import opened OrchestratorContracts
  import opened GateAssembly
  import opened GateProcessing

  // ----- The assembler over a history -----

  function AssemblerAfter(s: AssemblerState, events: seq<OrchestratorEvent>): AssemblerState {
    if |events| == 0 then s
    else Ingested(AssemblerAfter(s, events[..|events| - 1]), events[|events| - 1]).0
  }

  /** The event can still change something: it is no start, and its run is neither processed nor behind its symbol. */
  predicate Live(s: AssemblerState, event: OrchestratorEvent) {
    && event.eventType != EngineRunStarted && event.runId !in s.processed
    && (event.symbol in s.latest ==> s.latest[event.symbol] < event.timestamp)
  }

  /** The events of a run that were taken: live ones on which the assembler did not raise. */
  function Taken(s: AssemblerState, events: seq<OrchestratorEvent>, id: string): seq<OrchestratorEvent> {
    if |events| == 0 then []
    else
      var before, last := events[..|events| - 1], events[|events| - 1];
      var now := AssemblerAfter(s, before);
      Taken(s, before, id)
      + (if last.runId == id && Live(now, last) && Ingested(now, last).1.Ok? then [last] else [])
  }

  // ----- What the events of a run say -----

  /** The output of the last completion. */
  function LastOutput(events: seq<OrchestratorEvent>): Option<RegimeOutput> {
    if |events| == 0 then None
    else
      var last := events[|events| - 1];
      if last.eventType == EngineRunCompleted && last.payload.CompletedPayload? then Some(last.payload.output)
      else LastOutput(events[..|events| - 1])
  }

  /** The last hysteresis state. */
  function LastState(events: seq<OrchestratorEvent>): Option<HysteresisState> {
    if |events| == 0 then None
    else
      var last := events[|events| - 1];
      if last.eventType == HysteresisStatePublished && last.payload.StatePayload? then Some(last.payload.state)
      else LastState(events[..|events| - 1])
  }

  predicate SomeFailure(events: seq<OrchestratorEvent>) {
    exists i :: 0 <= i < |events| && events[i].eventType == EngineRunFailed
  }

  /** The assembly is that of its events. */
  ghost predicate AssembledFrom(a: Assembly, taken: seq<OrchestratorEvent>) {
    && a.output == LastOutput(taken) && a.hysteresis == LastState(taken) && (a.failed <==> SomeFailure(taken))
    && (forall i :: 0 <= i < |taken| ==>
          && taken[i].symbol == a.symbol && taken[i].timestamp == a.timestamp
          && (taken[i].mode.Some? ==> taken[i].mode == a.mode))
  }

  /** Every pending assembly is that of the events taken for it, and none is taken for a run that is neither pending nor
      processed. */
  ghost predicate AllAssembled(s: AssemblerState, events: seq<OrchestratorEvent>) {
    var now := AssemblerAfter(s, events);
    && (forall id :: id in now.assemblies && id !in now.processed ==>
          AssembledFrom(now.assemblies[id], Taken(s, events, id)))
    && (forall id :: id !in now.assemblies && id !in now.processed ==> Taken(s, events, id) == [])
  }

  lemma Snoc(taken: seq<OrchestratorEvent>, event: OrchestratorEvent)
    ensures LastOutput(taken + [event]) == if event.eventType == EngineRunCompleted && event.payload.CompletedPayload?
                                           then Some(event.payload.output) else LastOutput(taken)
    ensures LastState(taken + [event]) == if event.eventType == HysteresisStatePublished && event.payload.StatePayload?
                                          then Some(event.payload.state) else LastState(taken)
    ensures SomeFailure(taken + [event]) <==> SomeFailure(taken) || event.eventType == EngineRunFailed
  {
    var all := taken + [event];
    assert all[..|taken|] == taken && all[|taken|] == event;
    assert forall i :: 0 <= i < |taken| ==> all[i] == taken[i];
  }

  lemma OpenedFrom(s: AssemblerState, event: OrchestratorEvent, taken: seq<OrchestratorEvent>)
    requires event.runId in s.assemblies ==> AssembledFrom(s.assemblies[event.runId], taken)
    requires event.runId !in s.assemblies ==> taken == []
    ensures var entry := Opened(s, event);
            entry.Ok? ==> && AssembledFrom(entry.value, taken)
                           && entry.value.symbol == event.symbol && entry.value.timestamp == event.timestamp
                           && (event.mode.Some? ==> entry.value.mode == event.mode)
  {
  }

  lemma AppliedFrom(a: Assembly, event: OrchestratorEvent, taken: seq<OrchestratorEvent>)
    requires AssembledFrom(a, taken) && a.symbol == event.symbol && a.timestamp == event.timestamp
    requires (event.mode.Some? ==> a.mode == event.mode) && event.eventType != EngineRunStarted
    ensures var applied := Applied(a, event); applied.Ok? ==> AssembledFrom(applied.value, taken + [event])
  {
    Snoc(taken, event);
    var all := taken + [event];
    assert all[|taken|] == event && forall i :: 0 <= i < |taken| ==> all[i] == taken[i];
  }

  /** The events do not complete a run: they have brought no hysteresis state, no failure, and no output but in
      hysteresis mode. */
  ghost predicate StillOpen(mode: Option<EngineMode>, taken: seq<OrchestratorEvent>) {
    LastState(taken).None? && !SomeFailure(taken) && (LastOutput(taken).Some? ==> mode == Some(Hysteresis))
  }

  lemma NotReady(a: Assembly, taken: seq<OrchestratorEvent>)
    requires AssembledFrom(a, taken) && ReadyType(a).None?
    ensures StillOpen(a.mode, taken)
  {
    hide SomeFailure;
  }

  lemma IngestFrom(s: AssemblerState, event: OrchestratorEvent, taken: seq<OrchestratorEvent>)
    requires Live(s, event)
    requires event.runId in s.assemblies ==> AssembledFrom(s.assemblies[event.runId], taken)
    requires event.runId !in s.assemblies ==> taken == []
    ensures var (next, result) := Ingested(s, event);
            var now := if result.Ok? then taken + [event] else taken;
            && (event.runId in next.assemblies ==> AssembledFrom(next.assemblies[event.runId], now))
            && (result.Ok? && result.value.None? ==>
                  && event.runId in next.assemblies && StillOpen(next.assemblies[event.runId].mode, now))
            && (event.runId !in next.assemblies && event.runId !in next.processed ==> taken == [] && result.Err?)
            && (result.Ok? && result.value.Some? ==> RunTells(result.value.value, event.runId, now))
  {
    hide AssembledFrom, Opened, Applied, StillOpen;
    OpenedFrom(s, event, taken);
    var entry := Opened(s, event);
    if entry.Ok? {
      AppliedFrom(entry.value, event, taken);
      var applied := Applied(entry.value, event);
      if applied.Ok? && ReadyType(applied.value).Some? {
        ReadyTells(event.runId, applied.value, taken + [event]);
      } else if applied.Ok? {
        NotReady(applied.value, taken + [event]);
      }
    }
  }

  /** The run that a gate evaluates, told by the events that were taken for it: a hysteresis state wins over a failure,
      and a failure over a completion; a failed run hands on nothing, a completed one its last output, and one with a
      hysteresis state both. */
  ghost predicate RunTells(run: AssembledRun, id: string, taken: seq<OrchestratorEvent>) {
    && run.runId == id
    && (forall i :: 0 <= i < |taken| ==>
          && taken[i].symbol == run.symbol && taken[i].timestamp == run.timestamp
          && (taken[i].mode.Some? ==> taken[i].mode == run.mode))
    && (if LastState(taken).Some? then
          run.inputType == HysteresisStatePublished && run.output == LastOutput(taken)
            && run.hysteresis == LastState(taken)
        else if SomeFailure(taken) then
          run.inputType == EngineRunFailed && run.output.None? && run.hysteresis.None?
        else
          && run.inputType == EngineRunCompleted && run.mode != Some(Hysteresis)
          && run.output == LastOutput(taken) && run.output.Some? && run.hysteresis.None?)
  }

  lemma ReadyTells(id: string, a: Assembly, taken: seq<OrchestratorEvent>)
    requires AssembledFrom(a, taken) && ReadyType(a).Some?
    ensures RunTells(Assembled(id, a, ReadyType(a).value), id, taken)
  {
    hide SomeFailure;
  }

  lemma IngestOthers(s: AssemblerState, event: OrchestratorEvent)
    ensures var next := Ingested(s, event).0;
            && s.processed <= next.processed && next.processed <= s.processed + {event.runId}
            && (forall id :: id != event.runId ==>
                  (id in next.assemblies <==> id in s.assemblies)
                  && (id in s.assemblies ==> next.assemblies[id] == s.assemblies[id]))
            && (!Live(s, event) ==> next.assemblies == s.assemblies && Ingested(s, event).1 == Ok(None))
  {
    hide Opened, Applied;
  }

  /** What comes no later than the last run of its symbol is dropped, together with its run, and changes nothing
      else. */
  lemma StaleIsDropped(s: AssemblerState, event: OrchestratorEvent)
    requires event.eventType != EngineRunStarted
    requires event.symbol in s.latest && event.timestamp <= s.latest[event.symbol]
    ensures Ingested(s, event) == (s.(processed := s.processed + {event.runId}), Ok(None))
  {
    if event.runId in s.processed {
      assert s.processed + {event.runId} == s.processed;
    }
  }

  lemma {:induction false} HistoryAssembled(s: AssemblerState, events: seq<OrchestratorEvent>)
    requires s.assemblies == map[]
    ensures AllAssembled(s, events)
  {
    hide Ingested, AssembledFrom, Live, Taken, AssemblerAfter;
    if |events| == 0 {
      NothingTaken(s);
    } else {
      var before, last := events[..|events| - 1], events[|events| - 1];
      HistoryAssembled(s, before);
      var now, id := AssemblerAfter(s, before), last.runId;
      AfterOne(s, events);
      IngestOthers(now, last);
      TakenOne(s, events, id);
      if Live(now, last) {
        LiveIsNew(now, last);
        IngestFrom(now, last, Taken(s, before, id));
      }
      forall other | other != id ensures Taken(s, events, other) == Taken(s, before, other) {
        TakenOne(s, events, other);
      }
    }
  }

  lemma NothingTaken(s: AssemblerState)
    ensures AssemblerAfter(s, []) == s && forall id :: Taken(s, [], id) == []
  {
  }

  lemma AfterOne(s: AssemblerState, events: seq<OrchestratorEvent>)
    requires |events| > 0
    ensures AssemblerAfter(s, events)
            == Ingested(AssemblerAfter(s, events[..|events| - 1]), events[|events| - 1]).0
  {
  }

  lemma TakenOne(s: AssemblerState, events: seq<OrchestratorEvent>, id: string)
    requires |events| > 0
    ensures var before, last := events[..|events| - 1], events[|events| - 1];
            var now := AssemblerAfter(s, before);
            Taken(s, events, id)
            == if last.runId == id && Live(now, last) && Ingested(now, last).1.Ok? then Taken(s, before, id) + [last]
               else Taken(s, before, id)
  {
    hide Ingested, Live;
  }

  lemma LiveIsNew(s: AssemblerState, event: OrchestratorEvent)
    requires Live(s, event)
    ensures event.runId !in s.processed
  {
  }

  /** Over every history: when a run is handed to the gate's rules, it is the one that its events tell; and it is handed
      on exactly when they have brought a hysteresis state, or a failure, or an output outside hysteresis mode. */
  lemma EvaluatedRunTells(s: AssemblerState, before: seq<OrchestratorEvent>, event: OrchestratorEvent)
    requires s.assemblies == map[]
    ensures var now := AssemblerAfter(s, before);
            var result := Ingested(now, event).1;
            && (result.Ok? && result.value.Some? ==>
                  Live(now, event) && RunTells(result.value.value, event.runId,
                                               Taken(s, before, event.runId) + [event]))
            && (result.Ok? && result.value.None? && Live(now, event) ==>
                  var next := Ingested(now, event).0;
                  && event.runId in next.assemblies
                  && StillOpen(next.assemblies[event.runId].mode, Taken(s, before, event.runId) + [event]))
  {
    hide Ingested, AssembledFrom;
    HistoryAssembled(s, before);
    var now := AssemblerAfter(s, before);
    IngestOthers(now, event);
    if Live(now, event) {
      IngestFrom(now, event, Taken(s, before, event.runId));
    }
  }

  /** The payload is of the kind that the event type asks for; a failure may come without one. */
  predicate Fits(event: OrchestratorEvent) {
    match event.eventType
    case EngineRunStarted => true
    case EngineRunCompleted => event.payload.CompletedPayload?
    case EngineRunFailed => event.payload.FailedPayload? || event.payload.NoPayload?
    case HysteresisStatePublished => event.payload.StatePayload?
  }

  /** The event contradicts the pending run of its id in the mode of the engine. */
  predicate OtherMode(a: Assembly, event: OrchestratorEvent) {
    a.mode.Some? && event.mode.Some? && a.mode.value != event.mode.value
  }

  /** What the assembler raises on, and in which order it looks: another symbol, time or mode than that of the pending
      run, and then a payload that does not fit. All else it takes. */
  lemma RefusedExactly(s: AssemblerState, event: OrchestratorEvent)
    ensures var result, met := Ingested(s, event).1, event.runId in s.assemblies;
            if !Live(s, event) then result == Ok(None)
            else if met && s.assemblies[event.runId].symbol != event.symbol then result == Err(InconsistentSymbol)
            else if met && s.assemblies[event.runId].timestamp != event.timestamp
            then result == Err(InconsistentTimestamp)
            else if met && OtherMode(s.assemblies[event.runId], event) then result == Err(InconsistentMode)
            else if !Fits(event) then result == Err(BadPayload)
            else result.Ok?
  {
  }

  // ----- The evaluation -----

  /** An invalidation of the run is on the denylist. */
  predicate IsDenied(run: AssembledRun, config: GateConfig) {
    run.output.Some? && exists i :: i in run.output.value.invalidations && i in config.denylist
  }

  /** The evaluation of a run, by its fields: what it says of the gate and why, and what it hands on. */
  lemma EvaluationTells(run: AssembledRun, config: GateConfig)
    ensures var e := EvaluatedEvent(run, Evaluate(run, config));
            var failed := run.inputType == EngineRunFailed;
            var held := config.blockDuringTransition && run.hysteresis.Some? && run.hysteresis.value.progress > 0;
            && e.eventType == GateEvaluated && e.runId == run.runId && e.symbol == run.symbol
            && e.timestamp == run.timestamp && e.mode == run.mode && e.inputType == Some(run.inputType)
            && (e.gate == Open <==> !failed && !IsDenied(run, config) && !held)
            && e.status == (if failed then Degraded else if e.gate == Open then Ready else Hold)
            && (failed ==> e.reasons == ["run_failed"])
            && (!failed && IsDenied(run, config) ==>
                  && StrictlyIncreasing(e.reasons)
                  && forall r :: r in e.reasons <==>
                       exists i :: i in run.output.value.invalidations && i in config.denylist
                                   && r == "denylisted_invalidation:" + i)
            && (!failed && !IsDenied(run, config) && held ==> e.reasons == ["transition_active"])
            && (e.gate == Open ==> e.reasons == [])
            && (var output := if e.payload.EvaluatedPayload? then e.payload.output else None;
                output == if failed then None else run.output)
            && (var state := if e.payload.EvaluatedPayload? then e.payload.hysteresis else None;
                state == if failed || IsDenied(run, config) then None else run.hysteresis)
  {
    var listed := set i | i in Denied(run, config) :: DENYLISTED_PREFIX + i;
    DeniedIs(run, config);
    if run.inputType != EngineRunFailed && IsDenied(run, config) {
      assert forall r :: r in Sorted(listed) <==> r in Elements(Sorted(listed));
    }
  }

  lemma DeniedIs(run: AssembledRun, config: GateConfig)
    ensures Denied(run, config) != {} <==> IsDenied(run, config)
    ensures run.output.Some? ==>
              forall i :: i in Denied(run, config) <==> i in run.output.value.invalidations && i in config.denylist
  {
    if IsDenied(run, config) {
      var i :| i in run.output.value.invalidations && i in config.denylist;
      assert i in Denied(run, config);
    }
  }
}
