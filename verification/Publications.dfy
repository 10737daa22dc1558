/** What the live orchestrator publishes, told by the fields of the events: what the composer and the engine answered
    for each run of the log, as it is. */
module Publications {
  import opened Ordering
  import opened Regimes
  import opened HysteresisRules
  import opened OrchestratorContracts
  import opened InputBuffer
  import opened Cuts
  import opened Scheduling
  import opened Orchestrator
  import opened LiveRuns
  import opened ReplayEquivalence

  // ----- One run -----

  /** The event is about this run. */
  predicate IsOf(event: OrchestratorEvent, r: RunRecord) {
    && event.runId == r.runId && event.symbol == r.symbol && event.timestamp == r.timestamp
    && event.cutStart == r.cutStart && event.cutEnd == r.cutEnd && event.cutKind == r.cutKind
    && event.mode == Some(r.mode) && event.attempt == Some(r.attempts)
  }

  /** The event counts each type of raw event as often as it occurs, and no other type. */
  ghost predicate Tallies(event: OrchestratorEvent, raw: seq<RawEvent>) {
    && event.counts.Some?
    && forall kind :: (kind in event.counts.value <==> exists i :: 0 <= i < |raw| && raw[i].eventType == kind)
                   && (kind in event.counts.value ==> event.counts.value[kind] == multiset(EventTypes(raw))[kind])
  }

  predicate IsStart(event: OrchestratorEvent, r: RunRecord) {
    IsOf(event, r) && event.eventType == EngineRunStarted && event.counts.None? && event.payload.NoPayload?
  }

  ghost predicate IsFailure(event: OrchestratorEvent, r: RunRecord, raw: seq<RawEvent>, kind: string, detail: string) {
    && IsOf(event, r) && event.eventType == EngineRunFailed && Tallies(event, raw)
    && event.payload.FailedPayload? && event.payload.errorKind == kind && event.payload.errorDetail == detail
  }

  ghost predicate IsState(event: OrchestratorEvent, r: RunRecord, raw: seq<RawEvent>, state: HysteresisState) {
    && IsOf(event, r) && event.eventType == HysteresisStatePublished && Tallies(event, raw)
    && event.payload.StatePayload? && event.payload.state == state
  }

  ghost predicate IsCompletion(event: OrchestratorEvent, r: RunRecord, raw: seq<RawEvent>, output: RegimeOutput) {
    && IsOf(event, r) && event.eventType == EngineRunCompleted && Tallies(event, raw)
    && event.payload.CompletedPayload? && event.payload.output == output
  }

  /** The events of one run, for what its composer and the engine in this state answer. */
  ghost predicate TellsRun<S>(setup: Setup<S>, engine: S, raw: seq<RawEvent>, r: RunRecord,
                              events: seq<OrchestratorEvent>)
  {
    && |events| >= 1 && IsStart(events[0], r)
    && match setup.compose(raw, r.symbol, r.timestamp)
       case Err(detail) => |events| == 2 && IsFailure(events[1], r, raw, "snapshot_build_failure", detail)
       case Ok(snapshot) =>
         match setup.engine(engine, snapshot).1
         case Halts => |events| == 1
         case Raises(detail) => |events| == 2 && IsFailure(events[1], r, raw, "engine_failure", detail)
         case Returned(result) =>
           match result.hysteresis
           case None => |events| == 2 && IsCompletion(events[1], r, raw, result.output)
           case Some(state) =>
             |events| == 3 && IsState(events[1], r, raw, state) && IsCompletion(events[2], r, raw, result.output)
  }

  lemma CountsTally(event: OrchestratorEvent, raw: seq<RawEvent>)
    requires event.counts == Some(Counts(raw))
    ensures Tallies(event, raw)
  {
    forall kind
      ensures kind in Counts(raw) <==> exists i :: 0 <= i < |raw| && raw[i].eventType == kind
      ensures kind in Counts(raw) ==> Counts(raw)[kind] == multiset(EventTypes(raw))[kind]
    {
      CountsAreMultiplicities(raw, kind);
      if kind in EventTypes(raw) {
        var i :| 0 <= i < |EventTypes(raw)| && EventTypes(raw)[i] == kind;
        assert raw[i].eventType == kind;
      }
      if i :| 0 <= i < |raw| && raw[i].eventType == kind {
        assert EventTypes(raw)[i] == kind;
      }
    }
  }

  lemma FinishTells<S(!new)>(setup: Setup<S>, engine: S, raw: seq<RawEvent>, r: RunRecord, start: OrchestratorEvent)
    requires RespectsMode(setup) && r.mode == setup.mode && IsStart(start, r)
    ensures TellsRun(setup, engine, raw, r,
                     [start] + FinishEvents(r, Counts(raw), CallEngine(setup, engine, raw, r)))
  {
    hide Counts, Tallies;
    var events := [start] + FinishEvents(r, Counts(raw), CallEngine(setup, engine, raw, r));
    forall i | 1 <= i < |events| ensures Tallies(events[i], raw) {
      CountsTally(events[i], raw);
    }
    var composed := setup.compose(raw, r.symbol, r.timestamp);
    if composed.Ok? {
      var outcome := setup.engine(engine, composed.value).1;
      assert outcome.Returned? ==> (outcome.result.hysteresis.Some? <==> setup.mode == Hysteresis);
    }
  }

  // ----- The whole log -----

  /** The raw events of a run's cut. */
  function CutEvents(records: seq<BufferRecord>, r: RunRecord): seq<RawEvent> {
    var raw := RawEventsForCut(records, r.symbol, r.cutStart, r.cutEnd);
    if raw.Ok? then raw.value else []
  }

  /** The engine after the runs of the log: it has answered those whose snapshots could be composed. */
  function EngineAfter<S>(setup: Setup<S>, records: seq<BufferRecord>, log: seq<RunRecord>, engine: S): S {
    if |log| == 0 then engine
    else
      var before, r := EngineAfter(setup, records, log[..|log| - 1], engine), log[|log| - 1];
      match setup.compose(CutEvents(records, r), r.symbol, r.timestamp)
      case Err(_) => before
      case Ok(snapshot) => setup.engine(before, snapshot).0
  }

  /** The events tell the runs of the log, one after the other. */
  ghost predicate Tells<S>(setup: Setup<S>, records: seq<BufferRecord>, log: seq<RunRecord>, engine: S,
                           events: seq<OrchestratorEvent>)
  {
    if |log| == 0 then events == []
    else
      var before, r := log[..|log| - 1], log[|log| - 1];
      exists k :: && 0 <= k <= |events|
                  && Tells(setup, records, before, engine, events[..k])
                  && TellsRun(setup, EngineAfter(setup, records, before, engine), CutEvents(records, r), r, events[k..])
  }

  /** The published events tell the log; a run that is still going on has its start event. */
  ghost predicate Told<S>(setup: Setup<S>, s: State<S>, engine: S) {
    var events := s.stream.events;
    if s.phase.InRun? then
      && |s.log| > 0 && |events| > 0
      && Tells(setup, s.records, s.log[..|s.log| - 1], engine, events[..|events| - 1])
      && IsStart(events[|events| - 1], s.phase.record) && s.phase.record == s.log[|s.log| - 1]
      && s.engine == EngineAfter(setup, s.records, s.log[..|s.log| - 1], engine)
    else
      && Tells(setup, s.records, s.log, engine, events)
      && s.engine == EngineAfter(setup, s.records, s.log, engine)
  }

  lemma {:induction false} TellsIsStable<S>(setup: Setup<S>, records: seq<BufferRecord>, more: seq<BufferRecord>,
                                            log: seq<RunRecord>, engine: S, events: seq<OrchestratorEvent>)
    requires Numbered(records + more) && forall i :: 0 <= i < |log| ==> LiveRecord(setup, log[i], |records|)
    ensures EngineAfter(setup, records + more, log, engine) == EngineAfter(setup, records, log, engine)
    ensures Tells(setup, records, log, engine, events) ==> Tells(setup, records + more, log, engine, events)
    decreases |log|
  {
    hide RawEventsForCut, TellsRun, Numbered;
    if |log| > 0 {
      var before, r := log[..|log| - 1], log[|log| - 1];
      CutIsStable(records, more, r.symbol, r.cutStart, r.cutEnd);
      TellsIsStable(setup, records, more, before, engine, events);
      if Tells(setup, records, log, engine, events) {
        var k :| && 0 <= k <= |events|
                 && Tells(setup, records, before, engine, events[..k])
                 && TellsRun(setup, EngineAfter(setup, records, before, engine), CutEvents(records, r), r, events[k..]);
        TellsIsStable(setup, records, more, before, engine, events[..k]);
      }
    }
  }

  lemma StartRunTold<S>(setup: Setup<S>, s: State<S>, now: int, engine: S)
    requires Timed(setup, s) && Told(setup, s, engine) && s.phase.Looping? && |s.phase.todo| > 0
    ensures Told(setup, StartRun(setup, s, now), engine)
  {
    hide Timed, NextCut, Tells, EngineAfter;
    var t := StartRun(setup, s, now);
    StartRunTimed(setup, s, now);
    TimedNeverCrashed(setup, t);
    if t.phase.InRun? {
      assert t.log[..|t.log| - 1] == s.log;
      assert t.stream.events[..|t.stream.events| - 1] == s.stream.events;
    }
  }

  lemma FinishRunTold<S(!new)>(setup: Setup<S>, s: State<S>, engine: S)
    requires RespectsMode(setup) && Timed(setup, s) && Recorded(setup, s) && Told(setup, s, engine) && s.phase.InRun?
    ensures Told(setup, FinishRun(setup, s), engine)
  {
    hide Timed, RawEventsForCut, FinishRun, TellsRun, FinishEvents, RespectsMode, Counts, Numbered, IsStart;
    FinishRunIs(setup, s);
    var t, r, n := FinishRun(setup, s), s.phase.record, |s.stream.events| - 1;
    var raw := CutEvents(s.records, r);
    var more := FinishEvents(r, Counts(raw), CallEngine(setup, s.engine, raw, r));
    FinishTells(setup, s.engine, raw, r, s.stream.events[n]);
    assert t.stream.events[..n] == s.stream.events[..n];
    assert t.stream.events[n..] == [s.stream.events[n]] + more;
  }

  lemma ActTold<S(!new)>(setup: Setup<S>, s: State<S>, action: Action, engine: S)
    requires ValidScheduler(setup.scheduler) && RespectsMode(setup)
    requires Timed(setup, s) && Recorded(setup, s) && Told(setup, s, engine)
    ensures Told(setup, Act(setup, s, action), engine)
  {
    hide Timed, RespectsMode, StartRun, FinishRun, Tells, EngineAfter, Sorted, Numbered, NextTick, IsStart;
    match action
    case Append(event, ingestTs) =>
      AppendNumbers(s.records, event, ingestTs);
      var log := if s.phase.InRun? then s.log[..|s.log| - 1] else s.log;
      var events := if s.phase.InRun? then s.stream.events[..|s.stream.events| - 1] else s.stream.events;
      TellsIsStable(setup, s.records, [BufferRecord(|s.records| + 1, ingestTs, event)], log, engine, events);
    case Know(_) =>
    case Proceed(now) =>
      if s.phase.Looping? && s.phase.todo != [] {
        StartRunTold(setup, s, now, engine);
      } else if s.phase.InRun? {
        FinishRunTold(setup, s, engine);
      }
  }

  /** Over every interleaving, the published events are those of the runs of the log, in its order: the start, and then
      what came of the run. An answer of the engine is published as it is, an error with its kind and text, and all
      with the mode of the run and a tally of the raw events of its cut. */
  lemma {:induction false} PublishedAsAnswered<S(!new)>(setup: Setup<S>, engine: S, actions: seq<Action>)
    requires ValidScheduler(setup.scheduler) && RespectsMode(setup)
    ensures Told(setup, Run(setup, engine, actions), engine)
  {
    hide Told, Act, RespectsMode;
    if |actions| == 0 {
      InitialTold(setup, engine);
    } else {
      var before := actions[..|actions| - 1];
      PublishedAsAnswered(setup, engine, before);
      RunKeeps(setup, engine, before);
      ActTold(setup, Run(setup, engine, before), actions[|actions| - 1], engine);
    }
  }

  lemma InitialTold<S>(setup: Setup<S>, engine: S)
    ensures Told(setup, Initial(engine), engine)
  {
  }

  // ----- The log itself -----

  /** What a run record says: its id and mode from the setup, its kind and time from the tick it was planned for, and
      that it has only started. */
  predicate RecordTells<S>(setup: Setup<S>, r: RunRecord) {
    && r.runId == setup.runId(r.symbol, r.timestamp, r.cutEnd, r.mode) && r.mode == setup.mode
    && r.cutKind == setup.scheduler.mode
    && r.timestamp == (if setup.scheduler.mode == BoundaryCut && setup.scheduler.boundaryDelay.Some?
                       then r.plannedTs - setup.scheduler.boundaryDelay.value else r.plannedTs)
    && r.status == RunStarted && r.attempts == 1 && r.errorKind.None? && r.errorDetail.None?
  }

  /** Every record names a tick that was planned, and a clock reading of the scheduler thread. */
  lemma {:induction false} LogTells<S>(setup: Setup<S>, engine: S, actions: seq<Action>)
    requires ValidScheduler(setup.scheduler)
    ensures forall i :: 0 <= i < |Run(setup, engine, actions).log| ==>
              var r := Run(setup, engine, actions).log[i];
              RecordTells(setup, r) && exists j :: 0 <= j < |actions| && actions[j] == Proceed(r.startedTs)
  {
    hide Sorted, NextTick, FinishRun, RecordTells;
    if |actions| > 0 {
      var n := |actions| - 1;
      LogTells(setup, engine, actions[..n]);
      var s := Run(setup, engine, actions[..n]);
      RunKeeps(setup, engine, actions[..n]);
      LogStep(setup, s, actions[n]);
      assert forall j :: 0 <= j < n ==> actions[..n][j] == actions[j];
    }
  }

  /** One step leaves the log as it is, or adds one record. */
  lemma LogStep<S>(setup: Setup<S>, s: State<S>, action: Action)
    requires ValidScheduler(setup.scheduler) && Timed(setup, s) && Recorded(setup, s)
    ensures var t := Act(setup, s, action);
            t.log == s.log
            || (|t.log| == |s.log| + 1 && t.log[..|s.log|] == s.log
                && RecordTells(setup, t.log[|s.log|]) && action == Proceed(t.log[|s.log|].startedTs))
  {
    hide Timed, FinishRun, Sorted, NextTick, Publish, FirstSeq, InRange;
    if action.Proceed? && s.phase.InRun? { FinishRunIs(setup, s); }
  }
}
