/** The replay of the run log over the final buffer gives back what the live loop has published. */
module ReplayEquivalence {
  import opened Ordering
  import opened OrchestratorContracts
  import opened HysteresisPersistence
  import opened InputBuffer
  import opened Cuts
  import opened Scheduling
  import opened Orchestrator
  import opened LiveRuns
  import opened Replay

  /** The engine publishes a hysteresis state exactly in hysteresis mode. */
  ghost predicate RespectsMode<S(!new)>(setup: Setup<S>) {
    forall state: S, snapshot: Snapshot ::
      var outcome := setup.engine(state, snapshot).1;
      outcome.Returned? ==> (outcome.result.hysteresis.Some? <==> setup.mode == Hysteresis)
  }

  predicate EngineFailure(event: OrchestratorEvent) {
    event.payload.FailedPayload? && event.payload.errorKind == ENGINE_FAILURE
  }

  /** No engine call of the run has ended with an exception: the loop was not stopped by the engine, and no event
      reports an engine failure. */
  predicate Clean<S>(s: State<S>) {
    s.phase != Stopped(EngineHalted) && forall i :: 0 <= i < |s.stream.events| ==> !EngineFailure(s.stream.events[i])
  }

  /** The log up to the run that is still going on. */
  function Settled<S>(s: State<S>): seq<RunRecord> {
    if s.phase.InRun? && |s.log| > 0 then s.log[..|s.log| - 1] else s.log
  }

  /** A replay of the settled log stands where the live loop stands, or has met the exception that it met. */
  ghost predicate Mirrored<S>(setup: Setup<S>, s: State<S>, engine: S) {
    var replay := Replayed(setup, s.records, Settled(s), engine);
    if !Clean(s) then replay.Err?
    else
      && replay.Ok? && replay.value.engine == s.engine
      && (if s.phase.InRun? then Publish(replay.value.stream, Started(s.phase.record)) == Ok(s.stream)
          else replay.value.stream == s.stream)
  }

  lemma {:induction false} ReplayIsStable<S>(setup: Setup<S>, records: seq<BufferRecord>, more: seq<BufferRecord>,
                                             log: seq<RunRecord>, engine: S)
    requires Numbered(records + more) && forall i :: 0 <= i < |log| ==> LiveRecord(setup, log[i], |records|)
    ensures Replayed(setup, records + more, log, engine) == Replayed(setup, records, log, engine)
  {
    hide RawEventsForCut, ReplayRest, Publish, Numbered;
    if |log| > 0 {
      var r := log[|log| - 1];
      CutIsStable(records, more, r.symbol, r.cutStart, r.cutEnd);
      ReplayIsStable(setup, records, more, log[..|log| - 1], engine);
    }
  }

  lemma StartRunMirrored<S>(setup: Setup<S>, s: State<S>, now: int, engine: S)
    requires Timed(setup, s) && Mirrored(setup, s, engine) && s.phase.Looping? && |s.phase.todo| > 0
    ensures Mirrored(setup, StartRun(setup, s, now), engine)
  {
    hide Timed, RawEventsForCut, ReplayRecord, NextCut;
    var t := StartRun(setup, s, now);
    StartRunTimed(setup, s, now);
    TimedNeverCrashed(setup, t);
    if t.log != s.log {
      assert t.log[..|t.log| - 1] == s.log;
    }
    if t.phase.InRun? {
      var all := s.stream.events + [Started(t.phase.record)];
      assert t.stream.events == all;
      assert forall i :: 0 <= i < |s.stream.events| ==> all[i] == s.stream.events[i];
    }
  }

  lemma TimedNeverCrashed<S>(setup: Setup<S>, s: State<S>)
    requires Timed(setup, s)
    ensures s.phase != Stopped(Crashed)
  {
  }

  /** The replay of the rest of a run publishes what the live run publishes, or raises what the engine raises. */
  lemma ReplayRestIs<S(!new)>(setup: Setup<S>, stream: Stream, engine: S, raw: seq<RawEvent>, r: RunRecord)
    requires RespectsMode(setup) && r.status == RunStarted && r.mode == setup.mode
    requires r.symbol in stream.sequenced && stream.sequenced[r.symbol] == r.timestamp
    ensures var call := CallEngine(setup, engine, raw, r);
            var expected := ReplayState(Stream(stream.sequenced, stream.events + FinishEvents(r, Counts(raw), call)),
                                        if call.Ok? then call.value.0 else engine);
            ReplayRest(setup, raw, r, ReplayState(stream, engine))
            == (if call.Ok? && !call.value.1.Returned? then Err(EngineRaised) else Ok(expected))
  {
    hide Counts, PublishAll;
    var counts, call := Counts(raw), CallEngine(setup, engine, raw, r);
    var events := FinishEvents(r, counts, call);
    SameTimeAccepted(stream, events, r.symbol, r.timestamp);
    if call.Err? {
      PublishOne(stream, events[0]);
    } else if call.value.1.Returned? {
      var result := call.value.1.result;
      var done := Completed(r, result.output, counts);
      assert result.hysteresis.Some? <==> setup.mode == Hysteresis;
      if r.mode == Hysteresis {
        assert events == [StatePublished(r, result.hysteresis.value, counts), done];
      } else {
        assert events == [done];
        PublishOne(stream, done);
      }
    }
  }

  lemma FinishRunMirrored<S(!new)>(setup: Setup<S>, s: State<S>, engine: S)
    requires RespectsMode(setup) && Timed(setup, s) && Recorded(setup, s) && Mirrored(setup, s, engine)
             && s.phase.InRun?
    ensures Mirrored(setup, FinishRun(setup, s), engine)
  {
    hide Timed, RawEventsForCut, ReplayRest, FinishRun, Publish, RespectsMode, Counts, CallEngine, Numbered;
    FinishRunIs(setup, s);
    InRunTimed(setup, s);
    var t, r := FinishRun(setup, s), s.phase.record;
    var raw := RawEventsForCut(s.records, r.symbol, r.cutStart, r.cutEnd).value;
    ReplayRestIs(setup, s.stream, s.engine, raw, r);
    FinishClean(setup, s, raw);
  }

  lemma InRunTimed<S>(setup: Setup<S>, s: State<S>)
    requires Timed(setup, s) && s.phase.InRun?
    ensures var r := s.phase.record; r.symbol in s.stream.sequenced && s.stream.sequenced[r.symbol] == r.timestamp
  {
  }

  /** A run ends clean exactly if its engine call returns or is not reached. */
  lemma FinishClean<S>(setup: Setup<S>, s: State<S>, raw: seq<RawEvent>)
    requires s.phase.InRun? && Timed(setup, s)
    requires RawEventsForCut(s.records, s.phase.record.symbol, s.phase.record.cutStart, s.phase.record.cutEnd)
             == Ok(raw)
    requires s.phase.record.cutStart <= s.phase.record.cutEnd
    ensures var call := CallEngine(setup, s.engine, raw, s.phase.record);
            Clean(FinishRun(setup, s)) <==> Clean(s) && (call.Ok? ==> call.value.1.Returned?)
  {
    hide Timed, RawEventsForCut, FinishRun, Counts, CallEngine;
    FinishRunIs(setup, s);
    var r := s.phase.record;
    var call := CallEngine(setup, s.engine, raw, r);
    var events := FinishEvents(r, Counts(raw), call);
    var all := s.stream.events + events;
    assert forall i :: 0 <= i < |s.stream.events| ==> all[i] == s.stream.events[i];
    assert forall i :: 0 <= i < |events| ==> all[|s.stream.events| + i] == events[i];
    if call.Ok? && call.value.1.Raises? {
      assert EngineFailure(all[|s.stream.events|]);
    }
  }

  lemma ActMirrored<S(!new)>(setup: Setup<S>, s: State<S>, action: Action, engine: S)
    requires ValidScheduler(setup.scheduler) && RespectsMode(setup)
    requires Timed(setup, s) && Recorded(setup, s) && Mirrored(setup, s, engine)
    ensures Mirrored(setup, Act(setup, s, action), engine)
  {
    hide Timed, RespectsMode, StartRun, FinishRun, Replayed, Publish, Sorted, Numbered, NextTick;
    match action
    case Append(event, ingestTs) =>
      AppendNumbers(s.records, event, ingestTs);
      ReplayIsStable(setup, s.records, [BufferRecord(|s.records| + 1, ingestTs, event)], Settled(s), engine);
    case Know(_) =>
    case Proceed(now) =>
      if s.phase.Looping? && s.phase.todo != [] {
        StartRunMirrored(setup, s, now, engine);
      } else if s.phase.InRun? {
        FinishRunMirrored(setup, s, engine);
      }
  }

  lemma {:induction false} RunMirrored<S(!new)>(setup: Setup<S>, engine: S, actions: seq<Action>)
    requires ValidScheduler(setup.scheduler) && RespectsMode(setup)
    ensures Mirrored(setup, Run(setup, engine, actions), engine)
  {
    hide Mirrored, Act, RespectsMode;
    if |actions| == 0 {
      InitialMirrored(setup, engine);
    } else {
      var before := actions[..|actions| - 1];
      RunMirrored(setup, engine, before);
      RunKeeps(setup, engine, before);
      ActMirrored(setup, Run(setup, engine, before), actions[|actions| - 1], engine);
    }
  }

  lemma InitialMirrored<S>(setup: Setup<S>, engine: S)
    ensures Mirrored(setup, Initial(engine), engine)
  {
  }

  /** Replay equivalence, for every interleaving of arrivals and scheduler steps, read off between two runs. The
      replay of the log over the final buffer, from the same engine state, returns if and only if no engine call
      has ended with an exception; and then it returns exactly the events that were published. */
  lemma ReplayEquivalent<S(!new)>(setup: Setup<S>, engine: S, actions: seq<Action>)
    requires ValidScheduler(setup.scheduler) && RespectsMode(setup)
    requires !Run(setup, engine, actions).phase.InRun?
    ensures var s := Run(setup, engine, actions);
            var replay := Replayed(setup, s.records, s.log, engine);
            && (replay.Ok? <==> Clean(s))
            && (replay.Ok? ==> replay.value.stream.events == s.stream.events && replay.value.engine == s.engine)
  {
    hide Run, Replayed, Clean, RespectsMode;
    RunMirrored(setup, engine, actions);
  }
}
