/** Replaying a run log over the final buffer. */
module Replay {
  import opened Ordering
  import opened OrchestratorContracts
  import opened InputBuffer
  import opened Scheduling
  import opened Orchestrator

  /** The exceptions that end a replay. */
  datatype ReplayError = InvalidRange | OutOfSequence | EngineRaised | WrongResult

  datatype ReplayState<S> = ReplayState(stream: Stream, engine: S)

  /** `value or default`: an empty string counts as missing. */
  function OrElse(value: Option<string>, default: string): string {
    if value.Some? && value.value != "" then value.value else default
  }

  function Sequenced<S>(result: Result<Stream, SequenceError>, engine: S): Result<ReplayState<S>, ReplayError> {
    match result
    case Err(_) => Err(OutOfSequence)
    case Ok(stream) => Ok(ReplayState(stream, engine))
  }

  /** What a record replays to after its start event. */
  function ReplayRest<S>(setup: Setup<S>, raw: seq<RawEvent>, r: RunRecord, s: ReplayState<S>)
    : Result<ReplayState<S>, ReplayError>
  {
    var counts := Counts(raw);
    if r.status == RunFailed then
      Sequenced(Publish(s.stream, Failed(r, OrElse(r.errorKind, ENGINE_FAILURE),
                                         OrElse(r.errorDetail, "engine failure"), counts)), s.engine)
    else
      match setup.compose(raw, r.symbol, r.timestamp)
      case Err(detail) => Sequenced(Publish(s.stream, Failed(r, SNAPSHOT_BUILD_FAILURE, detail, counts)), s.engine)
      case Ok(snapshot) =>
        var (engine, outcome) := setup.engine(s.engine, snapshot);
        if !outcome.Returned? then Err(EngineRaised)
        else if r.mode == Hysteresis then
          if outcome.result.hysteresis.None? then Err(WrongResult)
          else Sequenced(PublishAll(s.stream, [StatePublished(r, outcome.result.hysteresis.value, counts),
                                               Completed(r, outcome.result.output, counts)]), engine)
        else Sequenced(Publish(s.stream, Completed(r, outcome.result.output, counts)), engine)
  }

  function ReplayRecord<S>(setup: Setup<S>, records: seq<BufferRecord>, r: RunRecord, s: ReplayState<S>)
    : Result<ReplayState<S>, ReplayError>
  {
    match RawEventsForCut(records, r.symbol, r.cutStart, r.cutEnd)
    case Err(_) => Err(InvalidRange)
    case Ok(raw) =>
      match Publish(s.stream, Started(r))
      case Err(_) => Err(OutOfSequence)
      case Ok(stream) => ReplayRest(setup, raw, r, s.(stream := stream))
  }

  /** The state of the replay after the log, or the first exception. */
  function Replayed<S>(setup: Setup<S>, records: seq<BufferRecord>, log: seq<RunRecord>, engine: S)
    : Result<ReplayState<S>, ReplayError>
  {
    if |log| == 0 then Ok(ReplayState(Stream(map[], []), engine))
    else
      match Replayed(setup, records, log[..|log| - 1], engine)
      case Err(e) => Err(e)
      case Ok(s) => ReplayRecord(setup, records, log[|log| - 1], s)
  }

  lemma {:induction false} FailedReplayStays<S>(setup: Setup<S>, records: seq<BufferRecord>, log: seq<RunRecord>,
                                                n: nat, engine: S)
    requires n <= |log| && Replayed(setup, records, log[..n], engine).Err?
    ensures Replayed(setup, records, log, engine) == Replayed(setup, records, log[..n], engine)
    decreases |log|
  {
    if n == |log| {
      assert log[..n] == log;
    } else {
      assert log[..|log| - 1][..n] == log[..n];
      FailedReplayStays(setup, records, log[..|log| - 1], n, engine);
    }
  }

  class EventSequence {
    const sequencer: SymbolSequencer
    var events: seq<OrchestratorEvent>

    constructor ()
      ensures fresh(sequencer) && Value() == Stream(map[], [])
    {
      sequencer := new SymbolSequencer();
      events := [];
    }

    function Value(): Stream
      reads this, sequencer
    {
      Stream(sequencer.lastTimestamps, events)
    }

    method Add(event: OrchestratorEvent) returns (accepted: bool)
      modifies this, sequencer
      ensures accepted == Publish(old(Value()), event).Ok?
      ensures accepted ==> Value() == Publish(old(Value()), event).value
      ensures !accepted ==> Value() == old(Value())
    {
      accepted := sequencer.Ensure(event.symbol, event.timestamp);
      if accepted {
        events := events + [event];
      }
    }
  }

  method ReplayEvents<S>(setup: Setup<S>, buffer: RawInputBuffer, log: seq<RunRecord>, initial: S)
    returns (result: Result<seq<OrchestratorEvent>, ReplayError>)
    ensures var expected := Replayed(setup, buffer.records, log, initial);
            result == match expected case Err(e) => Err(e) case Ok(s) => Ok(s.stream.events)
  {
    hide Replayed, ReplayRest;
    var out := new EventSequence();
    var engine := initial;
    var i := 0;
    EmptyReplay(setup, buffer.records, initial);
    while i < |log|
      invariant i <= |log|
      invariant fresh(out) && fresh(out.sequencer)
      invariant Replayed(setup, buffer.records, log[..i], initial) == Ok(ReplayState(out.Value(), engine))
    {
      var r := log[i];
      ReplayOneMore(setup, buffer.records, log, i, initial);
      ghost var s := ReplayState(out.Value(), engine);
      var raw := RawEventsForCut(buffer.records, r.symbol, r.cutStart, r.cutEnd);
      if raw.Err? {
        return Err(InvalidRange);
      }
      var accepted := out.Add(Started(r));
      if !accepted {
        return Err(OutOfSequence);
      }
      var error: Option<ReplayError>;
      engine, error := ReplayBody(setup, raw.value, r, out, engine);
      if error.Some? {
        return Err(error.value);
      }
      i := i + 1;
    }
    assert log[..i] == log;
    return Ok(out.events);
  }

  lemma EmptyReplay<S>(setup: Setup<S>, records: seq<BufferRecord>, engine: S)
    ensures Replayed(setup, records, [], engine) == Ok(ReplayState(Stream(map[], []), engine))
  {
  }

  /** One more record, and what follows if it fails. */
  lemma ReplayOneMore<S>(setup: Setup<S>, records: seq<BufferRecord>, log: seq<RunRecord>, i: nat, engine: S)
    requires i < |log| && Replayed(setup, records, log[..i], engine).Ok?
    ensures Replayed(setup, records, log[..i + 1], engine)
         == ReplayRecord(setup, records, log[i], Replayed(setup, records, log[..i], engine).value)
    ensures var next := ReplayRecord(setup, records, log[i], Replayed(setup, records, log[..i], engine).value);
            next.Err? ==> Replayed(setup, records, log, engine) == next
  {
    assert log[..i + 1][..i] == log[..i];
    if Replayed(setup, records, log[..i + 1], engine).Err? {
      FailedReplayStays(setup, records, log, i + 1, engine);
    }
  }

  /** The body of the replay loop after the start event. */
  method ReplayBody<S>(setup: Setup<S>, raw: seq<RawEvent>, r: RunRecord, out: EventSequence, engine: S)
    returns (next: S, error: Option<ReplayError>)
    modifies out, out.sequencer
    ensures match ReplayRest(setup, raw, r, ReplayState(old(out.Value()), engine))
            case Err(e) => error == Some(e)
            case Ok(s) => error == None && s == ReplayState(out.Value(), next)
  {
    next := engine;
    var counts := CountsByEventType(raw);
    var accepted: bool;
    if r.status == RunFailed {
      accepted := out.Add(Failed(r, OrElse(r.errorKind, ENGINE_FAILURE), OrElse(r.errorDetail, "engine failure"),
                                 counts));
      return next, if accepted then None else Some(OutOfSequence);
    }
    var snapshot := setup.compose(raw, r.symbol, r.timestamp);
    if snapshot.Err? {
      accepted := out.Add(Failed(r, SNAPSHOT_BUILD_FAILURE, snapshot.error, counts));
      return next, if accepted then None else Some(OutOfSequence);
    }
    var answer := setup.engine(engine, snapshot.value);
    next := answer.0;
    var outcome := answer.1;
    if !outcome.Returned? {
      return next, Some(EngineRaised);
    }
    if r.mode == Hysteresis {
      if outcome.result.hysteresis.None? {
        return next, Some(WrongResult);
      }
      PublishTwo(out.Value(), StatePublished(r, outcome.result.hysteresis.value, counts),
                 Completed(r, outcome.result.output, counts));
      accepted := out.Add(StatePublished(r, outcome.result.hysteresis.value, counts));
      if !accepted {
        return next, Some(OutOfSequence);
      }
    }
    accepted := out.Add(Completed(r, outcome.result.output, counts));
    return next, if accepted then None else Some(OutOfSequence);
  }
}
