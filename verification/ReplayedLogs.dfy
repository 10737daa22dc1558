/** What the replay of any run log gives back, told by the fields of the events, and exactly when it returns. */
module ReplayedLogs {
  import opened Ordering
  import opened OrchestratorContracts
  import opened InputBuffer
  import opened Orchestrator
  import opened Replay
  import opened Publications

  /** The record can be replayed: its range is one, and if the engine is called it returns what the mode needs. */
  ghost predicate Replays<S>(setup: Setup<S>, records: seq<BufferRecord>, r: RunRecord, engine: S) {
    && r.cutStart <= r.cutEnd
    && (r.status != RunFailed ==>
          var composed := setup.compose(CutEvents(records, r), r.symbol, r.timestamp);
          composed.Ok? ==>
            var outcome := setup.engine(engine, composed.value).1;
            outcome.Returned? && (r.mode == Hysteresis ==> outcome.result.hysteresis.Some?))
  }

  /** The engine after the record: it is called exactly if the run has not failed and its snapshot can be composed. */
  function EngineNext<S>(setup: Setup<S>, records: seq<BufferRecord>, r: RunRecord, engine: S): S {
    match setup.compose(CutEvents(records, r), r.symbol, r.timestamp)
    case Err(_) => engine
    case Ok(snapshot) => if r.status == RunFailed then engine else setup.engine(engine, snapshot).0
  }

  /** The events of a replayed record: a failed run fails again with its own kind and detail, or with the usual ones
      where they are missing or empty. */
  ghost predicate ReplayTells<S>(setup: Setup<S>, engine: S, raw: seq<RawEvent>, r: RunRecord,
                                 events: seq<OrchestratorEvent>)
  {
    && |events| >= 2 && IsStart(events[0], r)
    && if r.status == RunFailed then
         && |events| == 2 && events[1].payload.FailedPayload?
         && IsFailure(events[1], r, raw, events[1].payload.errorKind, events[1].payload.errorDetail)
         && (r.errorKind in {None, Some("")} ==> events[1].payload.errorKind == "engine_failure")
         && (r.errorKind !in {None, Some("")} ==> Some(events[1].payload.errorKind) == r.errorKind)
         && (r.errorDetail in {None, Some("")} ==> events[1].payload.errorDetail == "engine failure")
         && (r.errorDetail !in {None, Some("")} ==> Some(events[1].payload.errorDetail) == r.errorDetail)
       else
         match setup.compose(raw, r.symbol, r.timestamp)
         case Err(detail) => |events| == 2 && IsFailure(events[1], r, raw, "snapshot_build_failure", detail)
         case Ok(snapshot) =>
           var outcome := setup.engine(engine, snapshot).1;
           && outcome.Returned?
           && if r.mode == Hysteresis then
                && |events| == 3 && outcome.result.hysteresis.Some?
                && IsState(events[1], r, raw, outcome.result.hysteresis.value)
                && IsCompletion(events[2], r, raw, outcome.result.output)
              else
                |events| == 2 && IsCompletion(events[1], r, raw, outcome.result.output)
  }

  /** No record of a symbol comes before an earlier one in time. */
  ghost predicate InTime(log: seq<RunRecord>) {
    forall i, j :: 0 <= i < j < |log| && log[i].symbol == log[j].symbol ==> log[i].timestamp <= log[j].timestamp
  }

  ghost predicate AllReplay<S>(setup: Setup<S>, records: seq<BufferRecord>, log: seq<RunRecord>, engine: S) {
    if |log| == 0 then true
    else
      var before, r := log[..|log| - 1], log[|log| - 1];
      AllReplay(setup, records, before, engine)
        && Replays(setup, records, r, EngineThen(setup, records, before, engine))
  }

  function EngineThen<S>(setup: Setup<S>, records: seq<BufferRecord>, log: seq<RunRecord>, engine: S): S {
    if |log| == 0 then engine
    else EngineNext(setup, records, log[|log| - 1], EngineThen(setup, records, log[..|log| - 1], engine))
  }

  ghost predicate AllTell<S>(setup: Setup<S>, records: seq<BufferRecord>, log: seq<RunRecord>, engine: S,
                             events: seq<OrchestratorEvent>)
  {
    if |log| == 0 then events == []
    else
      var before, r := log[..|log| - 1], log[|log| - 1];
      exists k :: && 0 <= k <= |events|
                  && AllTell(setup, records, before, engine, events[..k])
                  && ReplayTells(setup, EngineThen(setup, records, before, engine), CutEvents(records, r), r,
                                 events[k..])
  }

  /** The last time of each symbol. */
  ghost predicate LastTimes(sequenced: map<string, int>, log: seq<RunRecord>) {
    && (forall symbol :: symbol in sequenced <==> exists i :: 0 <= i < |log| && log[i].symbol == symbol)
    && (forall i :: 0 <= i < |log| ==> log[i].timestamp <= sequenced[log[i].symbol])
    && (forall symbol :: symbol in sequenced ==>
          exists i :: 0 <= i < |log| && log[i].symbol == symbol && log[i].timestamp == sequenced[symbol])
  }

  lemma InTimeSnoc(sequenced: map<string, int>, log: seq<RunRecord>, r: RunRecord)
    requires InTime(log) && LastTimes(sequenced, log)
    ensures InTime(log + [r]) <==> (r.symbol in sequenced ==> sequenced[r.symbol] <= r.timestamp)
  {
    var all, n := log + [r], |log|;
    assert all[n] == r && forall i :: 0 <= i < n ==> all[i] == log[i];
    if InTime(all) && r.symbol in sequenced {
      var i :| 0 <= i < n && log[i].symbol == r.symbol && log[i].timestamp == sequenced[r.symbol];
      assert all[i].symbol == all[n].symbol;
    }
  }

  lemma LastTimesSnoc(sequenced: map<string, int>, log: seq<RunRecord>, r: RunRecord)
    requires LastTimes(sequenced, log) && (r.symbol in sequenced ==> sequenced[r.symbol] <= r.timestamp)
    ensures LastTimes(sequenced[r.symbol := r.timestamp], log + [r])
  {
    var next, all, n := sequenced[r.symbol := r.timestamp], log + [r], |log|;
    assert all[n] == r && forall i :: 0 <= i < n ==> all[i] == log[i];
    forall symbol | symbol in next
      ensures exists i :: 0 <= i < |all| && all[i].symbol == symbol && all[i].timestamp == next[symbol]
    {
      if symbol == r.symbol {
        assert all[n].symbol == symbol;
      } else {
        var i :| 0 <= i < n && log[i].symbol == symbol && log[i].timestamp == sequenced[symbol];
        assert all[i].symbol == symbol;
      }
    }
    forall i | 0 <= i < |all| ensures all[i].symbol in next && all[i].timestamp <= next[all[i].symbol] {
      if i < n { assert log[i].symbol in sequenced; }
    }
  }

  /** One record after its start. */
  lemma RestTells<S>(setup: Setup<S>, raw: seq<RawEvent>, r: RunRecord, stream: Stream, engine: S)
    requires r.symbol in stream.sequenced && stream.sequenced[r.symbol] == r.timestamp && |stream.events| > 0
    requires IsStart(stream.events[|stream.events| - 1], r)
    ensures var n, rest := |stream.events| - 1, ReplayRest(setup, raw, r, ReplayState(stream, engine));
            var composed := setup.compose(raw, r.symbol, r.timestamp);
            && (rest.Ok? <==> (r.status != RunFailed && composed.Ok? ==>
                                 var outcome := setup.engine(engine, composed.value).1;
                                 outcome.Returned? && (r.mode == Hysteresis ==> outcome.result.hysteresis.Some?)))
            && (rest.Ok? ==>
                  && rest.value.stream.sequenced == stream.sequenced
                  && rest.value.engine == (if r.status != RunFailed && composed.Ok?
                                           then setup.engine(engine, composed.value).0 else engine)
                  && n <= |rest.value.stream.events| && rest.value.stream.events[..n] == stream.events[..n]
                  && ReplayTells(setup, engine, raw, r, rest.value.stream.events[n..]))
  {
    hide Counts, Tallies;
    assert stream.sequenced[r.symbol := r.timestamp] == stream.sequenced;
    var rest := ReplayRest(setup, raw, r, ReplayState(stream, engine));
    var composed := setup.compose(raw, r.symbol, r.timestamp);
    if r.status != RunFailed && composed.Ok? && setup.engine(engine, composed.value).1.Returned?
       && setup.engine(engine, composed.value).1.result.hysteresis.Some? {
      var result := setup.engine(engine, composed.value).1.result;
      PublishTwo(stream, StatePublished(r, result.hysteresis.value, Counts(raw)),
                 Completed(r, result.output, Counts(raw)));
    }
    if rest.Ok? {
      forall i | |stream.events| <= i < |rest.value.stream.events| ensures Tallies(rest.value.stream.events[i], raw) {
        CountsTally(rest.value.stream.events[i], raw);
      }
    }
  }

  /** For every log, whatever its records say: the replay returns exactly if each record can be replayed and the times
      of each symbol do not run backwards; and then its events are those of the records, in their order. */
  lemma {:induction false} ReplayedAsAnswered<S>(setup: Setup<S>, records: seq<BufferRecord>, log: seq<RunRecord>,
                                                 engine: S)
    ensures Replayed(setup, records, log, engine).Ok? <==> AllReplay(setup, records, log, engine) && InTime(log)
    ensures var replay := Replayed(setup, records, log, engine);
            replay.Ok? ==>
              && AllTell(setup, records, log, engine, replay.value.stream.events)
              && replay.value.engine == EngineThen(setup, records, log, engine)
              && LastTimes(replay.value.stream.sequenced, log)
  {
    hide ReplayRest, RawEventsForCut, ReplayTells, LastTimes, InTime, IsStart;
    if |log| == 0 {
      NoTimes(log);
    } else {
      var before, r := log[..|log| - 1], log[|log| - 1];
      assert log == before + [r];
      ReplayedAsAnswered(setup, records, before, engine);
      InTimePrefix(before, r);
      var replay := Replayed(setup, records, before, engine);
      if replay.Ok? {
        OneMoreTells(setup, records, before, r, replay.value, engine);
      }
    }
  }

  lemma NoTimes(log: seq<RunRecord>)
    requires log == []
    ensures InTime(log) && LastTimes(map[], log)
  {
  }

  lemma InTimePrefix(log: seq<RunRecord>, r: RunRecord)
    ensures InTime(log + [r]) ==> InTime(log)
  {
    assert forall i :: 0 <= i < |log| ==> (log + [r])[i] == log[i];
  }

  lemma OneMoreTells<S>(setup: Setup<S>, records: seq<BufferRecord>, log: seq<RunRecord>, r: RunRecord,
                        s: ReplayState<S>, engine: S)
    requires InTime(log) && LastTimes(s.stream.sequenced, log)
    requires AllTell(setup, records, log, engine, s.stream.events)
             && s.engine == EngineThen(setup, records, log, engine)
    ensures var next := ReplayRecord(setup, records, r, s);
            && (next.Ok? <==> Replays(setup, records, r, s.engine) && InTime(log + [r]))
            && (next.Ok? ==>
                  && AllTell(setup, records, log + [r], engine, next.value.stream.events)
                  && next.value.engine == EngineThen(setup, records, log + [r], engine)
                  && LastTimes(next.value.stream.sequenced, log + [r]))
  {
    hide ReplayRest, ReplayTells, LastTimes, InTime, IsStart, InRange, WithSymbol;
    InTimeSnoc(s.stream.sequenced, log, r);
    if InTime(log + [r]) { LastTimesSnoc(s.stream.sequenced, log, r); }
    assert (log + [r])[..|log|] == log;
    var raw, started := RawEventsForCut(records, r.symbol, r.cutStart, r.cutEnd), Publish(s.stream, Started(r));
    StartedIsStart(r);
    if raw.Ok? && started.Ok? {
      RestTells(setup, raw.value, r, started.value, s.engine);
      var next := ReplayRecord(setup, records, r, s);
      if next.Ok? {
        assert next.value.stream.events[..|s.stream.events|] == s.stream.events;
      }
    }
  }

  lemma StartedIsStart(r: RunRecord)
    ensures IsStart(Started(r), r) && Started(r).symbol == r.symbol && Started(r).timestamp == r.timestamp
  {
  }

  /** Why record `n` cannot be replayed: its range, then the order of times, then what the engine does. */
  ghost predicate FailsWith<S>(setup: Setup<S>, records: seq<BufferRecord>, log: seq<RunRecord>, n: nat, engine: S,
                               error: ReplayError)
    requires n < |log|
  {
    var r := log[n];
    if r.cutEnd < r.cutStart then error == InvalidRange
    else if !InTime(log[..n + 1]) then error == OutOfSequence
    else
      var composed := setup.compose(CutEvents(records, r), r.symbol, r.timestamp);
      && r.status != RunFailed && composed.Ok?
      && var outcome := setup.engine(EngineThen(setup, records, log[..n], engine), composed.value).1;
         if !outcome.Returned? then error == EngineRaised
         else r.mode == Hysteresis && outcome.result.hysteresis.None? && error == WrongResult
  }

  /** A replay that fails raises what is wrong with the first record that cannot be replayed. */
  lemma {:induction false} FirstFailureIsRaised<S>(setup: Setup<S>, records: seq<BufferRecord>, log: seq<RunRecord>,
                                                   engine: S)
    requires Replayed(setup, records, log, engine).Err?
    ensures exists n: nat :: && n < |log| && AllReplay(setup, records, log[..n], engine) && InTime(log[..n])
                             && FailsWith(setup, records, log, n, engine, Replayed(setup, records, log, engine).error)
  {
    hide ReplayRest, ReplayRecord, RawEventsForCut, FailsWith, InTime, AllReplay, AllTell, EngineThen, LastTimes;
    var last := |log| - 1;
    if Replayed(setup, records, log[..last], engine).Err? {
      FirstFailureIsRaised(setup, records, log[..last], engine);
      var error := Replayed(setup, records, log, engine).error;
      var n: nat :| && n < last && AllReplay(setup, records, log[..last][..n], engine) && InTime(log[..last][..n])
                    && FailsWith(setup, records, log[..last], n, engine, error);
      assert log[..last][..n] == log[..n];
      SameFailure(setup, records, log, last, n, engine, error);
    } else {
      ReplayedAsAnswered(setup, records, log[..last], engine);
      LastFails(setup, records, log[..last], log[last], Replayed(setup, records, log[..last], engine).value, engine);
      assert log[..last] + [log[last]] == log;
    }
  }

  lemma SameFailure<S>(setup: Setup<S>, records: seq<BufferRecord>, log: seq<RunRecord>, m: nat, n: nat, engine: S,
                       error: ReplayError)
    requires n < m <= |log| && FailsWith(setup, records, log[..m], n, engine, error)
    ensures FailsWith(setup, records, log, n, engine, error)
  {
    hide InTime;
    assert log[..m][..n] == log[..n] && log[..m][..n + 1] == log[..n + 1] && log[..m][n] == log[n];
  }

  lemma LastFails<S>(setup: Setup<S>, records: seq<BufferRecord>, log: seq<RunRecord>, r: RunRecord,
                     s: ReplayState<S>, engine: S)
    requires InTime(log) && LastTimes(s.stream.sequenced, log) && s.engine == EngineThen(setup, records, log, engine)
    requires ReplayRecord(setup, records, r, s).Err?
    ensures FailsWith(setup, records, log + [r], |log|, engine, ReplayRecord(setup, records, r, s).error)
  {
    hide LastTimes, InTime, IsStart, InRange, WithSymbol, Counts, EngineThen;
    InTimeSnoc(s.stream.sequenced, log, r);
    assert (log + [r])[..|log|] == log && (log + [r])[..|log| + 1] == log + [r];
    StartedIsStart(r);
    var raw, started := RawEventsForCut(records, r.symbol, r.cutStart, r.cutEnd), Publish(s.stream, Started(r));
    if raw.Ok? && started.Ok? {
      RestFailsWith(setup, raw.value, r, started.value, s.engine);
    }
  }

  lemma RestFailsWith<S>(setup: Setup<S>, raw: seq<RawEvent>, r: RunRecord, stream: Stream, engine: S)
    requires r.symbol in stream.sequenced && stream.sequenced[r.symbol] == r.timestamp
    ensures var rest := ReplayRest(setup, raw, r, ReplayState(stream, engine));
            var composed := setup.compose(raw, r.symbol, r.timestamp);
            rest.Err? ==>
              && r.status != RunFailed && composed.Ok?
              && var outcome := setup.engine(engine, composed.value).1;
                 if !outcome.Returned? then rest.error == EngineRaised
                 else r.mode == Hysteresis && outcome.result.hysteresis.None? && rest.error == WrongResult
  {
    hide Counts;
    var composed := setup.compose(raw, r.symbol, r.timestamp);
    if r.status != RunFailed && composed.Ok? && setup.engine(engine, composed.value).1.Returned?
       && setup.engine(engine, composed.value).1.result.hysteresis.Some? {
      var result := setup.engine(engine, composed.value).1.result;
      PublishTwo(stream, StatePublished(r, result.hysteresis.value, Counts(raw)),
                 Completed(r, result.output, Counts(raw)));
    }
  }
}
