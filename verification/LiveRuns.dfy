/** What every run of the live orchestrator keeps, whatever arrives in between the scheduler's steps. */
module LiveRuns {
  import opened Ordering
  import opened OrchestratorContracts
  import opened InputBuffer
  import opened Cuts
  import opened Scheduling
  import opened Orchestrator

  // ----- Timestamps never run backwards -----

  ghost predicate AtMost(sequenced: map<string, int>, bound: int) {
    forall symbol :: symbol in sequenced ==> sequenced[symbol] <= bound
  }

  ghost predicate Below(sequenced: map<string, int>, symbols: seq<string>, bound: int) {
    forall i :: 0 <= i < |symbols| && symbols[i] in sequenced ==> sequenced[symbols[i]] < bound
  }

  /** Within a tick the symbols still to do are behind the tick, and everything published is at most at it. */
  ghost predicate Timed<S>(setup: Setup<S>, s: State<S>) {
    var published := s.stream.sequenced;
    match s.lastTick
    case None => published == map[] && s.phase.Idle?
    case Some(tick) =>
      var now := EngineTimestamp(setup.scheduler, tick);
      && AtMost(published, now)
      && match s.phase
         case Idle => true
         case Due(planned) => planned == tick && forall x :: x in published ==> published[x] < now
         case Begun(planned, _) => planned == tick && forall x :: x in published ==> published[x] < now
         case Looping(planned, _, todo) => planned == tick && NoDuplicates(todo) && Below(published, todo, now)
         case InRun(planned, _, todo, r) =>
           && planned == tick && NoDuplicates([r.symbol] + todo) && Below(published, todo, now)
           && r.timestamp == now && r.symbol in published && published[r.symbol] == now
         case Stopped(reason) => reason != Crashed
  }

  lemma SortedHasNoDuplicates(xs: set<string>)
    ensures NoDuplicates(Sorted(xs))
  {
  }

  lemma RestHasNoDuplicates(todo: seq<string>)
    requires |todo| > 0 && NoDuplicates(todo)
    ensures NoDuplicates(todo[1..]) && todo[0] !in todo[1..] && [todo[0]] + todo[1..] == todo
  {
  }

  /** Events of one symbol at its last timestamp are all accepted. */
  lemma {:induction false} SameTimeAccepted(stream: Stream, events: seq<OrchestratorEvent>, symbol: string,
                                            timestamp: int)
    requires symbol in stream.sequenced && stream.sequenced[symbol] == timestamp
    requires forall i :: 0 <= i < |events| ==> events[i].symbol == symbol && events[i].timestamp == timestamp
    ensures PublishAll(stream, events) == Ok(Stream(stream.sequenced, stream.events + events))
    decreases |events|
  {
    if |events| == 0 {
      assert stream.events + events == stream.events;
    } else {
      assert stream.sequenced[symbol := timestamp] == stream.sequenced;
      var next := Publish(stream, events[0]).value;
      SameTimeAccepted(next, events[1..], symbol, timestamp);
      assert stream.events + [events[0]] + events[1..] == stream.events + events;
    }
  }

  lemma StartRunTimed<S>(setup: Setup<S>, s: State<S>, now: int)
    requires Timed(setup, s) && s.phase.Looping? && |s.phase.todo| > 0
    ensures Timed(setup, StartRun(setup, s, now))
    ensures StartRun(setup, s, now).phase.InRun? ==>
              Publish(s.stream, Started(StartRun(setup, s, now).phase.record)) == Ok(StartRun(setup, s, now).stream)
  {
    hide NextCut, NoDuplicates, Started;
    var todo := s.phase.todo;
    RestHasNoDuplicates(todo);
    forall i | 0 <= i < |todo[1..]| ensures todo[1..][i] != todo[0] && todo[1..][i] == todo[i + 1] {
      assert todo[1..][i] in todo[1..];
    }
    StartedFields(setup, s, now);
  }

  lemma StartedFields<S>(setup: Setup<S>, s: State<S>, now: int)
    ensures forall r: RunRecord :: Started(r).symbol == r.symbol && Started(r).timestamp == r.timestamp
    ensures s.phase.Looping? && |s.phase.todo| > 0 ==>
              var cut := NextCut(s.lastEnd, s.records, s.phase.todo[0], s.phase.latest, setup.scheduler.mode);
              cut.Ok? ==> cut.value.symbol == s.phase.todo[0]
  {
  }

  lemma FinishRunIs<S>(setup: Setup<S>, s: State<S>)
    requires Timed(setup, s) && s.phase.InRun? && s.phase.record.cutStart <= s.phase.record.cutEnd
    ensures var r := s.phase.record;
            var raw := RawEventsForCut(s.records, r.symbol, r.cutStart, r.cutEnd);
            var t := FinishRun(setup, s);
            && raw.Ok?
            && var call := CallEngine(setup, s.engine, raw.value, r);
            && t == s.(stream := Stream(s.stream.sequenced, s.stream.events + FinishEvents(r, Counts(raw.value), call)),
                       engine := if call.Ok? then call.value.0 else s.engine,
                       phase := if call.Ok? && call.value.1.Halts? then Stopped(EngineHalted)
                                else Looping(s.phase.planned, s.phase.latest, s.phase.todo))
  {
    hide Counts, InRange, WithSymbol, PublishAll, NoDuplicates, CallEngine;
    var r := s.phase.record;
    var raw := RawEventsForCut(s.records, r.symbol, r.cutStart, r.cutEnd).value;
    var events := FinishEvents(r, Counts(raw), CallEngine(setup, s.engine, raw, r));
    SameTimeAccepted(s.stream, events, r.symbol, r.timestamp);
  }

  // ----- The shape of the log -----

  /** A record of a live run: its cut lies within the buffer, and its status stays as it was appended. */
  predicate LiveRecord<S>(setup: Setup<S>, r: RunRecord, n: int) {
    1 <= r.cutStart <= r.cutEnd <= n && r.status == RunStarted && r.attempts == 1 && r.mode == setup.mode
  }

  ghost predicate Recorded<S>(setup: Setup<S>, s: State<S>) {
    && Numbered(s.records)
    && (forall i :: 0 <= i < |s.log| ==> LiveRecord(setup, s.log[i], |s.records|))
    && (forall symbol :: symbol in s.lastEnd ==> 1 <= s.lastEnd[symbol] <= |s.records|)
    && match s.phase
       case Begun(_, latest) => 1 <= latest <= |s.records|
       case Looping(_, latest, _) => 1 <= latest <= |s.records|
       case InRun(_, latest, _, r) => 1 <= latest <= |s.records| && |s.log| > 0 && r == s.log[|s.log| - 1]
       case _ => true
  }

  lemma StartRunRecorded<S>(setup: Setup<S>, s: State<S>, now: int)
    requires Recorded(setup, s) && s.phase.Looping? && |s.phase.todo| > 0
    ensures Recorded(setup, StartRun(setup, s, now))
  {
    hide InRange, FirstSeq, Started, Publish;
    var symbol := s.phase.todo[0];
    if symbol !in s.lastEnd && NextCut(s.lastEnd, s.records, symbol, s.phase.latest, setup.scheduler.mode).Ok? {
      FirstCutStart(s.records, symbol, s.phase.latest);
    }
  }

  lemma ActKeeps<S>(setup: Setup<S>, s: State<S>, action: Action)
    requires ValidScheduler(setup.scheduler) && Timed(setup, s) && Recorded(setup, s)
    ensures Timed(setup, Act(setup, s, action)) && Recorded(setup, Act(setup, s, action))
  {
    hide StartRun, FinishRun, NextTick, NoDuplicates, Sorted, Numbered;
    match action
    case Append(_, _) => AppendNumbers(s.records, action.event, action.ingestTs);
    case Know(_) =>
    case Proceed(now) =>
      match s.phase
      case Idle => TickAdvances(setup.scheduler, s.lastTick, now);
      case Begun(_, _) => SortedHasNoDuplicates(s.symbols);
      case Looping(_, _, todo) =>
        if todo != [] {
          StartRunTimed(setup, s, now);
          StartRunRecorded(setup, s, now);
        }
      case InRun(_, _, todo, r) =>
        FinishRunIs(setup, s);
        TailHasNoDuplicates(r.symbol, todo);
      case _ =>
  }

  lemma TailHasNoDuplicates(x: string, todo: seq<string>)
    requires NoDuplicates([x] + todo)
    ensures NoDuplicates(todo)
  {
    RestHasNoDuplicates([x] + todo);
  }

  lemma AppendNumbers(records: seq<BufferRecord>, event: RawEvent, ingestTs: int)
    requires Numbered(records)
    ensures Numbered(records + [BufferRecord(|records| + 1, ingestTs, event)])
  {
  }

  lemma TickAdvances(config: SchedulerConfig, last: Option<int>, now: int)
    requires ValidScheduler(config)
    ensures last.Some? ==> EngineTimestamp(config, NextTick(config, last, now)) > EngineTimestamp(config, last.value)
  {
  }

  lemma {:induction false} RunKeeps<S>(setup: Setup<S>, engine: S, actions: seq<Action>)
    requires ValidScheduler(setup.scheduler)
    ensures Timed(setup, Run(setup, engine, actions)) && Recorded(setup, Run(setup, engine, actions))
  {
    hide Timed, Recorded, Act;
    if |actions| == 0 {
      InitialKeeps(setup, engine);
    } else {
      RunKeeps(setup, engine, actions[..|actions| - 1]);
      ActKeeps(setup, Run(setup, engine, actions[..|actions| - 1]), actions[|actions| - 1]);
    }
  }

  lemma InitialKeeps<S>(setup: Setup<S>, engine: S)
    ensures Timed(setup, Initial(engine)) && Recorded(setup, Initial(engine))
  {
  }

  /** The sequencer rejects nothing: whatever arrives when, the scheduler thread never dies of an exception. */
  lemma NeverCrashes<S>(setup: Setup<S>, engine: S, actions: seq<Action>)
    requires ValidScheduler(setup.scheduler)
    ensures Run(setup, engine, actions).phase != Stopped(Crashed)
  {
    RunKeeps(setup, engine, actions);
  }

  // ----- Events and their runs -----

  /** The event names the run, its symbol and time, and its cut. */
  predicate Carries(event: OrchestratorEvent, r: RunRecord) {
    && event.runId == r.runId && event.symbol == r.symbol && event.timestamp == r.timestamp
    && event.cutStart == r.cutStart && event.cutEnd == r.cutEnd && event.cutKind == r.cutKind
    && event.attempt == Some(r.attempts)
  }

  ghost predicate Logged(event: OrchestratorEvent, log: seq<RunRecord>) {
    exists j :: 0 <= j < |log| && Carries(event, log[j])
  }

  ghost predicate AllLogged<S>(s: State<S>) {
    && (forall i :: 0 <= i < |s.stream.events| ==> Logged(s.stream.events[i], s.log))
    && (s.phase.InRun? ==> |s.log| > 0 && s.phase.record == s.log[|s.log| - 1])
  }

  lemma LoggedStays(event: OrchestratorEvent, log: seq<RunRecord>, r: RunRecord)
    ensures Logged(event, log) || Carries(event, r) ==> Logged(event, log + [r])
  {
    var all := log + [r];
    if Logged(event, log) {
      var j :| 0 <= j < |log| && Carries(event, log[j]);
      assert all[j] == log[j];
    } else if Carries(event, r) {
      assert all[|log|] == r;
    }
  }

  lemma FinishCarries<S>(r: RunRecord, counts: map<string, int>, call: Result<(S, Outcome), string>)
    ensures forall i :: 0 <= i < |FinishEvents(r, counts, call)| ==> Carries(FinishEvents(r, counts, call)[i], r)
  {
  }

  lemma ActLogged<S>(setup: Setup<S>, s: State<S>, action: Action)
    requires ValidScheduler(setup.scheduler) && Timed(setup, s) && Recorded(setup, s) && AllLogged(s)
    ensures AllLogged(Act(setup, s, action))
  {
    hide Timed, NextCut, Sorted, Numbered, NextTick, Logged, Carries, Counts, CallEngine, FinishEvents, FinishRun,
         RawEventsForCut, Started;
    match action
    case Proceed(now) =>
      if s.phase.Looping? && s.phase.todo != [] {
        var t := StartRun(setup, s, now);
        StartRunTimed(setup, s, now);
        if t.log != s.log {
          var r := t.log[|s.log|];
          forall i | 0 <= i < |t.stream.events| ensures Logged(t.stream.events[i], t.log) {
            StartedCarries(r);
            LoggedStays(t.stream.events[i], s.log, r);
          }
        }
      } else if s.phase.InRun? {
        FinishRunIs(setup, s);
        var r := s.phase.record;
        var t := FinishRun(setup, s);
        var raw := RawEventsForCut(s.records, r.symbol, r.cutStart, r.cutEnd).value;
        FinishCarries(r, Counts(raw), CallEngine(setup, s.engine, raw, r));
        forall i | 0 <= i < |t.stream.events| ensures Logged(t.stream.events[i], t.log) {
          LoggedStays(t.stream.events[i], s.log[..|s.log| - 1], r);
          assert s.log[..|s.log| - 1] + [r] == s.log;
        }
      }
    case _ =>
  }

  lemma StartedCarries(r: RunRecord)
    ensures Carries(Started(r), r)
  {
  }

  /** Over every interleaving, each published event carries the run id, symbol, time and cut of a run in the log. */
  lemma {:induction false} EventsAreLogged<S>(setup: Setup<S>, engine: S, actions: seq<Action>)
    requires ValidScheduler(setup.scheduler)
    ensures AllLogged(Run(setup, engine, actions))
  {
    hide Act, Logged;
    if |actions| > 0 {
      var before := actions[..|actions| - 1];
      EventsAreLogged(setup, engine, before);
      RunKeeps(setup, engine, before);
      ActLogged(setup, Run(setup, engine, before), actions[|actions| - 1]);
    }
  }

  // ----- The cuts of a live run -----

  /** The cuts of the log, with the events that a buffer holds for them. */
  function CutsOf(records: seq<BufferRecord>, log: seq<RunRecord>): seq<ReadCut> {
    if |log| == 0 then []
    else
      var r := log[|log| - 1];
      var raw := RawEventsForCut(records, r.symbol, r.cutStart, r.cutEnd);
      CutsOf(records, log[..|log| - 1])
      + [ReadCut(Cut(r.symbol, r.cutStart, r.cutEnd, r.cutKind), if raw.Ok? then raw.value else [])]
  }

  function SelectorOf<S>(s: State<S>): SelectorState {
    SelectorState(s.records, s.lastEnd, CutsOf(s.records, s.log))
  }

  lemma CutIsStable(records: seq<BufferRecord>, more: seq<BufferRecord>, symbol: string, start: int, end: int)
    requires Numbered(records + more) && end <= |records|
    ensures RawEventsForCut(records + more, symbol, start, end) == RawEventsForCut(records, symbol, start, end)
  {
    hide InRange;
    RangeIsStable(records, more, start, end);
  }

  lemma {:induction false} CutsAreStable<S>(setup: Setup<S>, records: seq<BufferRecord>, more: seq<BufferRecord>,
                                            log: seq<RunRecord>)
    requires Numbered(records + more) && forall i :: 0 <= i < |log| ==> LiveRecord(setup, log[i], |records|)
    ensures CutsOf(records + more, log) == CutsOf(records, log)
  {
    hide RawEventsForCut, Numbered;
    if |log| > 0 {
      var r := log[|log| - 1];
      CutIsStable(records, more, r.symbol, r.cutStart, r.cutEnd);
      CutsAreStable(setup, records, more, log[..|log| - 1]);
    }
  }

  /** A step of the live machine is at most one step of the cut selector. */
  lemma ActCuts<S>(setup: Setup<S>, s: State<S>, action: Action)
    requires ValidScheduler(setup.scheduler) && Timed(setup, s) && Recorded(setup, s)
    ensures var t := Act(setup, s, action);
            || SelectorOf(t) == SelectorOf(s)
            || exists call :: SelectorOf(t) == Called(SelectorOf(s), call) && (call.Select? ==> call.end <= |s.records|)
  {
    hide Timed, RawEventsForCut, NextCut, Numbered, Sorted;
    match action
    case Append(event, ingestTs) =>
      if |s.records| < setup.maxRecords {
        AppendNumbers(s.records, event, ingestTs);
        CutsAreStable(setup, s.records, [BufferRecord(|s.records| + 1, ingestTs, event)], s.log);
        assert SelectorOf(Act(setup, s, action)) == Called(SelectorOf(s), Ingest(event, ingestTs));
      }
    case Know(_) =>
    case Proceed(now) =>
      if s.phase.Looping? && s.phase.todo != [] {
        StartRunCuts(setup, s, now);
      } else if s.phase.InRun? {
        FinishRunIs(setup, s);
      }
  }

  lemma StartRunCuts<S>(setup: Setup<S>, s: State<S>, now: int)
    requires Recorded(setup, s) && s.phase.Looping? && |s.phase.todo| > 0
    ensures var t := StartRun(setup, s, now);
            || SelectorOf(t) == SelectorOf(s)
            || SelectorOf(t) == Called(SelectorOf(s), Select(s.phase.todo[0], s.phase.latest, setup.scheduler.mode))
  {
    hide RawEventsForCut, InRange, FirstSeq, Publish, Started;
    var t := StartRun(setup, s, now);
    if t.log != s.log {
      assert t.log[..|t.log| - 1] == s.log;
    }
  }

  /** The buffer, the boundaries and the logged cuts are those of a history of appends and cuts, each of which ends
      within the buffer of its time. */
  lemma {:induction false} LiveCutsAreAHistory<S>(setup: Setup<S>, engine: S, actions: seq<Action>)
    requires ValidScheduler(setup.scheduler)
    ensures exists calls :: WithinBuffer(calls) && After(calls) == SelectorOf(Run(setup, engine, actions))
  {
    hide Act, Called, CutsOf;
    if |actions| == 0 {
      NoCuts(engine);
      assert After([]) == SelectorOf(Initial(engine));
      assert WithinBuffer([]);
    } else {
      var before, action := actions[..|actions| - 1], actions[|actions| - 1];
      LiveCutsAreAHistory(setup, engine, before);
      RunKeeps(setup, engine, before);
      var s := Run(setup, engine, before);
      var calls :| WithinBuffer(calls) && After(calls) == SelectorOf(s);
      ActCuts(setup, s, action);
      if SelectorOf(Act(setup, s, action)) != SelectorOf(s) {
        var call :| SelectorOf(Act(setup, s, action)) == Called(SelectorOf(s), call)
                    && (call.Select? ==> call.end <= |s.records|);
        assert (calls + [call])[..|calls|] == calls;
        assert WithinBuffer(calls + [call]);
        assert After(calls + [call]) == SelectorOf(Act(setup, s, action));
      }
    }
  }

  lemma NoCuts<S>(engine: S)
    ensures SelectorOf(Initial(engine)) == SelectorState([], map[], [])
  {
  }

  /** In every run, whatever arrives during a tick: the logged cuts of a symbol follow each other without gap or
      overlap, and together hold exactly its events up to its boundary, once each and in the order of ingestion. */
  lemma LiveCutConservation<S>(setup: Setup<S>, engine: S, actions: seq<Action>, symbol: string)
    requires ValidScheduler(setup.scheduler)
    ensures var s := Run(setup, engine, actions);
            var cuts := CutsOf(s.records, s.log);
            && Chained(cuts) && BoundaryIsLastEnd(SelectorOf(s), symbol)
            && Boundary(s.lastEnd, symbol) <= |s.records|
            && ReadFor(cuts, symbol) == EventsOf(UpTo(s.records, Boundary(s.lastEnd, symbol)), symbol)
  {
    hide Run, CutsOf, Chained, BoundaryIsLastEnd, EventsOf, UpTo, ReadFor;
    LiveCutsAreAHistory(setup, engine, actions);
    var calls :| WithinBuffer(calls) && After(calls) == SelectorOf(Run(setup, engine, actions));
    CutsAreChained(calls, symbol);
    CutConservation(calls, symbol);
    WithinBufferLosesNothing(calls, symbol);
  }
}
