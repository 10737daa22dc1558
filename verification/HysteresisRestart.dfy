/** Crash and restart of the hysteresis engine at any point of a run. */
module HysteresisRestart {
  import opened Ordering
  import opened Regimes
  import opened HysteresisRules
  import opened HysteresisRuns
  import opened HysteresisPersistence

  type Outcome = Result<EngineRunResult, RunError>

  function StateAfter(start: RunnerState, calls: seq<Call>, config: Config): RunnerState {
    if |calls| == 0 then start
    else RunStep(StateAfter(start, calls[..|calls| - 1], config), calls[|calls| - 1], config).0
  }

  function Outcomes(start: RunnerState, calls: seq<Call>, config: Config): seq<Outcome> {
    if |calls| == 0 then [] else
      var before := calls[..|calls| - 1];
      Outcomes(start, before, config) + [RunStep(StateAfter(start, before, config), calls[|calls| - 1], config).1]
  }

  const NOTHING := RunnerState(map[], None)

  /** Calls whose results can be written down: named symbols and clocks that are not before the epoch. */
  predicate Loggable(call: Call) {
    call.snapshot.symbol != "" && call.snapshot.timestamp >= 0 && call.now >= 0
  }

  function LoggedRecords(file: Option<seq<Line>>): Records {
    if file.None? then map[] else Fold(file.value)
  }

  /** The record tells all about the state except, perhaps, its latest timestamps. */
  ghost predicate Remembers(record: StoreRecord, state: HysteresisState) {
    && record.symbol == state.symbol
    && record.anchor == state.anchor
    && record.candidate == state.candidate
    && record.progress == state.progress
    && record.lastCommit == state.lastCommit
    && record.timestamp <= state.timestamp
  }

  /** The log remembers every live state. */
  ghost predicate Recoverable(s: RunnerState, config: Config) {
    var records := LoggedRecords(s.file);
    && (s.file.Some? ==> records != map[])
    && records.Keys == s.states.Keys
    && forall symbol :: symbol in s.states ==>
         var state := s.states[symbol];
         && state.symbol == symbol
         && state.required == config.windowUpdates
         && Consistent(CoreOf(state), config)
         && (state.lastCommit.Some? ==> state.lastCommit.value >= 0)
         && Remembers(records[symbol], state)
  }

  lemma AppendFolds(file: Option<seq<Line>>, state: HysteresisState)
    ensures LoggedRecords(AppendTo(file, state))
            == Absorb(LoggedRecords(file), Object(SerializeRecord(BuildRecord(state))))
  {
    var lines := if file.Some? then file.value else [];
    var line := Object(SerializeRecord(BuildRecord(state)));
    assert AppendTo(file, state) == Some(lines + [line]);
    assert (lines + [line])[..|lines + [line]| - 1] == lines;
    assert Fold(lines) == LoggedRecords(file);
  }

  /** What is not logged has not changed what the log says. */
  lemma UnloggedIsRemembered(prev: Option<HysteresisState>, update: RegimeState, config: Config, now: int)
    requires Sensible(config) && (prev.Some? ==> Consistent(CoreOf(prev.value), config))
    ensures var next := Advance(prev, update, config, now);
            && Consistent(CoreOf(next), config)
            && (!StateAdvanced(prev, next) ==>
                  CoreOf(next) == CoreOf(prev.value) && next.lastCommit == prev.value.lastCommit)
            && (next.lastCommit == Some(now) || (prev.Some? && next.lastCommit == prev.value.lastCommit)
                || next.lastCommit == None)
  {
    var core := CoreBefore(prev, update);
    StepConsistent(core, update.beliefs, config);
    AnchorMovesOnlyOnCommit(core, update.beliefs, config);
  }

  /** If the call writes a line to the log, the line can be read back. */
  predicate WritesStorable(s: RunnerState, call: Call, config: Config) {
    var (next, result) := RunStep(s, call, config);
    result.Ok? && next.file != s.file ==> Storable(BuildRecord(result.value.hysteresis.value))
  }

  lemma WriteIs(s: RunnerState, call: Call, config: Config)
    ensures var (next, result) := RunStep(s, call, config);
            var prev := Lookup(s.states, call.snapshot.symbol);
            var state := Advance(prev, PipelineState(call.snapshot), config, call.now);
            && (result.Err? ==> next == s)
            && (result.Ok? ==> result.value.hysteresis == Some(state)
                               && next.states == s.states[call.snapshot.symbol := state]
                               && (prev.Some? ==> prev.value.timestamp <= call.snapshot.timestamp))
            && (result.Ok? && StateAdvanced(prev, state) ==>
                  next.file == AppendTo(s.file, state) && next.file.Some? && next.file != s.file)
            && (result.Ok? && !StateAdvanced(prev, state) ==> next.file == s.file)
  {
    hide Advance, StateAdvanced, AppendTo;
    var prev := Lookup(s.states, call.snapshot.symbol);
    AppendGrows(s.file, Advance(prev, PipelineState(call.snapshot), config, call.now));
  }

  lemma AppendGrows(file: Option<seq<Line>>, state: HysteresisState)
    ensures AppendTo(file, state).Some? && AppendTo(file, state) != file
  {
    var lines := if file.Some? then file.value else [];
    assert |AppendTo(file, state).value| == |lines| + 1;
  }

  /** The state that the last accepted call of a symbol returned. */
  function LastReturned(calls: seq<Call>, outcomes: seq<Outcome>, symbol: string): Option<HysteresisState>
    requires |calls| == |outcomes|
  {
    if |calls| == 0 then None else
      var n := |calls| - 1;
      if calls[n].snapshot.symbol == symbol && outcomes[n].Ok? then outcomes[n].value.hysteresis
      else LastReturned(calls[..n], outcomes[..n], symbol)
  }

  lemma {:induction false} StoreIsLastReturned(calls: seq<Call>, config: Config, symbol: string)
    ensures |Outcomes(NOTHING, calls, config)| == |calls|
    ensures Lookup(StateAfter(NOTHING, calls, config).states, symbol)
            == LastReturned(calls, Outcomes(NOTHING, calls, config), symbol)
  {
    hide RunStep;
    if |calls| > 0 {
      var n := |calls| - 1;
      StoreIsLastReturned(calls[..n], config, symbol);
      WriteIs(StateAfter(NOTHING, calls[..n], config), calls[n], config);
      assert Outcomes(NOTHING, calls, config)[..n] == Outcomes(NOTHING, calls[..n], config);
    }
  }

  ghost predicate Behind(call: Call, prev: Option<HysteresisState>) {
    prev.Some? && call.snapshot.timestamp < prev.value.timestamp
  }

  /** An update of a state that leaves its anchor, its candidate and its progress as they are. */
  ghost predicate Unchanging(prev: Option<HysteresisState>, beliefs: Beliefs, config: Config) {
    prev.Some? && UpdateTells(CoreOf(prev.value), CoreOf(prev.value), beliefs, config, false)
  }

  /** How each call of a run in hysteresis mode ends, by the state that the last accepted call of its symbol returned:
      refused if it is behind that state, failed with what the pipeline raised, lost if its change cannot be appended,
      and otherwise with the output of the pipeline and that state updated once. */
  lemma CallsTell(calls: seq<Call>, config: Config, n: nat)
    requires Sensible(config) && n < |calls|
    ensures |Outcomes(NOTHING, calls, config)| == |calls|
    ensures var outcomes, call := Outcomes(NOTHING, calls, config), calls[n];
            var prev := LastReturned(calls[..n], outcomes[..n], call.snapshot.symbol);
            var raised, lost := call.snapshot.failure, !call.appendSucceeds;
            && (outcomes[n] == Err(MonotonicityViolation) <==> Behind(call, prev))
            && (forall detail :: outcomes[n] == Err(PipelineRaised(detail)) <==>
                  !Behind(call, prev) && raised == Some(detail))
            && (outcomes[n] == Err(PersistenceFailure) <==>
                  && !Behind(call, prev) && raised.None? && lost
                  && !Unchanging(prev, call.snapshot.beliefs, config))
            && (outcomes[n].Ok? ==>
                  && outcomes[n].value.output == call.snapshot.output && outcomes[n].value.hysteresis.Some?
                  && var next := outcomes[n].value.hysteresis.value;
                     var core := if prev.Some? then CoreOf(prev.value) else Core(call.snapshot.anchor, None, 0);
                     var commits := next.anchor != core.anchor;
                     && UpdateTells(core, CoreOf(next), call.snapshot.beliefs, config, commits)
                     && next.symbol == call.snapshot.symbol && next.timestamp == call.snapshot.timestamp
                     && next.lastCommit == if commits then Some(call.now)
                                           else if prev.Some? then prev.value.lastCommit else None)
  {
    hide RunStep, Consistent, UpdateTells;
    OutcomesOfPrefix(calls, config, n);
    StoreIsLastReturned(calls, config, "");
    StoreIsLastReturned(calls[..n], config, calls[n].snapshot.symbol);
    StatesStayConsistent(calls[..n], config, calls[n].snapshot.symbol);
    CallTells(StateAfter(NOTHING, calls[..n], config), calls[n], config);
  }

  lemma {:induction false} OutcomesOfPrefix(calls: seq<Call>, config: Config, n: nat)
    requires n < |calls|
    ensures |Outcomes(NOTHING, calls, config)| == |calls|
    ensures Outcomes(NOTHING, calls, config)[..n] == Outcomes(NOTHING, calls[..n], config)
    ensures Outcomes(NOTHING, calls, config)[n] == RunStep(StateAfter(NOTHING, calls[..n], config), calls[n], config).1
  {
    hide RunStep;
    var m := |calls| - 1;
    StoreIsLastReturned(calls, config, "");
    StoreIsLastReturned(calls[..m], config, "");
    assert Outcomes(NOTHING, calls, config)[..m] == Outcomes(NOTHING, calls[..m], config);
    if n < m {
      OutcomesOfPrefix(calls[..m], config, n);
      assert calls[..m][..n] == calls[..n];
      assert Outcomes(NOTHING, calls, config)[..n] == Outcomes(NOTHING, calls[..m], config)[..n];
    }
  }

  lemma {:induction false} StatesStayConsistent(calls: seq<Call>, config: Config, symbol: string)
    requires Sensible(config)
    ensures var s := StateAfter(NOTHING, calls, config).states;
            symbol in s ==> Consistent(CoreOf(s[symbol]), config)
  {
    hide RunStep, Consistent, Advance;
    if |calls| > 0 {
      var n := |calls| - 1;
      var s, call := StateAfter(NOTHING, calls[..n], config), calls[n];
      StatesStayConsistent(calls[..n], config, symbol);
      WriteIs(s, call, config);
      if call.snapshot.symbol == symbol {
        UnloggedIsRemembered(Lookup(s.states, symbol), PipelineState(call.snapshot), config, call.now);
      }
    }
  }

  lemma CallTells(s: RunnerState, call: Call, config: Config)
    requires Sensible(config)
    requires var prev := Lookup(s.states, call.snapshot.symbol);
             prev.Some? ==> Consistent(CoreOf(prev.value), config)
    ensures var outcome, prev := RunStep(s, call, config).1, Lookup(s.states, call.snapshot.symbol);
            var raised, lost := call.snapshot.failure, !call.appendSucceeds;
            && (outcome == Err(MonotonicityViolation) <==> Behind(call, prev))
            && (forall detail :: outcome == Err(PipelineRaised(detail)) <==>
                  !Behind(call, prev) && raised == Some(detail))
            && (outcome == Err(PersistenceFailure) <==>
                  && !Behind(call, prev) && raised.None? && lost
                  && !Unchanging(prev, call.snapshot.beliefs, config))
            && (outcome.Ok? ==>
                  && outcome.value.output == call.snapshot.output && outcome.value.hysteresis.Some?
                  && var next := outcome.value.hysteresis.value;
                     var core := if prev.Some? then CoreOf(prev.value) else Core(call.snapshot.anchor, None, 0);
                     var commits := next.anchor != core.anchor;
                     && UpdateTells(core, CoreOf(next), call.snapshot.beliefs, config, commits)
                     && next.symbol == call.snapshot.symbol && next.timestamp == call.snapshot.timestamp
                     && next.lastCommit == if commits then Some(call.now)
                                           else if prev.Some? then prev.value.lastCommit else None)
  {
    hide Advance, UpdateTells, Consistent;
    var prev := Lookup(s.states, call.snapshot.symbol);
    AdvanceTells(prev, PipelineState(call.snapshot), config, call.now);
    if prev.Some? {
      var next := Advance(prev, PipelineState(call.snapshot), config, call.now);
      var core, commits := CoreOf(prev.value), next.anchor != prev.value.anchor;
      if Unchanging(prev, call.snapshot.beliefs, config) {
        OneUpdate(core, CoreOf(next), core, call.snapshot.beliefs, config, commits, false);
      }
    }
  }

  /** What an update tells leaves one state only. */
  lemma OneUpdate(core: Core, a: Core, b: Core, beliefs: Beliefs, config: Config, aCommits: bool, bCommits: bool)
    requires UpdateTells(core, a, beliefs, config, aCommits) && UpdateTells(core, b, beliefs, config, bCommits)
    ensures a == b && aCommits == bCommits
  {
    hide Challenges, Enters;
  }

  /** A call writes a line exactly if it returns a state that is the first of its symbol, or differs from the one before
      in anchor, candidate or progress; the line is the record of that state, and what was there stays. */
  lemma WritesExactly(s: RunnerState, call: Call, config: Config)
    ensures var (next, result) := RunStep(s, call, config);
            var lines := if s.file.Some? then s.file.value else [];
            && (next.file != s.file <==>
                  && result.Ok?
                  && var state := result.value.hysteresis.value;
                     call.snapshot.symbol in s.states ==>
                       var prev := s.states[call.snapshot.symbol];
                       prev.anchor != state.anchor || prev.candidate != state.candidate
                         || prev.progress != state.progress)
            && (next.file != s.file ==>
                  && next.file.Some? && |next.file.value| == |lines| + 1 && next.file.value[..|lines|] == lines
                  && var state, line := result.value.hysteresis.value, next.file.value[|lines|];
                     var record := StoreRecord(state.symbol, state.timestamp, state.anchor, state.candidate,
                                               state.progress, state.lastCommit);
                     LineRecord(line) == if Storable(record) then Some(record) else None)
  {
    hide Advance, AppendTo;
    WriteIs(s, call, config);
    var prev := Lookup(s.states, call.snapshot.symbol);
    var state := Advance(prev, PipelineState(call.snapshot), config, call.now);
    AppendedLine(s.file, state);
    RecordRoundTrip(BuildRecord(state));
  }

  lemma AppendedLine(file: Option<seq<Line>>, state: HysteresisState)
    ensures var lines := if file.Some? then file.value else [];
            AppendTo(file, state) == Some(lines + [Object(SerializeRecord(BuildRecord(state)))])
  {
  }

  /** Every call keeps the log in step: advanced, skipped, rejected or rolled back. */
  lemma StepRecoverable(s: RunnerState, call: Call, config: Config)
    requires Sensible(config) && Recoverable(s, config) && WritesStorable(s, call, config)
    ensures Recoverable(RunStep(s, call, config).0, config)
  {
    hide Advance, Consistent, SerializeRecord, ParseRecord, Fold, RunStep, AppendTo;
    WriteIs(s, call, config);
    var symbol := call.snapshot.symbol;
    var prev := Lookup(s.states, symbol);
    var next := Advance(prev, PipelineState(call.snapshot), config, call.now);
    UnloggedIsRemembered(prev, PipelineState(call.snapshot), config, call.now);
    AdvanceLabels(prev, PipelineState(call.snapshot), config, call.now);
    if RunStep(s, call, config).1.Ok? && StateAdvanced(prev, next) {
      AppendFolds(s.file, next);
      RecordRoundTrip(BuildRecord(next));
    }
  }

  /** Named symbols and clocks from the epoch on are enough for lines that can be read back. */
  lemma LoggableIsStorable(s: RunnerState, call: Call, config: Config)
    requires Sensible(config) && Recoverable(s, config) && Loggable(call)
    ensures WritesStorable(s, call, config)
  {
    hide Advance, Consistent, RunStep, Fold;
    WriteIs(s, call, config);
    var prev := Lookup(s.states, call.snapshot.symbol);
    UnloggedIsRemembered(prev, PipelineState(call.snapshot), config, call.now);
    AdvanceLabels(prev, PipelineState(call.snapshot), config, call.now);
    ConsistentProgress(CoreOf(Advance(prev, PipelineState(call.snapshot), config, call.now)), config);
  }

  lemma AdvanceLabels(prev: Option<HysteresisState>, update: RegimeState, config: Config, now: int)
    ensures var next := Advance(prev, update, config, now);
            next.symbol == update.symbol && next.timestamp == update.timestamp && next.required == config.windowUpdates
  {
  }

  lemma ConsistentProgress(core: Core, config: Config)
    requires Consistent(core, config)
    ensures core.progress >= 0
  {
  }

  /** Every line that the run writes can be read back. */
  ghost predicate AllStorable(start: RunnerState, calls: seq<Call>, config: Config) {
    |calls| == 0 ||
    var before := calls[..|calls| - 1];
    AllStorable(start, before, config) && WritesStorable(StateAfter(start, before, config), calls[|calls| - 1], config)
  }

  lemma {:induction false} RunRecoverable(start: RunnerState, calls: seq<Call>, config: Config)
    requires Sensible(config) && Recoverable(start, config) && AllStorable(start, calls, config)
    ensures Recoverable(StateAfter(start, calls, config), config)
  {
    hide Recoverable, WritesStorable, RunStep;
    if |calls| > 0 {
      RunRecoverable(start, calls[..|calls| - 1], config);
      StepRecoverable(StateAfter(start, calls[..|calls| - 1], config), calls[|calls| - 1], config);
    }
  }

  lemma {:induction false} LoggableCallsAreStorable(start: RunnerState, calls: seq<Call>, config: Config)
    requires Sensible(config) && Recoverable(start, config)
    requires forall i :: 0 <= i < |calls| ==> Loggable(calls[i])
    ensures AllStorable(start, calls, config)
  {
    hide Recoverable, WritesStorable, RunStep, Loggable;
    if |calls| > 0 {
      var before := calls[..|calls| - 1];
      LoggableCallsAreStorable(start, before, config);
      RunRecoverable(start, before, config);
      LoggableIsStorable(StateAfter(start, before, config), calls[|calls| - 1], config);
    }
  }

  /** The restored store knows the same symbols with the same anchor, candidate, progress and last commit;
      only its timestamps may lag behind. */
  ghost predicate Agrees(live: States, restored: States) {
    && live.Keys == restored.Keys
    && forall symbol :: symbol in live ==>
         && CoreOf(restored[symbol]) == CoreOf(live[symbol])
         && restored[symbol].lastCommit == live[symbol].lastCommit
         && restored[symbol].required == live[symbol].required
         && restored[symbol].timestamp <= live[symbol].timestamp
  }

  /** Restarting in a recoverable state: the log can be read, its store agrees with the live one, and
      the restored engine is itself recoverable, so this also covers repeated crashes. */
  lemma RestartAgrees(s: RunnerState, config: Config)
    requires Recoverable(s, config)
    ensures var restored := Restored(s.file, config);
            && restored.Ok?
            && Agrees(s.states, restored.value)
            && Recoverable(RunnerState(restored.value, s.file), config)
  {
    hide Consistent, Fold;
    forall symbol | symbol in s.states
      ensures CoreOf(RestoreState(LoggedRecords(s.file)[symbol], config)) == CoreOf(s.states[symbol])
    {
    }
  }

  lemma {:induction false} ContinuesAlike(live: RunnerState, restored: RunnerState, calls: seq<Call>, config: Config)
    requires Agrees(live.states, restored.states) && live.file == restored.file
    requires Err(MonotonicityViolation) !in Outcomes(live, calls, config)
    ensures Outcomes(restored, calls, config) == Outcomes(live, calls, config)
    ensures Agrees(StateAfter(live, calls, config).states, StateAfter(restored, calls, config).states)
    ensures StateAfter(live, calls, config).file == StateAfter(restored, calls, config).file
  {
    if |calls| > 0 {
      var before := calls[..|calls| - 1];
      var call := calls[|calls| - 1];
      forall o | o in Outcomes(live, before, config) ensures o in Outcomes(live, calls, config) {}
      ContinuesAlike(live, restored, before, config);
      var a := StateAfter(live, before, config);
      assert RunStep(a, call, config).1 == Outcomes(live, calls, config)[|Outcomes(live, before, config)|];
      StepAlike(a, StateAfter(restored, before, config), call, config);
    }
  }

  lemma StepAlike(a: RunnerState, b: RunnerState, call: Call, config: Config)
    requires Agrees(a.states, b.states) && a.file == b.file
    requires RunStep(a, call, config).1 != Err(MonotonicityViolation)
    ensures RunStep(b, call, config).1 == RunStep(a, call, config).1
    ensures Agrees(RunStep(a, call, config).0.states, RunStep(b, call, config).0.states)
    ensures RunStep(a, call, config).0.file == RunStep(b, call, config).0.file
  {
    hide Advance, AppendTo;
    var update := PipelineState(call.snapshot);
    var prevA, prevB := Lookup(a.states, update.symbol), Lookup(b.states, update.symbol);
    AdvanceAlike(prevA, prevB, update, config, call.now);
  }

  lemma AdvanceAlike(a: Option<HysteresisState>, b: Option<HysteresisState>, update: RegimeState, config: Config,
                     now: int)
    requires a.Some? <==> b.Some?
    requires a.Some? ==> CoreOf(a.value) == CoreOf(b.value) && a.value.lastCommit == b.value.lastCommit
    ensures Advance(a, update, config, now) == Advance(b, update, config, now)
    ensures var next := Advance(a, update, config, now); StateAdvanced(a, next) <==> StateAdvanced(b, next)
    ensures Advance(a, update, config, now).timestamp == update.timestamp
  {
    assert CoreBefore(a, update) == CoreBefore(b, update);
  }

  /** Crash after any run of calls from nothing whose lines can be read back, with failed and skipped appends anywhere
      in it: the log restores a store that agrees with the lost one, and every continuation that the lost engine would
      have accepted gives from the restored store exactly the same results. */
  lemma CrashRestart(calls: seq<Call>, continuation: seq<Call>, config: Config)
    requires Sensible(config) && AllStorable(NOTHING, calls, config)
    ensures var live := StateAfter(NOTHING, calls, config);
            var restored := Restored(live.file, config);
            && restored.Ok?
            && Agrees(live.states, restored.value)
            && (Err(MonotonicityViolation) !in Outcomes(live, continuation, config) ==>
                  Outcomes(RunnerState(restored.value, live.file), continuation, config)
                    == Outcomes(live, continuation, config))
  {
    var live := StateAfter(NOTHING, calls, config);
    RunRecoverable(NOTHING, calls, config);
    RestartAgrees(live, config);
    if Err(MonotonicityViolation) !in Outcomes(live, continuation, config) {
      ContinuesAlike(live, RunnerState(Restored(live.file, config).value, live.file), continuation, config);
    }
  }

  // ----- Exactly when a restart recovers -----

  /** A log is refused exactly if none of its lines is a record that can be stored. */
  lemma {:induction false} UnreadableLog(lines: seq<Line>, config: Config)
    ensures Restored(Some(lines), config).Err? <==> forall i :: 0 <= i < |lines| ==> LineRecord(lines[i]).None?
    ensures forall i :: 0 <= i < |lines| && LineRecord(lines[i]).Some? ==> Storable(LineRecord(lines[i]).value)
  {
    hide LineRecord;
    if |lines| > 0 {
      var before, last := lines[..|lines| - 1], lines[|lines| - 1];
      UnreadableLog(before, config);
      ReadIsStorable(last);
      assert forall i :: 0 <= i < |before| ==> before[i] == lines[i];
    }
  }

  lemma ReadIsStorable(line: Line)
    ensures LineRecord(line).Some? ==> Storable(LineRecord(line).value)
  {
  }

  /** A restart at this moment reads the log and agrees with the live store. */
  ghost predicate Recovers(s: RunnerState, config: Config) {
    var restored := Restored(s.file, config);
    restored.Ok? && Agrees(s.states, restored.value)
  }

  lemma RecoverableRecovers(s: RunnerState, config: Config)
    requires Recoverable(s, config)
    ensures Recovers(s, config)
  {
    RestartAgrees(s, config);
  }

  /** A line that cannot be read back loses the change of state that it was to record. */
  lemma LostWrite(s: RunnerState, call: Call, config: Config)
    requires Recoverable(s, config) && !WritesStorable(s, call, config)
    ensures !Recovers(RunStep(s, call, config).0, config)
  {
    hide Advance, Consistent, RunStep, Fold, SerializeRecord, ParseRecord, AppendTo;
    WriteIs(s, call, config);
    var next := RunStep(s, call, config).1.value.hysteresis.value;
    AppendFolds(s.file, next);
    RecordRoundTrip(BuildRecord(next));
    var records := LoggedRecords(s.file);
    var file := RunStep(s, call, config).0.file;
    assert LineRecord(Object(SerializeRecord(BuildRecord(next)))).None?;
    assert Fold(file.value) == records;
    var symbol := call.snapshot.symbol;
    if records != map[] {
      var restored := Restored(file, config).value;
      assert restored.Keys == records.Keys == s.states.Keys;
      if symbol in s.states {
        assert restored[symbol] == RestoreState(records[symbol], config);
        assert CoreOf(restored[symbol]) == CoreOf(s.states[symbol]) != CoreOf(next);
      }
    }
  }

  lemma NothingIsRecoverable(config: Config)
    ensures Recoverable(NOTHING, config)
  {
  }

  /** A restart after every prefix of a run recovers the live store, exactly if every line that the run writes can be
      read back: a symbol that is not empty, and no number before zero. */
  lemma {:induction false} RecoversExactly(calls: seq<Call>, config: Config)
    requires Sensible(config)
    ensures (forall n :: 0 <= n <= |calls| ==> Recovers(StateAfter(NOTHING, calls[..n], config), config))
        <==> AllStorable(NOTHING, calls, config)
  {
    hide Recoverable, WritesStorable, RunStep, Recovers;
    NothingIsRecoverable(config);
    if |calls| == 0 {
      RecoverableRecovers(NOTHING, config);
      assert calls[..0] == [];
    } else {
      var before, call := calls[..|calls| - 1], calls[|calls| - 1];
      RecoversExactly(before, config);
      assert forall n :: 0 <= n < |calls| ==> calls[..n] == before[..n];
      assert calls[..|calls|] == calls;
      if AllStorable(NOTHING, before, config) {
        RunRecoverable(NOTHING, before, config);
        if WritesStorable(StateAfter(NOTHING, before, config), call, config) {
          RunRecoverable(NOTHING, calls, config);
          RecoverableRecovers(StateAfter(NOTHING, calls, config), config);
        } else {
          LostWrite(StateAfter(NOTHING, before, config), call, config);
        }
      }
    }
  }
}
