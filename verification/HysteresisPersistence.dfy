/** The hysteresis record log: JSON records, the refolding of a log into a store, and the engine
    runner that appends to the log and rolls back. */
module HysteresisPersistence {
  import opened Ordering
  import opened Regimes
  import opened HysteresisRules
  import opened OrchestratorContracts

  datatype StoreRecord = StoreRecord(
    symbol: string,
    timestamp: int,
    anchor: Regime,
    candidate: Option<Regime>,
    progress: int,
    lastCommit: Option<int>)

  // ----- Records as JSON objects -----

  datatype Json = JNull | JBool(b: bool) | JInt(i: int) | JString(s: string) | JOther

  type JsonObject = map<string, Json>

  const RECORD_SCHEMA := "hysteresis_store_record"
  const RECORD_SCHEMA_VERSION := "1"

  function BuildRecord(state: HysteresisState): StoreRecord {
    StoreRecord(state.symbol, state.timestamp, state.anchor, state.candidate, state.progress, state.lastCommit)
  }

  function SerializeRecord(record: StoreRecord): JsonObject {
    map[
      "schema" := JString(RECORD_SCHEMA),
      "schema_version" := JString(RECORD_SCHEMA_VERSION),
      "symbol" := JString(record.symbol),
      "engine_timestamp_ms" := JInt(record.timestamp),
      "anchor_regime" := JString(RegimeValue(record.anchor)),
      "candidate_regime" := (match record.candidate case None => JNull case Some(r) => JString(RegimeValue(r))),
      "progress_current" := JInt(record.progress),
      "last_commit_timestamp_ms" := (match record.lastCommit case None => JNull case Some(t) => JInt(t))
    ]
  }

  /** `data.get(key)`: a missing key reads as null. */
  function Get(data: JsonObject, key: string): Json {
    if key in data then data[key] else JNull
  }

  /** `_require_int`: an integer, not a boolean, and not negative. */
  function RequireInt(value: Json): Option<int> {
    if value.JInt? && value.i >= 0 then Some(value.i) else None
  }

  function ParseRegime(value: Json): Option<Regime> {
    if value.JString? then RegimeFromValue(value.s) else None
  }

  /** The record, or none where the source raises `ValueError`. */
  function ParseRecord(data: JsonObject): Option<StoreRecord> {
    if Get(data, "schema") != JString(RECORD_SCHEMA) then None else
    if Get(data, "schema_version") != JString(RECORD_SCHEMA_VERSION) then None else
    var symbol := Get(data, "symbol");
    if !symbol.JString? || symbol.s == "" then None else
    var timestamp := RequireInt(Get(data, "engine_timestamp_ms"));
    var anchor := ParseRegime(Get(data, "anchor_regime"));
    var candidateRaw := Get(data, "candidate_regime");
    var candidate := ParseRegime(candidateRaw);
    var progress := RequireInt(Get(data, "progress_current"));
    var lastRaw := Get(data, "last_commit_timestamp_ms");
    var last := RequireInt(lastRaw);
    if timestamp.None? || anchor.None? || progress.None? then None
    else if candidateRaw != JNull && candidate.None? then None
    else if lastRaw != JNull && last.None? then None
    else Some(StoreRecord(symbol.s, timestamp.value, anchor.value,
                          if candidateRaw == JNull then None else candidate,
                          progress.value,
                          if lastRaw == JNull then None else last))
  }

  /** What a record needs to be read back. */
  predicate Storable(record: StoreRecord) {
    && record.symbol != ""
    && record.timestamp >= 0
    && record.progress >= 0
    && (record.lastCommit.Some? ==> record.lastCommit.value >= 0)
  }

  lemma ParseRegimeRoundTrip(r: Regime)
    ensures ParseRegime(JString(RegimeValue(r))) == Some(r)
  {
    var back := RegimeFromValue(RegimeValue(r));
    RegimeTextsDiffer(back.value, r);
  }

  /** A written record reads back as itself, exactly if it is storable; otherwise its line is dropped. */
  lemma RecordRoundTrip(record: StoreRecord)
    ensures ParseRecord(SerializeRecord(record)) == (if Storable(record) then Some(record) else None)
  {
    ParseRegimeRoundTrip(record.anchor);
    if record.candidate.Some? {
      ParseRegimeRoundTrip(record.candidate.value);
    }
  }

  /** A field that is missing or null. */
  predicate Missing(data: JsonObject, key: string) {
    key !in data || data[key] == JNull
  }

  predicate HasText(data: JsonObject, key: string, text: string) {
    key in data && data[key] == JString(text)
  }

  predicate HasCount(data: JsonObject, key: string, n: int) {
    key in data && data[key] == JInt(n) && n >= 0
  }

  /** The object stands for the record: both schema texts, a symbol that is not empty, integers that are not negative
      and regimes by their texts; candidate and last commit may be missing or null. */
  predicate StandsFor(data: JsonObject, r: StoreRecord) {
    && HasText(data, "schema", "hysteresis_store_record") && HasText(data, "schema_version", "1")
    && HasText(data, "symbol", r.symbol) && r.symbol != ""
    && HasCount(data, "engine_timestamp_ms", r.timestamp)
    && HasText(data, "anchor_regime", RegimeValue(r.anchor))
    && (if r.candidate.Some? then HasText(data, "candidate_regime", RegimeValue(r.candidate.value))
        else Missing(data, "candidate_regime"))
    && HasCount(data, "progress_current", r.progress)
    && (if r.lastCommit.Some? then HasCount(data, "last_commit_timestamp_ms", r.lastCommit.value)
        else Missing(data, "last_commit_timestamp_ms"))
  }

  /** An object is read as a record exactly if it stands for one, and then as that one. */
  lemma ParseTells(data: JsonObject)
    ensures forall r :: ParseRecord(data) == Some(r) <==> StandsFor(data, r)
  {
    hide RegimeValue, RegimeFromValue;
    var parsed := ParseRecord(data);
    forall r | StandsFor(data, r) ensures parsed == Some(r) {
      ParseRegimeRoundTrip(r.anchor);
      if r.candidate.Some? { ParseRegimeRoundTrip(r.candidate.value); }
    }
    if parsed.Some? {
      ParsedRegime(Get(data, "anchor_regime"));
      ParsedRegime(Get(data, "candidate_regime"));
    }
  }

  lemma ParsedRegime(value: Json)
    ensures ParseRegime(value).Some? ==> value == JString(RegimeValue(ParseRegime(value).value))
  {
  }

  // ----- The log file and its refolding -----

  /** A line of the file: blank, text that is no JSON object, or an object. */
  datatype Line = Blank | NotAnObject | Object(data: JsonObject)

  function LineRecord(line: Line): Option<StoreRecord> {
    if line.Object? then ParseRecord(line.data) else None
  }

  type Records = map<string, StoreRecord>

  /** A record replaces the one of its symbol unless it is older. */
  function Absorb(records: Records, line: Line): Records {
    match LineRecord(line)
    case None => records
    case Some(r) =>
      if r.symbol in records && r.timestamp < records[r.symbol].timestamp then records else records[r.symbol := r]
  }

  function Fold(lines: seq<Line>): Records {
    if |lines| == 0 then map[] else Absorb(Fold(lines[..|lines| - 1]), lines[|lines| - 1])
  }

  method LoadRecords(lines: seq<Line>) returns (records: Records)
    ensures records == Fold(lines)
  {
    records := map[];
    var i := 0;
    while i < |lines|
      invariant i <= |lines|
      invariant records == Fold(lines[..i])
    {
      assert lines[..i + 1][..i] == lines[..i];
      var line := lines[i];
      i := i + 1;
      if line.Object? {
        var record := ParseRecord(line.data);
        if record.Some? {
          var r := record.value;
          if r.symbol !in records || r.timestamp >= records[r.symbol].timestamp {
            records := records[r.symbol := r];
          }
        }
      }
    }
    assert lines[..i] == lines;
  }

  /** The record of the symbol on this line. */
  predicate RecordAt(lines: seq<Line>, i: nat, symbol: string, r: StoreRecord) {
    i < |lines| && LineRecord(lines[i]) == Some(r) && r.symbol == symbol
  }

  /** Of the records of a symbol the log stands for the one with the latest time, and the last of these. */
  lemma {:induction false} FoldTells(lines: seq<Line>, symbol: string)
    ensures symbol in Fold(lines) <==> exists i: nat, r :: RecordAt(lines, i, symbol, r)
    ensures symbol in Fold(lines) ==>
              exists i: nat :: RecordAt(lines, i, symbol, Fold(lines)[symbol])
                && forall j: nat, r :: RecordAt(lines, j, symbol, r) ==>
                     r.timestamp < Fold(lines)[symbol].timestamp
                     || (r.timestamp == Fold(lines)[symbol].timestamp && j <= i)
  {
    hide LineRecord;
    if |lines| > 0 {
      var n := |lines| - 1;
      var before, last := lines[..n], LineRecord(lines[n]);
      FoldTells(before, symbol);
      forall i: nat, r ensures RecordAt(lines, i, symbol, r) <==>
                                 RecordAt(before, i, symbol, r) || (i == n && last == Some(r) && r.symbol == symbol)
      {
      }
      if last.Some? && last.value.symbol == symbol {
        assert RecordAt(lines, n, symbol, last.value);
      }
      if symbol in Fold(before) {
        var i: nat :| RecordAt(before, i, symbol, Fold(before)[symbol])
                      && forall j: nat, r :: RecordAt(before, j, symbol, r) ==>
                           r.timestamp < Fold(before)[symbol].timestamp
                           || (r.timestamp == Fold(before)[symbol].timestamp && j <= i);
        assert RecordAt(lines, i, symbol, Fold(before)[symbol]);
      }
    }
  }

  type States = map<string, HysteresisState>

  function RestoreState(record: StoreRecord, config: Config): HysteresisState {
    HysteresisState(record.symbol, record.timestamp, record.anchor, record.candidate, record.progress,
                    config.windowUpdates, record.lastCommit, [], None)
  }

  datatype RestoreError = NoValidRecords

  /** No file is an empty store; a file without a single valid record is an error. */
  method RestoreStore(file: Option<seq<Line>>, config: Config) returns (result: Result<States, RestoreError>)
    ensures result == Restored(file, config)
  {
    if file.None? {
      return Ok(map[]);
    }
    var records := LoadRecords(file.value);
    if records == map[] {
      return Err(NoValidRecords);
    }
    return Ok(map symbol | symbol in records :: RestoreState(records[symbol], config));
  }

  function Restored(file: Option<seq<Line>>, config: Config): Result<States, RestoreError> {
    match file
    case None => Ok(map[])
    case Some(lines) =>
      var records := Fold(lines);
      if records == map[] then Err(NoValidRecords)
      else Ok(map symbol | symbol in records :: RestoreState(records[symbol], config))
  }

  /** What a log restores: one state for each symbol that has a record, with the fields of that record and the window of
      the configuration, and without reasons; a log without a record is refused, and no log is an empty store. */
  lemma RestoredTells(file: Option<seq<Line>>, config: Config)
    ensures file.None? ==> Restored(file, config) == Ok(map[])
    ensures file.Some? ==> (Restored(file, config).Err? <==> Fold(file.value) == map[])
    ensures file.Some? && Restored(file, config).Ok? ==>
              var states, records := Restored(file, config).value, Fold(file.value);
              && states.Keys == records.Keys
              && forall symbol :: symbol in states ==>
                   var state, r := states[symbol], records[symbol];
                   && state.symbol == r.symbol && state.timestamp == r.timestamp && state.anchor == r.anchor
                   && state.candidate == r.candidate && state.progress == r.progress && state.lastCommit == r.lastCommit
                   && state.required == config.windowUpdates && state.reasons == [] && state.debug.None?
  {
    hide Fold;
  }

  // ----- The engine runner -----

  /** An input snapshot, together with what the engine pipeline computes from it, or the exception that it raises. */
  datatype Snapshot = Snapshot(
    symbol: string,
    timestamp: int,
    output: RegimeOutput,
    beliefs: Beliefs,
    anchor: Regime,
    failure: Option<string>)

  function PipelineState(snapshot: Snapshot): RegimeState {
    RegimeState(snapshot.symbol, snapshot.timestamp, snapshot.beliefs, snapshot.anchor)
  }

  datatype EngineRunResult = EngineRunResult(output: RegimeOutput, hysteresis: Option<HysteresisState>)

  datatype RunError = MonotonicityViolation | PersistenceFailure | PipelineRaised(detail: string)

  /** One call: the snapshot, the clock, and whether an append to the log succeeds. */
  datatype Call = Call(snapshot: Snapshot, now: int, appendSucceeds: bool)

  datatype RunnerState = RunnerState(states: States, file: Option<seq<Line>>)

  function Lookup<K, V>(m: map<K, V>, key: K): Option<V> {
    if key in m then Some(m[key]) else None
  }

  /** The fields whose change makes a state worth logging. */
  function StateAdvanced(prev: Option<HysteresisState>, next: HysteresisState): bool {
    prev.None? || CoreOf(prev.value) != CoreOf(next)
  }

  function AppendTo(file: Option<seq<Line>>, state: HysteresisState): Option<seq<Line>> {
    Some((if file.Some? then file.value else []) + [Object(SerializeRecord(BuildRecord(state)))])
  }

  /** One call in truth mode. */
  function TruthRun(snapshot: Snapshot): Result<EngineRunResult, RunError> {
    match snapshot.failure
    case Some(detail) => Err(PipelineRaised(detail))
    case None => Ok(EngineRunResult(snapshot.output, None))
  }

  /** One call in hysteresis mode. */
  function RunStep(s: RunnerState, call: Call, config: Config): (RunnerState, Result<EngineRunResult, RunError>) {
    var symbol := call.snapshot.symbol;
    var prev := Lookup(s.states, symbol);
    if prev.Some? && call.snapshot.timestamp < prev.value.timestamp then (s, Err(MonotonicityViolation)) else
    if call.snapshot.failure.Some? then (s, Err(PipelineRaised(call.snapshot.failure.value))) else
    var next := Advance(prev, PipelineState(call.snapshot), config, call.now);
    var result := Ok(EngineRunResult(call.snapshot.output, Some(next)));
    if !StateAdvanced(prev, next) then (s.(states := s.states[symbol := next]), result)
    else if call.appendSucceeds then (RunnerState(s.states[symbol := next], AppendTo(s.file, next)), result)
    else (s, Err(PersistenceFailure))
  }

  /** The per-symbol store of the engine. */
  class HysteresisStore {
    var states: States

    constructor (states: States)
      ensures this.states == states
    {
      this.states := states;
    }

    function StateFor(symbol: string): Option<HysteresisState>
      reads this
    {
      Lookup(states, symbol)
    }

    method Update(symbol: string, state: HysteresisState)
      modifies this
      ensures states == old(states)[symbol := state]
    {
      states := states[symbol := state];
    }

    method Pop(symbol: string)
      modifies this
      ensures states == old(states) - {symbol}
    {
      states := states - {symbol};
    }

    /** `process_state`: advance the state of the symbol, then store it. */
    method ProcessState(update: RegimeState, config: Config, now: int) returns (next: HysteresisState)
      modifies this
      ensures next == Advance(old(StateFor(update.symbol)), update, config, now)
      ensures states == old(states)[update.symbol := next]
    {
      next := AdvanceHysteresis(StateFor(update.symbol), update, config, now);
      Update(update.symbol, next);
    }
  }

  class EngineRunner {
    const mode: EngineMode
    const store: HysteresisStore
    const config: Config
    var file: Option<seq<Line>>

    constructor (mode: EngineMode, store: HysteresisStore, config: Config, file: Option<seq<Line>>)
      ensures this.mode == mode && this.store == store && this.config == config && this.file == file
    {
      this.mode, this.store, this.config, this.file := mode, store, config, file;
    }

    function State(): RunnerState
      reads this, store
    {
      RunnerState(store.states, file)
    }

    /** Appending succeeds or fails as a whole. */
    method Append(state: HysteresisState, succeeds: bool) returns (ok: bool)
      modifies this
      ensures ok == succeeds
      ensures file == if succeeds then AppendTo(old(file), state) else old(file)
    {
      if succeeds {
        file := AppendTo(file, state);
      }
      return succeeds;
    }

    /** `_restore_state`: forget a new symbol, put an old state back. */
    method RestorePrevious(symbol: string, prev: Option<HysteresisState>)
      modifies store
      ensures store.states == match prev
                              case None => old(store.states) - {symbol}
                              case Some(s) => old(store.states)[symbol := s]
    {
      if prev.None? {
        store.Pop(symbol);
      } else {
        store.Update(symbol, prev.value);
      }
    }

    method RunEngine(call: Call) returns (result: Result<EngineRunResult, RunError>)
      modifies this, store
      ensures mode == Truth ==> State() == old(State()) && result == TruthRun(call.snapshot)
      ensures mode == Hysteresis ==> (State(), result) == RunStep(old(State()), call, config)
    {
      var snapshot := call.snapshot;
      if mode == Truth {
        if snapshot.failure.Some? {
          return Err(PipelineRaised(snapshot.failure.value));
        }
        return Ok(EngineRunResult(snapshot.output, None));
      }
      var prev := store.StateFor(snapshot.symbol);
      if prev.Some? && snapshot.timestamp < prev.value.timestamp {
        return Err(MonotonicityViolation);
      }
      if snapshot.failure.Some? {
        return Err(PipelineRaised(snapshot.failure.value));
      }
      var next := store.ProcessState(PipelineState(snapshot), config, call.now);
      if StateAdvanced(prev, next) {
        var ok := Append(next, call.appendSucceeds);
        if !ok {
          RestorePrevious(snapshot.symbol, prev);
          RollbackRestores(old(store.states), snapshot.symbol, next);
          return Err(PersistenceFailure);
        }
      }
      return Ok(EngineRunResult(snapshot.output, Some(next)));
    }
  }

  lemma RollbackRestores(states: States, symbol: string, next: HysteresisState)
    ensures symbol !in states ==> states[symbol := next] - {symbol} == states
    ensures symbol in states ==> states[symbol := next][symbol := states[symbol]] == states
  {
  }
}
