/** The live orchestrator: raw events arrive at any moment while a scheduler thread works through its ticks. */
module Orchestrator {
  import opened Ordering
  import opened HysteresisRules
  import opened OrchestratorContracts
  import opened HysteresisPersistence
  import opened InputBuffer
  import opened Cuts
  import opened Scheduling

  // ----- Run records and the events of a run -----

  datatype RunStatus = RunStarted | RunCompleted | RunFailed

  datatype RunRecord = RunRecord(
    runId: string,
    symbol: string,
    timestamp: int,
    mode: EngineMode,
    cutKind: CutKind,
    cutStart: int,
    cutEnd: int,
    plannedTs: int,
    startedTs: int,
    status: RunStatus,
    attempts: int,
    errorKind: Option<string>,
    errorDetail: Option<string>)

  function Started(r: RunRecord): OrchestratorEvent {
    OrchestratorEvent(EngineRunStarted, r.runId, r.symbol, r.timestamp, r.cutStart, r.cutEnd, r.cutKind,
                      Some(r.mode), Some(r.attempts), None, NoPayload)
  }

  function Failed(r: RunRecord, kind: string, detail: string, counts: map<string, int>): OrchestratorEvent {
    OrchestratorEvent(EngineRunFailed, r.runId, r.symbol, r.timestamp, r.cutStart, r.cutEnd, r.cutKind,
                      Some(r.mode), Some(r.attempts), Some(counts), FailedPayload(kind, detail))
  }

  function StatePublished(r: RunRecord, state: HysteresisState, counts: map<string, int>): OrchestratorEvent {
    OrchestratorEvent(HysteresisStatePublished, r.runId, r.symbol, r.timestamp, r.cutStart, r.cutEnd, r.cutKind,
                      Some(Hysteresis), Some(r.attempts), Some(counts), StatePayload(state))
  }

  function Completed(r: RunRecord, output: Regimes.RegimeOutput, counts: map<string, int>): OrchestratorEvent {
    OrchestratorEvent(EngineRunCompleted, r.runId, r.symbol, r.timestamp, r.cutStart, r.cutEnd, r.cutKind,
                      Some(r.mode), Some(r.attempts), Some(counts), CompletedPayload(output))
  }

  const SNAPSHOT_BUILD_FAILURE := "snapshot_build_failure"
  const ENGINE_FAILURE := "engine_failure"

  function Counts(events: seq<RawEvent>): map<string, int> {
    if |events| == 0 then map[]
    else
      var before, kind := Counts(events[..|events| - 1]), events[|events| - 1].eventType;
      before[kind := (if kind in before then before[kind] else 0) + 1]
  }

  method CountsByEventType(events: seq<RawEvent>) returns (counts: map<string, int>)
    ensures counts == Counts(events)
  {
    counts := map[];
    var i := 0;
    while i < |events|
      invariant i <= |events|
      invariant counts == Counts(events[..i])
    {
      assert events[..i + 1][..i] == events[..i];
      var kind := events[i].eventType;
      counts := counts[kind := (if kind in counts then counts[kind] else 0) + 1];
      i := i + 1;
    }
    assert events[..i] == events;
  }

  function EventTypes(events: seq<RawEvent>): seq<string> {
    seq(|events|, i requires 0 <= i < |events| => events[i].eventType)
  }

  /** Every event type that occurs is counted, as often as it occurs. */
  lemma {:induction false} CountsAreMultiplicities(events: seq<RawEvent>, kind: string)
    ensures kind in Counts(events) <==> kind in EventTypes(events)
    ensures kind in Counts(events) ==> Counts(events)[kind] == multiset(EventTypes(events))[kind]
  {
    if |events| > 0 {
      var before := events[..|events| - 1];
      CountsAreMultiplicities(before, kind);
      assert EventTypes(events) == EventTypes(before) + [events[|events| - 1].eventType];
    }
  }

  // ----- Publishing -----

  /** What has been published, and the last timestamp of each symbol. */
  datatype Stream = Stream(sequenced: map<string, int>, events: seq<OrchestratorEvent>)

  /** An event out of order is refused with an exception. */
  function Publish(stream: Stream, event: OrchestratorEvent): Result<Stream, SequenceError> {
    match EnsureNext(stream.sequenced, event.symbol, event.timestamp)
    case Err(e) => Err(e)
    case Ok(sequenced) => Ok(Stream(sequenced, stream.events + [event]))
  }

  function PublishAll(stream: Stream, events: seq<OrchestratorEvent>): Result<Stream, SequenceError>
    decreases |events|
  {
    if |events| == 0 then Ok(stream)
    else
      match Publish(stream, events[0])
      case Err(e) => Err(e)
      case Ok(next) => PublishAll(next, events[1..])
  }

  lemma PublishOne(stream: Stream, a: OrchestratorEvent)
    ensures PublishAll(stream, [a]) == Publish(stream, a)
  {
    if Publish(stream, a).Ok? { assert PublishAll(Publish(stream, a).value, [a][1..]).Ok?; }
  }

  lemma PublishTwo(stream: Stream, a: OrchestratorEvent, b: OrchestratorEvent)
    ensures PublishAll(stream, [a, b])
         == match Publish(stream, a) case Err(e) => Err(e) case Ok(next) => Publish(next, b)
  {
    assert [a, b][1..] == [b];
    if Publish(stream, a).Ok? { PublishOne(Publish(stream, a).value, b); }
  }

  // ----- The setup of a runtime -----

  /** How an engine call ends: with a result, with one of the two hysteresis errors, or with another exception. */
  datatype Outcome = Returned(result: EngineRunResult) | Halts | Raises(detail: string)

  /** The parts that the orchestrator calls: run ids, the composer, which may fail, the engine with its own state,
      and the guard on the engine's hysteresis state. */
  datatype Setup<!S> = Setup(
    mode: EngineMode,
    scheduler: SchedulerConfig,
    maxRecords: int,
    runId: (string, int, int, EngineMode) -> string,
    compose: (seq<RawEvent>, string, int) -> Result<Snapshot, string>,
    engine: (S, Snapshot) -> (S, Outcome),
    blocks: (S, string, int) -> bool)

  /** The composer, then the engine: the engine's new state and how the call ended, or the composer's failure. */
  function CallEngine<S>(setup: Setup<S>, engine: S, raw: seq<RawEvent>, r: RunRecord): Result<(S, Outcome), string> {
    match setup.compose(raw, r.symbol, r.timestamp)
    case Err(detail) => Err(detail)
    case Ok(snapshot) => Ok(setup.engine(engine, snapshot))
  }

  /** The events that finish a run. */
  function FinishEvents<S>(r: RunRecord, counts: map<string, int>, call: Result<(S, Outcome), string>)
    : seq<OrchestratorEvent>
  {
    match call
    case Err(detail) => [Failed(r, SNAPSHOT_BUILD_FAILURE, detail, counts)]
    case Ok((_, Halts)) => []
    case Ok((_, Raises(detail))) => [Failed(r, ENGINE_FAILURE, detail, counts)]
    case Ok((_, Returned(result))) =>
      (if result.hysteresis.Some? then [StatePublished(r, result.hysteresis.value, counts)] else [])
      + [Completed(r, result.output, counts)]
  }

  // ----- The state machine -----

  datatype HaltReason = GuardTripped | EngineHalted | Crashed

  /** Where the scheduler thread stands: waiting, at a tick, with the last ingest number read, in the loop over
      the symbols, inside the run of one symbol, or out of its loop. */
  datatype Phase =
    | Idle
    | Due(planned: int)
    | Begun(planned: int, latest: int)
    | Looping(planned: int, latest: int, todo: seq<string>)
    | InRun(planned: int, latest: int, todo: seq<string>, record: RunRecord)
    | Stopped(reason: HaltReason)

  datatype State<S> = State(
    records: seq<BufferRecord>,
    symbols: set<string>,
    lastEnd: map<string, int>,
    lastTick: Option<int>,
    log: seq<RunRecord>,
    stream: Stream,
    engine: S,
    phase: Phase)

  function Initial<S>(engine: S): State<S> {
    State([], {}, map[], None, [], Stream(map[], []), engine, Idle)
  }

  /** An arrival from a source thread, the registration of its symbol, or the next step of the scheduler thread. */
  datatype Action = Append(event: RawEvent, ingestTs: int) | Know(symbol: string) | Proceed(now: int)

  function RecordOf<S>(setup: Setup<S>, cut: Cut, planned: int, now: int): RunRecord {
    var timestamp := EngineTimestamp(setup.scheduler, planned);
    RunRecord(setup.runId(cut.symbol, timestamp, cut.end, setup.mode), cut.symbol, timestamp, setup.mode, cut.kind,
              cut.start, cut.end, planned, now, RunStarted, 1, None, None)
  }

  /** The guard, the cut, and the start of the run of one symbol. */
  function StartRun<S>(setup: Setup<S>, s: State<S>, now: int): State<S>
    requires s.phase.Looping? && |s.phase.todo| > 0
  {
    var Looping(planned, latest, todo) := s.phase;
    var symbol, rest := todo[0], todo[1..];
    if setup.blocks(s.engine, symbol, EngineTimestamp(setup.scheduler, planned)) then s.(phase := Stopped(GuardTripped))
    else
      match NextCut(s.lastEnd, s.records, symbol, latest, setup.scheduler.mode)
      case Err(_) => s.(phase := Looping(planned, latest, rest))
      case Ok(cut) =>
        var record := RecordOf(setup, cut, planned, now);
        var t := s.(lastEnd := s.lastEnd[symbol := latest], log := s.log + [record]);
        match Publish(s.stream, Started(record))
        case Err(_) => t.(phase := Stopped(Crashed))
        case Ok(stream) => t.(stream := stream, phase := InRun(planned, latest, rest, record))
  }

  /** Composing the snapshot, the engine call, and the end of the run. */
  function FinishRun<S>(setup: Setup<S>, s: State<S>): State<S>
    requires s.phase.InRun?
  {
    var InRun(planned, latest, todo, record) := s.phase;
    match RawEventsForCut(s.records, record.symbol, record.cutStart, record.cutEnd)
    case Err(_) => s.(phase := Stopped(Crashed))
    case Ok(raw) =>
      var call := CallEngine(setup, s.engine, raw, record);
      Ended(s.(engine := if call.Ok? then call.value.0 else s.engine), FinishEvents(record, Counts(raw), call),
            if call.Ok? && call.value.1.Halts? then Stopped(EngineHalted) else Looping(planned, latest, todo))
  }

  function Ended<S>(s: State<S>, events: seq<OrchestratorEvent>, phase: Phase): State<S> {
    match PublishAll(s.stream, events)
    case Err(_) => s.(phase := Stopped(Crashed))
    case Ok(stream) => s.(stream := stream, phase := phase)
  }

  /** One step of the scheduler thread. */
  function Scheduled<S>(setup: Setup<S>, s: State<S>, now: int): State<S>
    requires ValidScheduler(setup.scheduler)
  {
    match s.phase
    case Idle =>
      var planned := NextTick(setup.scheduler, s.lastTick, now);
      s.(lastTick := Some(planned), phase := Due(planned))
    case Due(planned) =>
      if s.records == [] then s.(phase := Idle) else s.(phase := Begun(planned, |s.records|))
    case Begun(planned, latest) =>
      if s.symbols == {} then s.(phase := Idle) else s.(phase := Looping(planned, latest, Sorted(s.symbols)))
    case Looping(_, _, todo) =>
      if todo == [] then s.(phase := Idle) else StartRun(setup, s, now)
    case InRun(_, _, _, _) => FinishRun(setup, s)
    case Stopped(_) => s
  }

  function Act<S>(setup: Setup<S>, s: State<S>, action: Action): State<S>
    requires ValidScheduler(setup.scheduler)
  {
    match action
    case Append(event, ingestTs) =>
      if |s.records| >= setup.maxRecords then s
      else s.(records := s.records + [BufferRecord(|s.records| + 1, ingestTs, event)])
    case Know(symbol) => s.(symbols := s.symbols + {symbol})
    case Proceed(now) => Scheduled(setup, s, now)
  }

  /** Any interleaving of arrivals and scheduler steps. */
  function Run<S>(setup: Setup<S>, engine: S, actions: seq<Action>): State<S>
    requires ValidScheduler(setup.scheduler)
  {
    if |actions| == 0 then Initial(engine)
    else Act(setup, Run(setup, engine, actions[..|actions| - 1]), actions[|actions| - 1])
  }

  // ----- A tick that nothing interrupts -----

  function PhaseRank(phase: Phase): nat {
    match phase
    case Idle => 0
    case Stopped(_) => 0
    case InRun(_, _, _, _) => 1
    case Looping(_, _, _) => 1
    case Begun(_, _) => 2
    case Due(_) => 3
  }

  function StepsLeft(phase: Phase): nat {
    match phase
    case Looping(_, _, todo) => 2 * |todo| + 1
    case InRun(_, _, todo, _) => 2 * |todo| + 2
    case _ => 0
  }

  /** The scheduler thread runs on its own until its tick is done; the clock is read once for each run. */
  function Drive<S>(setup: Setup<S>, s: State<S>, clock: nat -> int): State<S>
    requires ValidScheduler(setup.scheduler)
    decreases PhaseRank(s.phase), StepsLeft(s.phase)
  {
    if s.phase.Idle? || s.phase.Stopped? then s else Drive(setup, Scheduled(setup, s, clock(|s.log|)), clock)
  }
}
