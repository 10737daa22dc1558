/** The whole pipeline: what the live orchestrator publishes goes to the state gate at once, and what the gate
    returns goes to the analysis engine. */
module EndToEnd {
  import opened Ordering
  import opened Regimes
  import opened HysteresisRules
  import opened OrchestratorContracts
  import opened InputBuffer
  import opened Cuts
  import opened Scheduling
  import O = Orchestrator
  import opened LiveRuns
  import opened ReplayEquivalence
  import opened GateAssembly
  import opened GateProcessing
  import GateRuns
  import Registry
  import AnalysisRuns
  import A = AnalysisEngine
  import H = AnalysisHistory

  // ----- The gate behind the publisher -----

  /** The gate's configuration, and the records of its log that it starts from. */
  datatype GateSetup = GateSetup(config: GateConfig, records: seq<GateRecord>)

  /** Every append of the gate succeeds. */
  function InputsOf(events: seq<OrchestratorEvent>): seq<GateRuns.Input> {
    seq(|events|, i requires 0 <= i < |events| => GateRuns.Input(events[i], Faults(None, false)))
  }

  function Gate(events: seq<OrchestratorEvent>, gate: GateSetup): ProcessorState {
    GateRuns.StateAfter(Initial(gate.records), InputsOf(events), gate.config)
  }

  function GateEvents(events: seq<OrchestratorEvent>, gate: GateSetup): seq<GateEvent> {
    GateRuns.Emitted(Initial(gate.records), InputsOf(events), gate.config)
  }

  function GateResults(events: seq<OrchestratorEvent>, gate: GateSetup): seq<GateRuns.GateResult> {
    GateRuns.Results(Initial(gate.records), InputsOf(events), gate.config)
  }

  /** The gate has raised on none of the events. */
  ghost predicate AllAccepted(events: seq<OrchestratorEvent>, gate: GateSetup) {
    forall i :: 0 <= i < |GateResults(events, gate)| ==> GateResults(events, gate)[i].Ok?
  }

  lemma GateNext(events: seq<OrchestratorEvent>, event: OrchestratorEvent, gate: GateSetup)
    ensures var (next, result) := Consumed(Gate(events, gate), event, Faults(None, false), gate.config);
            && Gate(events + [event], gate) == next
            && GateEvents(events + [event], gate) == GateEvents(events, gate) + GateRuns.EventsOf(result)
            && (AllAccepted(events, gate) && result.Ok? ==> AllAccepted(events + [event], gate))
  {
    hide Consumed, Initial;
    var inputs := InputsOf(events + [event]);
    assert inputs[..|inputs| - 1] == InputsOf(events);
    assert GateResults(events + [event], gate)
        == GateResults(events, gate) + [Consumed(Gate(events, gate), event, Faults(None, false), gate.config).1];
  }

  /** The run ids of the events that end a run. */
  function TerminalIds(events: seq<OrchestratorEvent>): seq<string> {
    if |events| == 0 then []
    else
      var last := events[|events| - 1];
      TerminalIds(events[..|events| - 1])
      + (if last.eventType == EngineRunCompleted || last.eventType == EngineRunFailed then [last.runId] else [])
  }

  lemma {:induction false} TerminalIdsConcat(a: seq<OrchestratorEvent>, b: seq<OrchestratorEvent>)
    ensures TerminalIds(a + b) == TerminalIds(a) + TerminalIds(b)
  {
    if |b| == 0 {
      assert a + b == a;
    } else {
      assert (a + b)[..|a + b| - 1] == a + b[..|b| - 1];
      TerminalIdsConcat(a, b[..|b| - 1]);
    }
  }

  /** The run ids of the evaluations. */
  function EvaluatedIds(events: seq<GateEvent>): seq<string> {
    if |events| == 0 then []
    else EvaluatedIds(events[..|events| - 1])
         + (if events[|events| - 1].eventType == GateEvaluated then [events[|events| - 1].runId] else [])
  }

  lemma {:induction false} EvaluatedIdsConcat(a: seq<GateEvent>, b: seq<GateEvent>)
    ensures EvaluatedIds(a + b) == EvaluatedIds(a) + EvaluatedIds(b)
  {
    if |b| == 0 {
      assert a + b == a;
    } else {
      assert (a + b)[..|a + b| - 1] == a + b[..|b| - 1];
      EvaluatedIdsConcat(a, b[..|b| - 1]);
    }
  }

  // ----- What the gate owes to a run -----

  /** What the gate says of a run: open without a reason, or closed for some; and what it hands on of the run. */
  datatype Decision = Decision(
    runId: string,
    symbol: string,
    timestamp: int,
    mode: Option<EngineMode>,
    source: EventType,
    status: StateStatus,
    gate: GateStatus,
    reasons: seq<string>,
    output: Option<RegimeOutput>,
    hysteresis: Option<HysteresisState>)

  /** What an evaluation says. */
  function Said(e: GateEvent): Decision {
    Decision(e.runId, e.symbol, e.timestamp, e.mode, if e.inputType.Some? then e.inputType.value else EngineRunStarted,
             e.status, e.gate, e.reasons,
             if e.payload.EvaluatedPayload? then e.payload.output else None,
             if e.payload.EvaluatedPayload? then e.payload.hysteresis else None)
  }

  /** The decisions of the evaluations. */
  function DecisionsIn(events: seq<GateEvent>): seq<Decision> {
    if |events| == 0 then []
    else
      var e := events[|events| - 1];
      DecisionsIn(events[..|events| - 1]) + (if e.eventType == GateEvaluated then [Said(e)] else [])
  }

  /** The event of a run that decides over it: its failure, or what the engine mode publishes first. */
  predicate Decides(mode: EngineMode, event: OrchestratorEvent) {
    event.eventType == EngineRunFailed
    || event.eventType == (if mode == Truth then EngineRunCompleted else HysteresisStatePublished)
  }

  function Invalidations(event: OrchestratorEvent): seq<string> {
    if event.payload.CompletedPayload? then event.payload.output.invalidations else []
  }

  /** What stands against the run of a deciding event. */
  function Objections(event: OrchestratorEvent, config: GateConfig): seq<string> {
    match event.eventType
    case EngineRunStarted => []
    case EngineRunFailed => [RUN_FAILED]
    case HysteresisStatePublished =>
      if config.blockDuringTransition && event.payload.StatePayload? && event.payload.state.progress > 0
      then [TRANSITION_ACTIVE] else []
    case EngineRunCompleted =>
      Sorted(set i | i in Invalidations(event) && i in config.denylist :: DENYLISTED_PREFIX + i)
  }

  function DecisionOn(event: OrchestratorEvent, config: GateConfig): Decision {
    var reasons := Objections(event, config);
    Decision(
      event.runId, event.symbol, event.timestamp, event.mode, event.eventType,
      if event.eventType == EngineRunFailed then Degraded else if reasons == [] then Ready else Hold,
      if reasons == [] then Open else Closed,
      reasons,
      if event.payload.CompletedPayload? then Some(event.payload.output) else None,
      if event.payload.StatePayload? then Some(event.payload.state) else None)
  }

  /** The decisions that the deciding events ask for, in their order. */
  function Owed(mode: EngineMode, events: seq<OrchestratorEvent>, config: GateConfig): seq<Decision> {
    if |events| == 0 then []
    else
      var last := events[|events| - 1];
      Owed(mode, events[..|events| - 1], config) + (if Decides(mode, last) then [DecisionOn(last, config)] else [])
  }

  lemma {:induction false} DecisionsConcat(a: seq<GateEvent>, b: seq<GateEvent>)
    ensures DecisionsIn(a + b) == DecisionsIn(a) + DecisionsIn(b)
  {
    if |b| == 0 {
      assert a + b == a;
    } else {
      assert (a + b)[..|a + b| - 1] == a + b[..|b| - 1];
      DecisionsConcat(a, b[..|b| - 1]);
    }
  }

  lemma {:induction false} OwedConcat(mode: EngineMode, a: seq<OrchestratorEvent>, b: seq<OrchestratorEvent>,
                                      config: GateConfig)
    ensures Owed(mode, a + b, config) == Owed(mode, a, config) + Owed(mode, b, config)
  {
    hide Decides, DecisionOn;
    if |b| == 0 {
      assert a + b == a;
    } else {
      assert (a + b)[..|a + b| - 1] == a + b[..|b| - 1];
      OwedConcat(mode, a, b[..|b| - 1], config);
    }
  }

  /** The event that completes a run at the gate. */
  predicate Completes(event: OrchestratorEvent) {
    match event.eventType
    case EngineRunStarted => false
    case EngineRunCompleted => event.payload.CompletedPayload? && event.mode == Some(Truth)
    case EngineRunFailed => event.payload.FailedPayload?
    case HysteresisStatePublished => event.payload.StatePayload?
  }

  lemma CompletingIngest(s: AssemblerState, event: OrchestratorEvent)
    requires s.assemblies == map[] && Completes(event)
    requires event.runId !in s.processed && !Stale(s.latest, event.symbol, event.timestamp)
    ensures var (next, result) := Ingested(s, event);
            && result.Ok? && result.value.Some?
            && next == AssemblerState(map[], s.processed + {event.runId}, s.latest[event.symbol := event.timestamp])
            && result.value.value.runId == event.runId
            && var run := result.value.value;
            && run.symbol == event.symbol && run.timestamp == event.timestamp && run.mode == event.mode
            && run.inputType == event.eventType
            && run.output == (if event.eventType == EngineRunCompleted then Some(event.payload.output) else None)
            && run.hysteresis == (if event.eventType == HysteresisStatePublished then Some(event.payload.state)
                                  else None)
  {
    assert map[] - {event.runId} == s.assemblies;
  }

  /** The gate's rules, read off the deciding event. */
  lemma EvaluationOfCompleted(event: OrchestratorEvent, run: AssembledRun, config: GateConfig)
    requires Completes(event) && run.inputType == event.eventType && run.runId == event.runId
    requires run.symbol == event.symbol && run.timestamp == event.timestamp && run.mode == event.mode
    requires run.output == (if event.eventType == EngineRunCompleted then Some(event.payload.output) else None)
    requires run.hysteresis == (if event.eventType == HysteresisStatePublished then Some(event.payload.state) else None)
    ensures Said(EvaluatedEvent(run, Evaluate(run, config))) == DecisionOn(event, config)
  {
    var listed := set i | i in Invalidations(event) && i in config.denylist :: DENYLISTED_PREFIX + i;
    if event.eventType == EngineRunCompleted {
      assert listed == set i | i in Denied(run, config) :: DENYLISTED_PREFIX + i;
      if Denied(run, config) == {} {
        assert listed == {};
        SortedEmpty(listed);
      } else {
        var i :| i in Denied(run, config);
        assert DENYLISTED_PREFIX + i in Elements(Sorted(listed));
      }
    }
  }

  lemma SortedEmpty(xs: set<string>)
    requires xs == {}
    ensures Sorted(xs) == []
  {
    assert |Sorted(xs)| == 0;
  }

  /** A completing event of a new and later run is evaluated once, and leaves nothing pending. */
  lemma CompletingEvent(g: ProcessorState, event: OrchestratorEvent, config: GateConfig)
    requires config.publishMaxPending >= 2 && !g.halted && g.assembler.assemblies == map[] && Completes(event)
    requires event.runId !in g.assembler.processed && !Stale(g.assembler.latest, event.symbol, event.timestamp)
    ensures var (next, result) := Consumed(g, event, Faults(None, false), config);
            && result.Ok? && !next.halted
            && next.assembler == AssemblerState(map[], g.assembler.processed + {event.runId},
                                                g.assembler.latest[event.symbol := event.timestamp])
            && EvaluatedIds(result.value) == [event.runId]
            && (forall i :: 0 <= i < |result.value| ==> result.value[i].eventType != StateGateHalted)
            && DecisionsIn(result.value) == [DecisionOn(event, config)]
  {
    hide Evaluate, Ingested, Stale, MachineEvents, RecordsOf, EvaluatedIds, DecisionsIn, DecisionOn, Said;
    CompletingIngest(g.assembler, event);
    var run := Ingested(g.assembler, event).1.value.value;
    var e := Evaluate(run, config);
    var events := MachineEvents(g.machine, run, e, config);
    GateRuns.MachineEventsShape(g.machine, run, e, config);
    OneEvaluation(events);
    EvaluationOfCompleted(event, run, config);
  }

  lemma {:induction false} OneEvaluation(events: seq<GateEvent>)
    requires 1 <= |events| <= 2 && events[|events| - 1].eventType == GateEvaluated
    requires |events| == 2 ==> events[0].eventType != GateEvaluated
    ensures EvaluatedIds(events) == [events[|events| - 1].runId]
    ensures var e := events[|events| - 1]; DecisionsIn(events) == [Said(e)]
  {
    if |events| == 2 {
      var first := events[..1];
      assert EvaluatedIds(first) == EvaluatedIds(first[..0]);
      assert DecisionsIn(first) == DecisionsIn(first[..0]);
    }
  }

  /** An event of a run that is already evaluated, and a start event, pass without effect. */
  lemma PassingEvent(g: ProcessorState, event: OrchestratorEvent, config: GateConfig)
    requires !g.halted && (event.eventType == EngineRunStarted || event.runId in g.assembler.processed)
    ensures Consumed(g, event, Faults(None, false), config) == (g, Ok([]))
  {
  }

  // ----- The orchestrator and its gate, step by step -----

  /** The runs of the log that have come to an end: not one still going on, nor one that the engine has halted. */
  function Ended<S>(s: O.State<S>): seq<O.RunRecord> {
    if (s.phase.InRun? || s.phase == O.Stopped(O.EngineHalted)) && |s.log| > 0 then s.log[..|s.log| - 1] else s.log
  }

  function Ids(log: seq<O.RunRecord>): seq<string> {
    seq(|log|, i requires 0 <= i < |log| => log[i].runId)
  }

  /** Different runs have different ids. */
  ghost predicate InjectiveIds<S>(setup: O.Setup<S>) {
    forall symbol, t, end, mode, symbol', t', end', mode' ::
      setup.runId(symbol, t, end, mode) == setup.runId(symbol', t', end', mode') ==> symbol == symbol' && t == t'
  }

  /** The ids of the log are its own, and its times are covered by what has been published. */
  ghost predicate LogTimed<S>(setup: O.Setup<S>, s: O.State<S>) {
    && (forall i :: 0 <= i < |s.log| ==>
          var r := s.log[i];
          && r.runId == setup.runId(r.symbol, r.timestamp, r.cutEnd, r.mode)
          && r.symbol in s.stream.sequenced && r.timestamp <= s.stream.sequenced[r.symbol])
    && NoDuplicates(Ids(s.log))
    && (s.phase.InRun? || s.phase == O.Stopped(O.EngineHalted) ==> |s.log| > 0)
    && (s.phase.InRun? ==> s.phase.record == s.log[|s.log| - 1] && s.phase.record.mode == setup.mode)
  }

  lemma DifferentRuns<S>(setup: O.Setup<S>, q: O.RunRecord, r: O.RunRecord)
    requires InjectiveIds(setup) && (q.symbol != r.symbol || q.timestamp != r.timestamp)
    requires q.runId == setup.runId(q.symbol, q.timestamp, q.cutEnd, q.mode)
    requires r.runId == setup.runId(r.symbol, r.timestamp, r.cutEnd, r.mode)
    ensures q.runId != r.runId
  {
  }

  lemma StartRunLogTimed<S>(setup: O.Setup<S>, s: O.State<S>, now: int)
    requires InjectiveIds(setup) && Timed(setup, s) && LogTimed(setup, s) && s.phase.Looping? && |s.phase.todo| > 0
    ensures LogTimed(setup, O.StartRun(setup, s, now))
  {
    hide Timed, NextCut;
    var t := O.StartRun(setup, s, now);
    StartRunTimed(setup, s, now);
    TimedNeverCrashed(setup, t);
    StartedFields(setup, s, now);
    NextIsLater(setup, s);
    if t.phase.InRun? {
      var r := t.phase.record;
      forall i | 0 <= i < |s.log| ensures s.log[i].runId != r.runId {
        DifferentRuns(setup, s.log[i], r);
      }
      assert Ids(t.log) == Ids(s.log) + [r.runId];
    }
  }

  /** The next symbol of a tick has published nothing at the time of the tick yet. */
  lemma NextIsLater<S>(setup: O.Setup<S>, s: O.State<S>)
    requires Timed(setup, s) && s.phase.Looping? && |s.phase.todo| > 0
    ensures var symbol := s.phase.todo[0];
            symbol in s.stream.sequenced ==>
              s.stream.sequenced[symbol] < EngineTimestamp(setup.scheduler, s.phase.planned)
  {
  }

  lemma ActLogTimed<S>(setup: O.Setup<S>, s: O.State<S>, action: O.Action)
    requires ValidScheduler(setup.scheduler) && InjectiveIds(setup) && Timed(setup, s) && Recorded(setup, s)
             && LogTimed(setup, s)
    ensures LogTimed(setup, O.Act(setup, s, action))
  {
    hide Timed, InjectiveIds, NoDuplicates, O.StartRun, O.FinishRun, Sorted, Numbered, NextTick;
    match action
    case Proceed(now) =>
      if s.phase.Looping? && s.phase.todo != [] {
        StartRunLogTimed(setup, s, now);
      } else if s.phase.InRun? {
        FinishRunIs(setup, s);
      }
    case _ =>
  }

  /** The gate has evaluated exactly the ended runs, in their order, has nothing pending, and trails the publisher. */
  ghost predicate Coupled<S>(setup: O.Setup<S>, s: O.State<S>, gate: GateSetup) {
    var g := Gate(s.stream.events, gate);
    var out := GateEvents(s.stream.events, gate);
    && AllAccepted(s.stream.events, gate)
    && !g.halted && g.assembler.assemblies == map[]
    && EvaluatedIds(out) == Ids(Ended(s)) == TerminalIds(s.stream.events)
    && g.assembler.processed == RunIds(gate.records) + Elements(Ids(Ended(s)))
    && Trails(g.assembler.latest, s, gate.records)
    && (forall i :: 0 <= i < |out| ==> out[i].eventType != StateGateHalted)
    && DecisionsIn(out) == Owed(setup.mode, s.stream.events, gate.config)
  }

  /** The gate's latest timestamps have been published, or are those of the records that it started from. */
  ghost predicate Trails<S>(latest: map<string, int>, s: O.State<S>, records: seq<GateRecord>) {
    && (forall symbol :: symbol in latest ==>
          || (symbol in s.stream.sequenced && latest[symbol] <= s.stream.sequenced[symbol])
          || HasTime(records, latest[symbol]))
    && (s.phase.InRun? && s.phase.record.symbol in latest ==> latest[s.phase.record.symbol] < s.phase.record.timestamp)
  }

  ghost predicate HasTime(records: seq<GateRecord>, timestamp: int) {
    exists r :: r in records && r.timestamp == timestamp
  }

  // ----- A gate that starts from records -----

  ghost predicate OlderThan(records: seq<GateRecord>, timestamp: int) {
    forall r :: r in records ==> r.timestamp < timestamp
  }

  /** The run ids of the records stand for their own times. */
  ghost predicate Genuine<S>(setup: O.Setup<S>, records: seq<GateRecord>) {
    forall r, symbol, t, end, mode :: r in records && r.runId == setup.runId(symbol, t, end, mode) ==> r.timestamp == t
  }

  /** The records are older than the first tick: the one that the first step of the scheduler thread plans. */
  ghost predicate StartsAfter<S>(setup: O.Setup<S>, actions: seq<O.Action>, records: seq<GateRecord>)
    requires ValidScheduler(setup.scheduler)
  {
    forall n :: 0 <= n < |actions| && actions[n].Proceed? && (forall m :: 0 <= m < n ==> !actions[m].Proceed?) ==>
      OlderThan(records, EngineTimestamp(setup.scheduler, NextTick(setup.scheduler, None, actions[n].now)))
  }

  ghost predicate TicksAfter<S>(setup: O.Setup<S>, s: O.State<S>, records: seq<GateRecord>) {
    s.lastTick.Some? ==> OlderThan(records, EngineTimestamp(setup.scheduler, s.lastTick.value))
  }

  lemma StartsAfterPrefix<S>(setup: O.Setup<S>, actions: seq<O.Action>, records: seq<GateRecord>)
    requires ValidScheduler(setup.scheduler) && StartsAfter(setup, actions, records) && |actions| > 0
    ensures StartsAfter(setup, actions[..|actions| - 1], records)
  {
    assert forall m :: 0 <= m < |actions| - 1 ==> actions[..|actions| - 1][m] == actions[m];
  }

  /** All ticks come after the records. */
  lemma {:induction false} AllTicksAfter<S>(setup: O.Setup<S>, engine: S, actions: seq<O.Action>,
                                            records: seq<GateRecord>)
    requires ValidScheduler(setup.scheduler) && StartsAfter(setup, actions, records)
    ensures var s := O.Run(setup, engine, actions);
            && TicksAfter(setup, s, records)
            && (s.lastTick.None? ==> forall n :: 0 <= n < |actions| ==> !actions[n].Proceed?)
  {
    hide O.Act, Timed, Recorded, NextTick, StartsAfter;
    if |actions| > 0 {
      var n := |actions| - 1;
      var before := actions[..n];
      StartsAfterPrefix(setup, actions, records);
      AllTicksAfter(setup, engine, before, records);
      RunKeeps(setup, engine, before);
      var s := O.Run(setup, engine, before);
      TicksMove(setup, s, actions[n]);
      assert actions == before + [actions[n]];
      if s.lastTick.None? && actions[n].Proceed? {
        FirstTickAfter(setup, before, actions[n], records);
      }
    }
  }

  lemma FirstTickAfter<S>(setup: O.Setup<S>, before: seq<O.Action>, last: O.Action, records: seq<GateRecord>)
    requires ValidScheduler(setup.scheduler) && StartsAfter(setup, before + [last], records)
    requires last.Proceed? && forall n :: 0 <= n < |before| ==> !before[n].Proceed?
    ensures OlderThan(records, EngineTimestamp(setup.scheduler, NextTick(setup.scheduler, None, last.now)))
  {
    var all := before + [last];
    assert all[|before|] == last && forall m :: 0 <= m < |before| ==> all[m] == before[m];
  }

  /** A step of the scheduler thread plans the next tick or leaves the last one as it is. */
  lemma TicksMove<S>(setup: O.Setup<S>, s: O.State<S>, action: O.Action)
    requires ValidScheduler(setup.scheduler) && Timed(setup, s)
    ensures var t := O.Act(setup, s, action);
            && (s.lastTick.Some? ==> t.lastTick.Some? && t.lastTick.value >= s.lastTick.value)
            && (s.lastTick.None? ==>
                  t.lastTick == if action.Proceed? then Some(NextTick(setup.scheduler, None, action.now)) else None)
  {
    hide Sorted, NextCut, RawEventsForCut, O.PublishAll, O.FinishEvents, O.CallEngine;
  }

  /** The engine time of a tick that is being worked on. */
  lemma CurrentTick<S>(setup: O.Setup<S>, s: O.State<S>, records: seq<GateRecord>)
    requires Timed(setup, s) && TicksAfter(setup, s, records)
    ensures s.phase.Looping? ==> OlderThan(records, EngineTimestamp(setup.scheduler, s.phase.planned))
    ensures s.phase.InRun? ==> OlderThan(records, s.phase.record.timestamp)
  {
  }

  /** A run that starts at a tick after the records is new to the gate. */
  lemma NewToTheGate<S>(setup: O.Setup<S>, r: O.RunRecord, records: seq<GateRecord>)
    requires Genuine(setup, records) && OlderThan(records, r.timestamp)
    requires r.runId == setup.runId(r.symbol, r.timestamp, r.cutEnd, r.mode)
    ensures r.runId !in RunIds(records) && !HasTime(records, r.timestamp)
  {
  }

  /** A start event gets no answer from the gate and asks for none. */
  lemma StartIsPassed(mode: EngineMode, events: seq<OrchestratorEvent>, started: OrchestratorEvent, gate: GateSetup)
    requires started.eventType == EngineRunStarted
    requires AllAccepted(events, gate) && !Gate(events, gate).halted
    ensures var all := events + [started];
            && Gate(all, gate) == Gate(events, gate) && GateEvents(all, gate) == GateEvents(events, gate)
            && AllAccepted(all, gate)
            && TerminalIds(all) == TerminalIds(events)
            && Owed(mode, all, gate.config) == Owed(mode, events, gate.config)
  {
    hide Gate, GateEvents, AllAccepted;
    GateNext(events, started, gate);
    PassingEvent(Gate(events, gate), started, gate.config);
    assert GateEvents(events, gate) + [] == GateEvents(events, gate);
    assert (events + [started])[..|events|] == events;
  }

  lemma StartRunCoupled<S>(setup: O.Setup<S>, s: O.State<S>, now: int, gate: GateSetup)
    requires InjectiveIds(setup) && Timed(setup, s) && LogTimed(setup, s) && Coupled(setup, s, gate)
    requires TicksAfter(setup, s, gate.records)
    requires s.phase.Looping? && |s.phase.todo| > 0
    ensures Coupled(setup, O.StartRun(setup, s, now), gate)
  {
    hide Timed, NextCut, Gate, GateEvents, InjectiveIds, LogTimed, AllAccepted, EvaluatedIds, TerminalIds, DecisionsIn,
         Owed;
    var t := O.StartRun(setup, s, now);
    StartRunTimed(setup, s, now);
    TimedNeverCrashed(setup, t);
    StartedFields(setup, s, now);
    NextIsLater(setup, s);
    CurrentTick(setup, s, gate.records);
    if t.phase.InRun? {
      StartIsPassed(setup.mode, s.stream.events, O.Started(t.phase.record), gate);
      assert t.log[..|t.log| - 1] == s.log;
    }
  }

  /** The gate's answer to a completing event: one evaluation of its run. */
  ghost predicate OneAnswer(out: seq<GateEvent>, event: OrchestratorEvent, config: GateConfig) {
    && EvaluatedIds(out) == [event.runId]
    && (forall i :: 0 <= i < |out| ==> out[i].eventType != StateGateHalted)
    && DecisionsIn(out) == [DecisionOn(event, config)]
  }

  /** What the gate makes of the end of a run. */
  lemma GateFinishes(events: seq<OrchestratorEvent>, more: seq<OrchestratorEvent>, gate: GateSetup)
    requires gate.config.publishMaxPending >= 2 && 1 <= |more| <= 2 && Completes(more[0])
    requires |more| == 2 ==> more[1].runId == more[0].runId
    requires var g := Gate(events, gate);
             && !g.halted && g.assembler.assemblies == map[]
             && more[0].runId !in g.assembler.processed && !Stale(g.assembler.latest, more[0].symbol, more[0].timestamp)
    ensures var before, after := Gate(events, gate).assembler, Gate(events + more, gate);
            && (AllAccepted(events, gate) ==> AllAccepted(events + more, gate))
            && !after.halted
            && after.assembler == AssemblerState(map[], before.processed + {more[0].runId},
                                                 before.latest[more[0].symbol := more[0].timestamp])
    ensures exists out ::
              GateEvents(events + more, gate) == GateEvents(events, gate) + out && OneAnswer(out, more[0], gate.config)
  {
    hide Gate, GateEvents, AllAccepted, Consumed, EvaluatedIds, DecisionsIn, DecisionOn, Owed, Stale, Completes;
    CompletingEvent(Gate(events, gate), more[0], gate.config);
    GateNext(events, more[0], gate);
    var out := GateRuns.EventsOf(Consumed(Gate(events, gate), more[0], Faults(None, false), gate.config).1);
    if |more| == 1 {
      assert more == [more[0]];
    } else {
      assert events + more == events + [more[0]] + [more[1]];
      PassingEvent(Gate(events + [more[0]], gate), more[1], gate.config);
      GateNext(events + [more[0]], more[1], gate);
      assert GateEvents(events, gate) + out + [] == GateEvents(events, gate) + out;
    }
  }

  /** The end of a run, as the gate sees it. */
  lemma FinishShape<S(!new)>(setup: O.Setup<S>, engine: S, raw: seq<RawEvent>, r: O.RunRecord)
    requires RespectsMode(setup) && r.mode == setup.mode
    ensures var call := O.CallEngine(setup, engine, raw, r);
            var more := O.FinishEvents(r, O.Counts(raw), call);
            && (more == [] <==> call.Ok? && call.value.1.Halts?)
            && |more| <= 2
            && TerminalIds(more) == (if more == [] then [] else [r.runId])
            && (more != [] ==> Completes(more[0]) && Decides(setup.mode, more[0]))
            && (|more| == 2 ==> !Decides(setup.mode, more[1]))
            && forall i :: 0 <= i < |more| ==>
                 more[i].runId == r.runId && more[i].symbol == r.symbol && more[i].timestamp == r.timestamp
  {
    hide O.Counts, O.FinishEvents, TerminalIds, Completes, Decides;
    var composed := setup.compose(raw, r.symbol, r.timestamp);
    if composed.Ok? {
      var outcome := setup.engine(engine, composed.value).1;
      assert outcome.Returned? ==> (outcome.result.hysteresis.Some? <==> setup.mode == Hysteresis);
    }
    EndOfRun(setup.mode, r, O.Counts(raw), O.CallEngine(setup, engine, raw, r));
  }

  lemma EndOfRun<S>(mode: EngineMode, r: O.RunRecord, counts: map<string, int>, call: Result<(S, O.Outcome), string>)
    requires r.mode == mode
    requires call.Ok? && call.value.1.Returned? ==> (call.value.1.result.hysteresis.Some? <==> mode == Hysteresis)
    ensures var more := O.FinishEvents(r, counts, call);
            && (more == [] <==> call.Ok? && call.value.1.Halts?)
            && |more| <= 2
            && TerminalIds(more) == (if more == [] then [] else [r.runId])
            && (more != [] ==> Completes(more[0]) && Decides(mode, more[0]))
            && (|more| == 2 ==> !Decides(mode, more[1]))
            && forall i :: 0 <= i < |more| ==>
                 more[i].runId == r.runId && more[i].symbol == r.symbol && more[i].timestamp == r.timestamp
  {
    hide TerminalIds;
    var more := O.FinishEvents(r, counts, call);
    FewTerminalIds(more);
  }

  /** Of one or two events, the last one ends the run. */
  lemma FewTerminalIds(more: seq<OrchestratorEvent>)
    requires |more| <= 2 && (|more| == 2 ==> more[0].eventType == HysteresisStatePublished)
    ensures TerminalIds(more)
         == if |more| > 0 && more[|more| - 1].eventType in {EngineRunCompleted, EngineRunFailed}
            then [more[|more| - 1].runId] else []
  {
    if |more| == 1 { assert more[..0] == []; }
    if |more| == 2 {
      assert more[..1][..0] == [];
      assert TerminalIds(more[..1]) == [];
    }
  }

  lemma OwedOnce(mode: EngineMode, more: seq<OrchestratorEvent>, config: GateConfig)
    requires 1 <= |more| <= 2 && Decides(mode, more[0]) && (|more| == 2 ==> !Decides(mode, more[1]))
    ensures Owed(mode, more, config) == [DecisionOn(more[0], config)]
  {
    hide Decides, DecisionOn;
    assert more[..1][..0] == [] && Owed(mode, more[..1], config) == [DecisionOn(more[0], config)];
  }

  lemma FinishRunCoupled<S(!new)>(setup: O.Setup<S>, s: O.State<S>, gate: GateSetup)
    requires gate.config.publishMaxPending >= 2 && RespectsMode(setup)
    requires Timed(setup, s) && Recorded(setup, s) && LogTimed(setup, s) && Coupled(setup, s, gate) && s.phase.InRun?
    requires TicksAfter(setup, s, gate.records) && Genuine(setup, gate.records)
    ensures Coupled(setup, O.FinishRun(setup, s), gate)
  {
    hide Coupled, Timed, RespectsMode, O.FinishRun, O.CallEngine, O.FinishEvents, TerminalIds, Completes, Decides,
         TicksAfter, Genuine;
    InRunFacts(setup, s);
    RunIsNew(setup, s, gate.records);
    FinishRunIs(setup, s);
    var r := s.phase.record;
    var raw := RawEventsForCut(s.records, r.symbol, r.cutStart, r.cutEnd).value;
    var more := O.FinishEvents(r, O.Counts(raw), O.CallEngine(setup, s.engine, raw, r));
    FinishShape(setup, s.engine, raw, r);
    if more == [] {
      HaltedRunCoupled(setup, s, O.FinishRun(setup, s), gate);
    } else {
      FinishedRunCoupled(setup, s, O.FinishRun(setup, s), more, gate);
    }
  }

  /** A run that the engine halts publishes nothing more, and does not count as ended. */
  lemma HaltedRunCoupled<S>(setup: O.Setup<S>, s: O.State<S>, t: O.State<S>, gate: GateSetup)
    requires Coupled(setup, s, gate) && s.phase.InRun? && t.phase == O.Stopped(O.EngineHalted) && t.log == s.log
    requires t.stream == O.Stream(s.stream.sequenced, s.stream.events + [])
    ensures Coupled(setup, t, gate)
  {
    hide Gate, GateEvents, EvaluatedIds, TerminalIds, DecisionsIn, Owed, AllAccepted, HasTime;
    assert s.stream.events + [] == s.stream.events;
  }

  lemma TrailsOn<S>(latest: map<string, int>, s: O.State<S>, t: O.State<S>, records: seq<GateRecord>)
    requires Trails(latest, s, records) && s.phase.InRun? && t.phase.Looping?
    requires t.stream.sequenced == s.stream.sequenced
    requires var r := s.phase.record; r.symbol in s.stream.sequenced && s.stream.sequenced[r.symbol] == r.timestamp
    ensures var r := s.phase.record;
            && Trails(latest[r.symbol := r.timestamp], t, records)
            && !Stale(latest, r.symbol, r.timestamp)
  {
    hide HasTime;
  }

  /** The events of a finished run, as the gate takes them. */
  lemma FinishedRunCoupled<S>(setup: O.Setup<S>, s: O.State<S>, t: O.State<S>, more: seq<OrchestratorEvent>,
                              gate: GateSetup)
    requires gate.config.publishMaxPending >= 2 && Coupled(setup, s, gate) && s.phase.InRun? && t.phase.Looping?
    requires |s.log| > 0 && s.phase.record == s.log[|s.log| - 1] && t.log == s.log
    requires t.stream == O.Stream(s.stream.sequenced, s.stream.events + more)
    requires var r := s.phase.record;
             && r.symbol in s.stream.sequenced && s.stream.sequenced[r.symbol] == r.timestamp
             && r.runId !in Elements(Ids(Ended(s))) && r.runId !in RunIds(gate.records)
             && 1 <= |more| <= 2 && TerminalIds(more) == [r.runId]
             && Completes(more[0]) && Decides(setup.mode, more[0]) && (|more| == 2 ==> !Decides(setup.mode, more[1]))
             && forall i :: 0 <= i < |more| ==>
                  more[i].runId == r.runId && more[i].symbol == r.symbol && more[i].timestamp == r.timestamp
    ensures Coupled(setup, t, gate)
  {
    hide Gate, GateEvents, EvaluatedIds, TerminalIds, DecisionsIn, DecisionOn, Owed, Completes, Decides, AllAccepted,
         OneAnswer, Trails;
    var before := Gate(s.stream.events, gate).assembler.latest;
    TrailsOn(before, s, t, gate.records);
    TerminalIdsConcat(s.stream.events, more);
    OwedConcat(setup.mode, s.stream.events, more, gate.config);
    GateFinishes(s.stream.events, more, gate);
    OwedOnce(setup.mode, more, gate.config);
    var out :| GateEvents(t.stream.events, gate) == GateEvents(s.stream.events, gate) + out
               && OneAnswer(out, more[0], gate.config);
    EndedGrows(s, t);
    EvaluationsGrow(GateEvents(s.stream.events, gate), out, more[0], gate.config);
  }

  lemma EvaluationsGrow(before: seq<GateEvent>, out: seq<GateEvent>, event: OrchestratorEvent, config: GateConfig)
    requires OneAnswer(out, event, config)
    requires forall i :: 0 <= i < |before| ==> before[i].eventType != StateGateHalted
    ensures var all := before + out;
            && EvaluatedIds(all) == EvaluatedIds(before) + [event.runId]
            && (forall i :: 0 <= i < |all| ==> all[i].eventType != StateGateHalted)
            && DecisionsIn(all) == DecisionsIn(before) + [DecisionOn(event, config)]
  {
    hide EvaluatedIds, DecisionsIn, DecisionOn;
    EvaluatedIdsConcat(before, out);
    DecisionsConcat(before, out);
  }

  lemma InRunFacts<S>(setup: O.Setup<S>, s: O.State<S>)
    requires Timed(setup, s) && Recorded(setup, s) && LogTimed(setup, s) && s.phase.InRun?
    ensures var r := s.phase.record;
            && r.symbol in s.stream.sequenced && s.stream.sequenced[r.symbol] == r.timestamp && r.cutStart <= r.cutEnd
            && r.runId !in Elements(Ids(Ended(s)))
  {
    var n := |s.log| - 1;
    assert forall i :: 0 <= i < n ==> Ids(Ended(s))[i] == Ids(s.log)[i];
    assert Ids(s.log)[n] == s.phase.record.runId;
  }

  lemma RunIsNew<S>(setup: O.Setup<S>, s: O.State<S>, records: seq<GateRecord>)
    requires Timed(setup, s) && LogTimed(setup, s) && s.phase.InRun?
    requires TicksAfter(setup, s, records) && Genuine(setup, records)
    ensures s.phase.record.runId !in RunIds(records)
  {
    hide Timed;
    CurrentTick(setup, s, records);
    NewToTheGate(setup, s.log[|s.log| - 1], records);
  }

  lemma EndedGrows<S>(s: O.State<S>, t: O.State<S>)
    requires s.phase.InRun? && |s.log| > 0 && s.phase.record == s.log[|s.log| - 1]
    requires t.log == s.log && t.phase.Looping?
    ensures Ids(Ended(t)) == Ids(Ended(s)) + [s.phase.record.runId]
    ensures Elements(Ids(Ended(t))) == Elements(Ids(Ended(s))) + {s.phase.record.runId}
  {
    ElementsConcat(Ids(Ended(s)), [s.phase.record.runId]);
  }

  /** What neither publishes nor logs leaves the gate alone. */
  lemma QuietCoupled<S>(setup: O.Setup<S>, s: O.State<S>, t: O.State<S>, gate: GateSetup)
    requires Coupled(setup, s, gate)
    ensures t.stream == s.stream && t.log == s.log
            && (t.phase == s.phase
                || (!s.phase.InRun? && !t.phase.InRun? && !s.phase.Stopped? && !t.phase.Stopped?)) ==>
              Coupled(setup, t, gate)
  {
    hide Gate, GateEvents, EvaluatedIds, TerminalIds, AllAccepted, DecisionsIn, Owed, HasTime;
  }

  lemma ActCoupled<S(!new)>(setup: O.Setup<S>, s: O.State<S>, action: O.Action, gate: GateSetup)
    requires ValidScheduler(setup.scheduler) && gate.config.publishMaxPending >= 2 && RespectsMode(setup)
             && InjectiveIds(setup)
    requires Timed(setup, s) && Recorded(setup, s) && LogTimed(setup, s) && Coupled(setup, s, gate)
    requires TicksAfter(setup, s, gate.records) && Genuine(setup, gate.records)
    ensures Coupled(setup, O.Act(setup, s, action), gate)
  {
    hide Coupled, TicksAfter, Genuine, Timed, Recorded, LogTimed, RespectsMode, InjectiveIds, O.StartRun, O.FinishRun,
         Sorted, NextTick;
    QuietCoupled(setup, s, O.Act(setup, s, action), gate);
    match action
    case Proceed(now) =>
      if s.phase.Looping? && s.phase.todo != [] {
        StartRunCoupled(setup, s, now, gate);
      } else if s.phase.InRun? {
        FinishRunCoupled(setup, s, gate);
      }
    case _ =>
  }

  lemma {:induction false} RunCoupled<S(!new)>(setup: O.Setup<S>, engine: S, actions: seq<O.Action>, gate: GateSetup)
    requires ValidScheduler(setup.scheduler) && gate.config.publishMaxPending >= 2 && RespectsMode(setup)
             && InjectiveIds(setup)
    requires StartsAfter(setup, actions, gate.records) && Genuine(setup, gate.records)
    ensures LogTimed(setup, O.Run(setup, engine, actions)) && Coupled(setup, O.Run(setup, engine, actions), gate)
  {
    hide LogTimed, Coupled, RespectsMode, InjectiveIds, O.Act, Genuine, TicksAfter;
    if |actions| == 0 {
      InitialCoupled(setup, engine, gate);
    } else {
      var before := actions[..|actions| - 1];
      var s := O.Run(setup, engine, before);
      StartsAfterPrefix(setup, actions, gate.records);
      RunCoupled(setup, engine, before, gate);
      AllTicksAfter(setup, engine, before, gate.records);
      RunKeeps(setup, engine, before);
      ActLogTimed(setup, s, actions[|actions| - 1]);
      ActCoupled(setup, s, actions[|actions| - 1], gate);
    }
  }

  lemma InitialCoupled<S>(setup: O.Setup<S>, engine: S, gate: GateSetup)
    ensures LogTimed(setup, O.Initial(engine)) && Coupled(setup, O.Initial(engine), gate)
  {
    forall symbol | symbol in LatestTimestamps(FoldSnapshots(gate.records))
      ensures HasTime(gate.records, LatestTimestamps(FoldSnapshots(gate.records))[symbol])
    {
      LatestIsRecorded(gate.records, symbol);
    }
  }

  lemma {:induction false} LatestIsRecorded(records: seq<GateRecord>, symbol: string)
    requires symbol in FoldSnapshots(records)
    ensures var last := FoldSnapshots(records)[symbol].lastTimestamp; last.Some? && HasTime(records, last.value)
  {
    var last := records[|records| - 1];
    if last.symbol == symbol {
      assert last in records;
    } else {
      LatestIsRecorded(records[..|records| - 1], symbol);
      var r :| r in records[..|records| - 1]
               && r.timestamp == FoldSnapshots(records[..|records| - 1])[symbol].lastTimestamp.value;
      assert r in records;
    }
  }

  // ----- The analysis engine behind the gate -----

  /** The run ids of the gate events that the analysis engine answers. */
  function AnsweredIds(analysis: A.Setup, s: A.EngineState, events: seq<GateEvent>): seq<string>
    requires A.Runnable(analysis)
  {
    if |events| == 0 then []
    else
      var before, last := events[..|events| - 1], events[|events| - 1];
      AnsweredIds(analysis, s, before)
      + (if A.Consumed(analysis, H.After(analysis, s, before), last).1 != [] then [last.runId] else [])
  }

  lemma {:induction false} AnswersFollow(analysis: A.Setup, states: seq<A.ModuleStateRecord>, events: seq<GateEvent>)
    requires A.Runnable(analysis) && Registry.WellKeyed(analysis.modules)
    requires NoDuplicates(EvaluatedIds(events))
    requires forall i :: 0 <= i < |events| ==> events[i].eventType != StateGateHalted
    ensures var s := A.EngineState({}, states, {});
            && AnsweredIds(analysis, s, events) == EvaluatedIds(events)
            && H.After(analysis, s, events).processed == Elements(EvaluatedIds(events))
            && H.After(analysis, s, events).halted == {}
  {
    hide A.Executed, A.Slots, A.Runnable, NoDuplicates, AnalysisRuns.Blocks;
    var s := A.EngineState({}, states, {});
    if |events| > 0 {
      var before, last := events[..|events| - 1], events[|events| - 1];
      if last.eventType == GateEvaluated {
        LastIsNew(EvaluatedIds(before), last.runId);
        AnswersFollow(analysis, states, before);
        ElementsConcat(EvaluatedIds(before), [last.runId]);
        H.AnswerShape(analysis, H.After(analysis, s, before), last);
      } else {
        assert EvaluatedIds(events) == EvaluatedIds(before);
        AnswersFollow(analysis, states, before);
      }
    }
  }

  lemma LastIsNew(ids: seq<string>, id: string)
    requires NoDuplicates(ids + [id])
    ensures NoDuplicates(ids) && id !in ids
  {
    var all := ids + [id];
    assert forall i :: 0 <= i < |ids| ==> all[i] == ids[i];
    assert all[|ids|] == id;
  }

  /** Exactly once, end to end, for every interleaving of arrivals and scheduler steps, and for a gate that starts from
      any records that are older than the first tick. The gate raises on nothing, never halts and drops no run as stale:
      it evaluates exactly the runs that have a terminal event, once each and in the order of the log. The
      analysis engine answers exactly these evaluations, once each. */
  lemma ExactlyOnce<S(!new)>(setup: O.Setup<S>, engine: S, actions: seq<O.Action>, gate: GateSetup,
                             analysis: A.Setup, states: seq<A.ModuleStateRecord>)
    requires ValidScheduler(setup.scheduler) && gate.config.publishMaxPending >= 2 && RespectsMode(setup)
             && InjectiveIds(setup)
    requires StartsAfter(setup, actions, gate.records) && Genuine(setup, gate.records)
    requires A.Runnable(analysis) && Registry.WellKeyed(analysis.modules)
    ensures var s := O.Run(setup, engine, actions);
            var runs := TerminalIds(s.stream.events);
            var evaluations := GateEvents(s.stream.events, gate);
            && NoDuplicates(Ids(s.log)) && runs == Ids(Ended(s))
            && AllAccepted(s.stream.events, gate) && !Gate(s.stream.events, gate).halted
            && EvaluatedIds(evaluations) == runs
            && AnsweredIds(analysis, A.EngineState({}, states, {}), evaluations) == runs
  {
    hide StartsAfter, Genuine, O.Run, Gate, GateEvents, AllAccepted, EvaluatedIds, TerminalIds, AnsweredIds,
         RespectsMode, InjectiveIds, A.Runnable, H.After;
    RunCoupled(setup, engine, actions, gate);
    var s := O.Run(setup, engine, actions);
    EndedIsPrefix(setup, s);
    AnswersFollow(analysis, states, GateEvents(s.stream.events, gate));
  }

  lemma EndedIsPrefix<S>(setup: O.Setup<S>, s: O.State<S>)
    requires LogTimed(setup, s)
    ensures NoDuplicates(Ids(Ended(s)))
  {
    assert forall i :: 0 <= i < |Ids(Ended(s))| ==> Ids(Ended(s))[i] == Ids(s.log)[i];
  }

  /** For every run the gate's decisions are, one by one and in order, those that the deciding events ask for. */
  lemma DecisionsAreOwed<S(!new)>(setup: O.Setup<S>, engine: S, actions: seq<O.Action>, gate: GateSetup)
    requires ValidScheduler(setup.scheduler) && gate.config.publishMaxPending >= 2 && RespectsMode(setup)
             && InjectiveIds(setup)
    requires StartsAfter(setup, actions, gate.records) && Genuine(setup, gate.records)
    ensures var s := O.Run(setup, engine, actions);
            && DecisionsIn(GateEvents(s.stream.events, gate)) == Owed(setup.mode, s.stream.events, gate.config)
            && NoDuplicates(EvaluatedIds(GateEvents(s.stream.events, gate)))
  {
    hide StartsAfter, Genuine, O.Run, Gate, GateEvents, AllAccepted, EvaluatedIds, TerminalIds, RespectsMode,
         InjectiveIds, DecisionsIn, Owed;
    RunCoupled(setup, engine, actions, gate);
    EndedIsPrefix(setup, O.Run(setup, engine, actions));
  }

  function DecidedIds(decisions: seq<Decision>): seq<string> {
    seq(|decisions|, i requires 0 <= i < |decisions| => decisions[i].runId)
  }

  lemma {:induction false} DecidedAreEvaluated(events: seq<GateEvent>)
    ensures DecidedIds(DecisionsIn(events)) == EvaluatedIds(events)
  {
    if |events| > 0 {
      DecidedAreEvaluated(events[..|events| - 1]);
    }
  }

  lemma {:induction false} DecisionIsIn(events: seq<GateEvent>, e: GateEvent)
    requires e in events && e.eventType == GateEvaluated
    ensures Said(e) in DecisionsIn(events)
  {
    var last := events[|events| - 1];
    if e != last {
      DecisionIsIn(events[..|events| - 1], e);
    }
  }

  lemma {:induction false} OwedIsIn(mode: EngineMode, events: seq<OrchestratorEvent>, p: OrchestratorEvent,
                                    config: GateConfig)
    requires p in events && Decides(mode, p)
    ensures DecisionOn(p, config) in Owed(mode, events, config)
  {
    hide Decides, DecisionOn;
    if p != events[|events| - 1] {
      OwedIsIn(mode, events[..|events| - 1], p, config);
    }
  }

  lemma {:induction false} OwedStems(mode: EngineMode, events: seq<OrchestratorEvent>, d: Decision, config: GateConfig)
    requires d in Owed(mode, events, config)
    ensures exists p :: p in events && Decides(mode, p) && d == DecisionOn(p, config)
  {
    hide Decides, DecisionOn;
    var before, last := events[..|events| - 1], events[|events| - 1];
    if d in Owed(mode, before, config) {
      OwedStems(mode, before, d, config);
    } else {
      assert last in events && Decides(mode, last) && d == DecisionOn(last, config);
    }
  }

  lemma SameDecision(decisions: seq<Decision>, d: Decision, d': Decision)
    requires NoDuplicates(DecidedIds(decisions)) && d in decisions && d' in decisions && d.runId == d'.runId
    ensures d == d'
  {
    var i :| 0 <= i < |decisions| && decisions[i] == d;
    var j :| 0 <= j < |decisions| && decisions[j] == d';
    assert DecidedIds(decisions)[i] == DecidedIds(decisions)[j];
  }

  /** A reason that names a denylisted invalidation. */
  ghost predicate NamesDenied(reasons: seq<string>) {
    exists i: string :: DENYLISTED_PREFIX + i in reasons
  }

  lemma NothingNamed(reasons: seq<string>)
    requires reasons == []
    ensures !NamesDenied(reasons)
  {
  }

  lemma ObjectionsName(event: OrchestratorEvent, config: GateConfig)
    ensures NamesDenied(Objections(event, config)) <==>
              event.eventType == EngineRunCompleted && exists i :: i in Invalidations(event) && i in config.denylist
    ensures event.eventType == EngineRunCompleted && Objections(event, config) != [] ==>
              NamesDenied(Objections(event, config))
  {
    var reasons := Objections(event, config);
    if event.eventType == EngineRunCompleted {
      var listed := set i | i in Invalidations(event) && i in config.denylist :: DENYLISTED_PREFIX + i;
      forall i | i in Invalidations(event) && i in config.denylist ensures DENYLISTED_PREFIX + i in reasons {
        assert DENYLISTED_PREFIX + i in Elements(Sorted(listed));
      }
      forall r | r in reasons
        ensures exists i :: i in Invalidations(event) && i in config.denylist && r == DENYLISTED_PREFIX + i
      {
        assert r in Elements(Sorted(listed));
      }
      if reasons != [] { assert reasons[0] in reasons; }
    } else {
      assert RUN_FAILED[0] == 'r' && TRANSITION_ACTIVE[0] == 't';
      forall i: string ensures DENYLISTED_PREFIX + i !in reasons {
        assert (DENYLISTED_PREFIX + i)[0] == 'd';
      }
    }
  }

  /** What an evaluation hands to the code of the modules is what was published for its run: the symbol, time and mode,
      and the output, or in hysteresis mode the state, as they are. */
  lemma CodeSeesThePublished<S(!new)>(setup: O.Setup<S>, engine: S, actions: seq<O.Action>, gate: GateSetup,
                                      e: GateEvent)
    requires ValidScheduler(setup.scheduler) && gate.config.publishMaxPending >= 2 && RespectsMode(setup)
             && InjectiveIds(setup)
    requires StartsAfter(setup, actions, gate.records) && Genuine(setup, gate.records)
    requires e in GateEvents(O.Run(setup, engine, actions).stream.events, gate) && e.eventType == GateEvaluated
    ensures var events, context := O.Run(setup, engine, actions).stream.events, A.ContextOf(e);
            exists p :: && p in events && p.runId == context.runId && Decides(setup.mode, p)
                        && context.symbol == p.symbol && context.timestamp == p.timestamp && context.mode == p.mode
                        && context.gate == e.gate && context.reasons == e.reasons
                        && context.output == (if p.payload.CompletedPayload? then Some(p.payload.output) else None)
                        && context.hysteresis == (if p.payload.StatePayload? then Some(p.payload.state) else None)
  {
    hide StartsAfter, Genuine, O.Run, GateEvents, EvaluatedIds, RespectsMode, InjectiveIds, DecisionsIn, Owed,
         Objections;
    var events := O.Run(setup, engine, actions).stream.events;
    DecisionsAreOwed(setup, engine, actions, gate);
    DecisionIsIn(GateEvents(events, gate), e);
    OwedStems(setup.mode, events, Said(e), gate.config);
    var p :| p in events && Decides(setup.mode, p) && Said(e) == DecisionOn(p, gate.config);
    assert A.ContextOf(e).output == Said(e).output;
  }

  /** In hysteresis mode the gate decides on the hysteresis state, which is published first, and so closes only for a
      failed run or a transition. */
  lemma DenylistNeverApplies<S(!new)>(setup: O.Setup<S>, engine: S, actions: seq<O.Action>, gate: GateSetup,
                                      e: GateEvent)
    requires ValidScheduler(setup.scheduler) && gate.config.publishMaxPending >= 2 && RespectsMode(setup)
             && InjectiveIds(setup)
    requires StartsAfter(setup, actions, gate.records) && Genuine(setup, gate.records)
    requires setup.mode == Hysteresis && e in GateEvents(O.Run(setup, engine, actions).stream.events, gate)
    ensures e.eventType == GateEvaluated && e.gate == Closed ==>
              e.reasons == [RUN_FAILED] || e.reasons == [TRANSITION_ACTIVE]
  {
    hide StartsAfter, Genuine, O.Run, GateEvents, EvaluatedIds, RespectsMode, InjectiveIds, DecisionsIn, Owed;
    var events := O.Run(setup, engine, actions).stream.events;
    DecisionsAreOwed(setup, engine, actions, gate);
    if e.eventType == GateEvaluated {
      DecisionIsIn(GateEvents(events, gate), e);
      OwedStems(setup.mode, events, Said(e), gate.config);
    }
  }

  /** Exactly when the denylist is applied. The evaluation of a completed run names denylisted invalidations if and only
      if the mode is truth and the output carries one; in truth mode it closes for no other reason. In hysteresis
      mode the gate decides on the hysteresis state, which is published first. */
  lemma DenylistAppliesExactly<S(!new)>(setup: O.Setup<S>, engine: S, actions: seq<O.Action>, gate: GateSetup,
                                        p: OrchestratorEvent, e: GateEvent)
    requires ValidScheduler(setup.scheduler) && gate.config.publishMaxPending >= 2 && RespectsMode(setup)
             && InjectiveIds(setup)
    requires StartsAfter(setup, actions, gate.records) && Genuine(setup, gate.records)
    requires var events := O.Run(setup, engine, actions).stream.events;
             p in events && p.eventType == EngineRunCompleted && e in GateEvents(events, gate)
    requires e.eventType == GateEvaluated && e.runId == p.runId
    ensures NamesDenied(e.reasons) <==>
              setup.mode == Truth && exists i :: i in Invalidations(p) && i in gate.config.denylist
    ensures setup.mode == Truth ==>
              (e.gate == Closed <==> exists i :: i in Invalidations(p) && i in gate.config.denylist)
  {
    hide StartsAfter, Genuine, O.Run, GateEvents, EvaluatedIds, RespectsMode, InjectiveIds, DecisionsIn, Owed,
         Objections, NamesDenied, NoDuplicates;
    var events := O.Run(setup, engine, actions).stream.events;
    DecisionsAreOwed(setup, engine, actions, gate);
    DecidedAreEvaluated(GateEvents(events, gate));
    var decisions, d := DecisionsIn(GateEvents(events, gate)), Said(e);
    DecisionIsIn(GateEvents(events, gate), e);
    if setup.mode == Truth {
      OwedIsIn(setup.mode, events, p, gate.config);
      SameDecision(decisions, d, DecisionOn(p, gate.config));
      ObjectionsName(p, gate.config);
      NothingNamed([]);
    } else {
      OwedStems(setup.mode, events, d, gate.config);
      var q :| q in events && Decides(setup.mode, q) && d == DecisionOn(q, gate.config);
      ObjectionsName(q, gate.config);
    }
  }
}
