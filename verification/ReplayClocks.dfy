/** Replay under another wall clock than that of the live run. */
module ReplayClocks {
  import opened Ordering
  import opened OrchestratorContracts
  import opened HysteresisPersistence
  import opened InputBuffer
  import opened Scheduling
  import opened Orchestrator
  import opened LiveRuns
  import opened Replay
  import opened ReplayEquivalence
  import opened RunnerReplay
  import C = WallClock

  // ----- Events of two clocks -----

  function ForgetInEvent(event: OrchestratorEvent): OrchestratorEvent {
    if event.payload.StatePayload? then event.(payload := StatePayload(C.ForgetCommitTime(event.payload.state)))
    else event
  }

  function ForgetInEvents(events: seq<OrchestratorEvent>): seq<OrchestratorEvent> {
    seq(|events|, i requires 0 <= i < |events| => ForgetInEvent(events[i]))
  }

  /** The event publishes a state that commits. */
  predicate PublishesCommit(event: OrchestratorEvent) {
    event.payload.StatePayload? && C.CommitsIn(event.payload.state)
  }

  /** How many hysteresis states have been published: as many calls has the engine served. */
  function StatesIn(events: seq<OrchestratorEvent>): nat {
    if |events| == 0 then 0
    else StatesIn(events[..|events| - 1]) + (if events[|events| - 1].payload.StatePayload? then 1 else 0)
  }

  /** The clocks agree at the call behind every published commit; the first call has the number `from`. */
  ghost predicate ClocksAgree(events: seq<OrchestratorEvent>, from: nat, world: World, world': World) {
    |events| == 0 ||
    var before, last := events[..|events| - 1], events[|events| - 1];
    ClocksAgree(before, from, world, world') && AgreeBehind(last, from + StatesIn(before), world, world')
  }

  predicate AgreeBehind(event: OrchestratorEvent, n: nat, world: World, world': World) {
    PublishesCommit(event) ==> world.clock(n) == world'.clock(n)
  }

  /** The events differ in commit times only, and only where the clocks do. */
  ghost predicate EventsAlike(x: seq<OrchestratorEvent>, y: seq<OrchestratorEvent>, from: nat,
                              world: World, world': World)
  {
    && ForgetInEvents(x) == ForgetInEvents(y)
    && (x == y <==> ClocksAgree(x, from, world, world'))
  }

  lemma StatesInSnoc(events: seq<OrchestratorEvent>, e: OrchestratorEvent)
    ensures StatesIn(events + [e]) == StatesIn(events) + (if e.payload.StatePayload? then 1 else 0)
    ensures ForgetInEvents(events + [e]) == ForgetInEvents(events) + [ForgetInEvent(e)]
  {
    assert (events + [e])[..|events|] == events;
  }

  lemma ClocksAgreeSnoc(events: seq<OrchestratorEvent>, e: OrchestratorEvent, from: nat, world: World, world': World)
    ensures var n := from + StatesIn(events);
            ClocksAgree(events + [e], from, world, world') <==>
              ClocksAgree(events, from, world, world') && AgreeBehind(e, n, world, world')
  {
    hide StatesIn, AgreeBehind;
    assert (events + [e])[..|events|] == events;
  }

  /** One more event on both sides, which differ exactly if this one publishes a commit at which the clocks differ. */
  lemma AlikeSnoc(x: seq<OrchestratorEvent>, y: seq<OrchestratorEvent>, e: OrchestratorEvent, e': OrchestratorEvent,
                  from: nat, world: World, world': World)
    requires EventsAlike(x, y, from, world, world') && ForgetInEvent(e) == ForgetInEvent(e')
    requires var n := from + StatesIn(x);
             x == y ==> (e == e' <==> AgreeBehind(e, n, world, world'))
    ensures EventsAlike(x + [e], y + [e'], from, world, world')
    ensures StatesIn(x + [e]) == StatesIn(x) + (if e.payload.StatePayload? then 1 else 0)
  {
    hide ClocksAgree, AgreeBehind, StatesIn, ForgetInEvent;
    ClocksAgreeSnoc(x, e, from, world, world');
    StatesInSnoc(x, e);
    StatesInSnoc(y, e');
    assert |x| == |ForgetInEvents(x)| == |ForgetInEvents(y)| == |y|;
    assert (x + [e])[..|x|] == x && (y + [e'])[..|x|] == y;
    assert (x + [e])[|x|] == e && (y + [e'])[|x|] == e';
  }

  // ----- One engine call -----

  /** Another setup of the same parts, whose runner reads another clock. */
  ghost predicate OtherClock(setup: Setup<Runner>, other: Setup<Runner>, world: World, world': World) {
    && UsesRunner(setup, world) && UsesRunner(other, world')
    && other.mode == setup.mode && other.compose == setup.compose
    && world'.config == world.config && forall n :: world'.appendSucceeds(n) == world.appendSucceeds(n)
  }

  /** The runners differ in commit times only. */
  ghost predicate RunnersAlike(a: Runner, b: Runner) {
    a.calls == b.calls && C.ForgetCommitTimes(a.state.states) == C.ForgetCommitTimes(b.state.states)
  }

  function ForgetInOutcome(outcome: Outcome): Outcome {
    match outcome
    case Returned(EngineRunResult(output, Some(state))) =>
      Returned(EngineRunResult(output, Some(C.ForgetCommitTime(state))))
    case _ => outcome
  }

  predicate ReturnsCommit(outcome: Outcome) {
    outcome.Returned? && outcome.result.hysteresis.Some? && C.CommitsIn(outcome.result.hysteresis.value)
  }

  lemma CallUnderClocks(mode: EngineMode, world: World, world': World, a: Runner, b: Runner, snapshot: Snapshot)
    requires RunnersAlike(a, b)
    requires world'.config == world.config && world'.appendSucceeds(a.calls) == world.appendSucceeds(a.calls)
    ensures var (x, p) := RunnerCall(mode, world, a, snapshot);
            var (y, q) := RunnerCall(mode, world', b, snapshot);
            && RunnersAlike(x, y) && x.calls == a.calls + 1
            && ForgetInOutcome(p) == ForgetInOutcome(q)
            && (a == b ==> (p == q <==> (ReturnsCommit(p) ==> world.clock(a.calls) == world'.clock(a.calls))))
            && (a == b && p == q ==> x == y)
            && (p.Returned? && p.result.hysteresis.Some? ==> mode == Hysteresis)
  {
    if mode == Hysteresis {
      hide RunStep, C.ForgetCommitTimes, C.ForgetCommitTime, C.CommitsIn;
      var n := a.calls;
      var callA := Call(snapshot, world.clock(n), world.appendSucceeds(n));
      var callB := Call(snapshot, world'.clock(n), world'.appendSucceeds(n));
      C.StepIgnoresClock(a.state, b.state, callA, callB, world.config);
      C.StepUnderClocks(a.state, callA, callB, world.config);
    }
  }

  // ----- The replay of a log -----

  /** Two replays that differ in commit times only, and only where the clocks do. */
  ghost predicate ReplaysAlike(mode: EngineMode, a: ReplayState<Runner>, b: ReplayState<Runner>, from: nat,
                               world: World, world': World)
  {
    && a.stream.sequenced == b.stream.sequenced
    && EventsAlike(a.stream.events, b.stream.events, from, world, world')
    && RunnersAlike(a.engine, b.engine)
    && (a.stream == b.stream ==> a.engine == b.engine)
    && (mode == Hysteresis ==> a.engine.calls == from + StatesIn(a.stream.events))
  }

  /** The events of a finished run join both sides. */
  lemma FinishAlike(mode: EngineMode, a: ReplayState<Runner>, b: ReplayState<Runner>, from: nat,
                    world: World, world': World, r: RunRecord, counts: map<string, int>, snapshot: Snapshot)
    requires ReplaysAlike(mode, a, b, from, world, world') && r.mode == mode
    requires world'.config == world.config && forall n :: world'.appendSucceeds(n) == world.appendSucceeds(n)
    ensures var call := RunnerCall(mode, world, a.engine, snapshot);
            var call' := RunnerCall(mode, world', b.engine, snapshot);
            && (call.1.Returned? <==> call'.1.Returned?)
            && (call.1.Returned? && (call.1.result.hysteresis.Some? <==> mode == Hysteresis) ==>
                  ReplaysAlike(
                    mode,
                    ReplayState(Stream(a.stream.sequenced, a.stream.events + FinishEvents(r, counts, Ok(call))),
                                call.0),
                    ReplayState(Stream(b.stream.sequenced, b.stream.events + FinishEvents(r, counts, Ok(call'))),
                                call'.0),
                    from, world, world'))
  {
    hide RunnerCall, ClocksAgree, C.CommitsIn, C.ForgetCommitTime, C.ForgetCommitTimes;
    CallUnderClocks(mode, world, world', a.engine, b.engine, snapshot);
    var (x, p) := RunnerCall(mode, world, a.engine, snapshot);
    var (y, q) := RunnerCall(mode, world', b.engine, snapshot);
    if p.Returned? && (p.result.hysteresis.Some? <==> mode == Hysteresis) {
      var done, done' := Completed(r, p.result.output, counts), Completed(r, q.result.output, counts);
      var events, events' := a.stream.events, b.stream.events;
      if mode == Hysteresis {
        var state := StatePublished(r, p.result.hysteresis.value, counts);
        var state' := StatePublished(r, q.result.hysteresis.value, counts);
        ForgettingKeepsCommits(p, q);
        assert events == events' ==> a.engine == b.engine;
        AlikeSnoc(events, events', state, state', from, world, world');
        AlikeSnoc(events + [state], events' + [state'], done, done', from, world, world');
        assert events + [state] + [done] == events + FinishEvents(r, counts, Ok((x, p)));
        assert events' + [state'] + [done'] == events' + FinishEvents(r, counts, Ok((y, q)));
      } else {
        assert p == q;
        AlikeSnoc(events, events', done, done', from, world, world');
        assert FinishEvents(r, counts, Ok((x, p))) == [done] == FinishEvents(r, counts, Ok((y, q)));
        assert |events| == |ForgetInEvents(events)| == |ForgetInEvents(events')| == |events'|;
        assert (events + [done])[..|events|] == events && (events' + [done])[..|events|] == events';
      }
    }
  }

  lemma ForgettingKeepsCommits(p: Outcome, q: Outcome)
    requires ForgetInOutcome(p) == ForgetInOutcome(q) && p.Returned? && p.result.hysteresis.Some?
    ensures q.Returned? && q.result.hysteresis.Some? && q.result.output == p.result.output
    ensures C.ForgetCommitTime(p.result.hysteresis.value) == C.ForgetCommitTime(q.result.hysteresis.value)
    ensures p == q <==> p.result.hysteresis.value == q.result.hysteresis.value
  {
  }

  /** What fails before the engine is called fails alike, and reads no clock. */
  lemma PlainAlike(mode: EngineMode, a: ReplayState<Runner>, b: ReplayState<Runner>, from: nat,
                   world: World, world': World, event: OrchestratorEvent, sequenced: map<string, int>)
    requires ReplaysAlike(mode, a, b, from, world, world') && !event.payload.StatePayload?
    ensures ReplaysAlike(mode, a.(stream := Stream(sequenced, a.stream.events + [event])),
                         b.(stream := Stream(sequenced, b.stream.events + [event])), from, world, world')
  {
    hide ClocksAgree;
    var x, y := a.stream.events, b.stream.events;
    AlikeSnoc(x, y, event, event, from, world, world');
    assert |x| == |ForgetInEvents(x)| == |ForgetInEvents(y)| == |y|;
    assert (x + [event])[..|x|] == x && (y + [event])[..|x|] == y;
  }

  lemma RestAlike(setup: Setup<Runner>, other: Setup<Runner>, world: World, world': World, raw: seq<RawEvent>,
                  r: RunRecord, a: ReplayState<Runner>, b: ReplayState<Runner>, from: nat)
    requires OtherClock(setup, other, world, world') && r.status == RunStarted && r.mode == setup.mode
    requires ReplaysAlike(setup.mode, a, b, from, world, world')
    requires a.stream.sequenced == b.stream.sequenced
    requires r.symbol in a.stream.sequenced && a.stream.sequenced[r.symbol] == r.timestamp
    ensures var x, y := ReplayRest(setup, raw, r, a), ReplayRest(other, raw, r, b);
            && (x.Ok? <==> y.Ok?)
            && (x.Ok? ==> ReplaysAlike(setup.mode, x.value, y.value, from, world, world'))
  {
    hide ReplayRest, ReplaysAlike, UsesRunner, RespectsMode, RunnerCall, Counts;
    RunnerRespectsMode(setup, world);
    RunnerRespectsMode(other, world');
    ReplayRestIs(setup, a.stream, a.engine, raw, r);
    ReplayRestIs(other, b.stream, b.engine, raw, r);
    var composed := setup.compose(raw, r.symbol, r.timestamp);
    if composed.Ok? {
      CallsRunner(setup, world, a.engine, composed.value);
      CallsRunner(other, world', b.engine, composed.value);
      FinishAlike(setup.mode, a, b, from, world, world', r, Counts(raw), composed.value);
    } else {
      PlainAlike(setup.mode, a, b, from, world, world', Failed(r, SNAPSHOT_BUILD_FAILURE, composed.error, Counts(raw)),
                 a.stream.sequenced);
    }
  }

  lemma CallsRunner(setup: Setup<Runner>, world: World, runner: Runner, snapshot: Snapshot)
    requires UsesRunner(setup, world)
    ensures setup.engine(runner, snapshot) == RunnerCall(setup.mode, world, runner, snapshot)
    ensures var outcome := RunnerCall(setup.mode, world, runner, snapshot).1;
            outcome.Returned? ==> (outcome.result.hysteresis.Some? <==> setup.mode == Hysteresis)
  {
    hide RunStep;
    RunnerRespectsMode(setup, world);
    assert setup.engine(runner, snapshot) == RunnerCall(setup.mode, world, runner, snapshot);
  }

  lemma RecordAlike(setup: Setup<Runner>, other: Setup<Runner>, world: World, world': World,
                    records: seq<BufferRecord>, r: RunRecord, a: ReplayState<Runner>, b: ReplayState<Runner>, from: nat)
    requires OtherClock(setup, other, world, world') && r.status == RunStarted && r.mode == setup.mode
    requires ReplaysAlike(setup.mode, a, b, from, world, world')
    ensures var x, y := ReplayRecord(setup, records, r, a), ReplayRecord(other, records, r, b);
            && (x.Ok? <==> y.Ok?)
            && (x.Ok? ==> ReplaysAlike(setup.mode, x.value, y.value, from, world, world'))
  {
    hide ReplayRest, EventsAlike, RawEventsForCut, OtherClock;
    var raw, started := RawEventsForCut(records, r.symbol, r.cutStart, r.cutEnd), Publish(a.stream, Started(r));
    if raw.Ok? && started.Ok? {
      PlainAlike(setup.mode, a, b, from, world, world', Started(r), started.value.sequenced);
      RestAlike(setup, other, world, world', raw.value, r, a.(stream := started.value),
                b.(stream := Publish(b.stream, Started(r)).value), from);
    }
  }

  lemma {:induction false} LogAlike(setup: Setup<Runner>, other: Setup<Runner>, world: World, world': World,
                                    records: seq<BufferRecord>, log: seq<RunRecord>, runner: Runner)
    requires OtherClock(setup, other, world, world')
    requires forall i :: 0 <= i < |log| ==> log[i].status == RunStarted && log[i].mode == setup.mode
    ensures var x, y := Replayed(setup, records, log, runner), Replayed(other, records, log, runner);
            && (x.Ok? <==> y.Ok?)
            && (x.Ok? ==> ReplaysAlike(setup.mode, x.value, y.value, runner.calls, world, world'))
  {
    hide ReplayRecord, ReplaysAlike, OtherClock;
    if |log| == 0 {
      NothingAlike(setup.mode, runner, world, world');
    } else {
      var before := log[..|log| - 1];
      LogAlike(setup, other, world, world', records, before, runner);
      var a, b := Replayed(setup, records, before, runner), Replayed(other, records, before, runner);
      if a.Ok? {
        RecordAlike(setup, other, world, world', records, log[|log| - 1], a.value, b.value, runner.calls);
      }
    }
  }

  lemma NothingAlike(mode: EngineMode, runner: Runner, world: World, world': World)
    ensures var s := ReplayState(Stream(map[], []), runner); ReplaysAlike(mode, s, s, runner.calls, world, world')
  {
  }

  /** A replay of a run that reads another clock than the live loop did, over any interleaving. Which replays return is
      not up to the clock: those without an engine call that has ended with an exception, so while appends succeed
      those without a published engine failure. Apart from commit times a replay returns the published events; and it
      returns the very same exactly if the two clocks agree at the call behind every published commit. */
  lemma ReplayUnderAnotherClock(setup: Setup<Runner>, other: Setup<Runner>, world: World, world': World,
                                runner: Runner, actions: seq<Action>)
    requires ValidScheduler(setup.scheduler) && OtherClock(setup, other, world, world')
    requires !Run(setup, runner, actions).phase.InRun?
    ensures var s := Run(setup, runner, actions);
            var replay := Replayed(other, s.records, s.log, runner);
            && (replay.Ok? <==> Clean(s))
            && ((forall n :: world.appendSucceeds(n)) ==>
                  (replay.Ok? <==> forall i :: 0 <= i < |s.stream.events| ==> !EngineFailure(s.stream.events[i])))
            && (replay.Ok? ==>
                  && ForgetInEvents(replay.value.stream.events) == ForgetInEvents(s.stream.events)
                  && (replay.value.stream.events == s.stream.events <==>
                        ClocksAgree(s.stream.events, runner.calls, world, world')))
  {
    hide Run, Replayed, UsesRunner, ForgetInEvents, ClocksAgree, Recorded, Timed, Clean;
    RunnerRespectsMode(setup, world);
    ReplayEquivalent(setup, runner, actions);
    RunKeeps(setup, runner, actions);
    var s := Run(setup, runner, actions);
    LogIsLive(setup, s);
    LogAlike(setup, other, world, world', s.records, s.log, runner);
    if forall n :: world.appendSucceeds(n) {
      RunnerReplays(setup, world, runner, actions);
    }
  }

  lemma LogIsLive(setup: Setup<Runner>, s: State<Runner>)
    requires Recorded(setup, s)
    ensures forall i :: 0 <= i < |s.log| ==> s.log[i].status == RunStarted && s.log[i].mode == setup.mode
  {
  }
}
