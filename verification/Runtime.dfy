/** The runtime object of the live orchestrator. */
module Runtime {
  import opened Ordering
  import opened OrchestratorContracts
  import opened InputBuffer
  import opened Cuts
  import opened Scheduling
  import opened Orchestrator
  import opened LiveRuns

  class OrchestratorRuntime<S> {
    const setup: Setup<S>
    const buffer: RawInputBuffer
    const selector: CutSelector
    const scheduler: Scheduler
    const sequencer: SymbolSequencer
    var symbols: set<string>
    var log: seq<RunRecord>
    var published: seq<OrchestratorEvent>
    var engine: S

    ghost predicate Valid()
      reads this, buffer
    {
      && ValidScheduler(setup.scheduler) && scheduler.config == setup.scheduler
      && buffer.Valid() && buffer.maxRecords == setup.maxRecords
    }

    function Value(phase: Phase): State<S>
      reads this, buffer, selector, scheduler, sequencer
    {
      State(buffer.records, symbols, selector.lastEnd, scheduler.lastTick, log,
            Stream(sequencer.lastTimestamps, published), engine, phase)
    }

    constructor (setup: Setup<S>, engine: S)
      requires ValidScheduler(setup.scheduler) && setup.maxRecords > 0
      ensures Valid() && Value(Idle) == Initial(engine) && this.setup == setup
      ensures fresh(buffer) && fresh(selector) && fresh(scheduler) && fresh(sequencer)
    {
      this.setup := setup;
      buffer := new RawInputBuffer(setup.maxRecords);
      selector := new CutSelector();
      scheduler := new Scheduler(setup.scheduler);
      sequencer := new SymbolSequencer();
      symbols, log, published, this.engine := {}, [], [], engine;
    }

    /** A refused event registers no symbol. */
    method HandleRawEvent(event: RawEvent, ingestTs: int, phase: Phase) returns (accepted: bool)
      requires Valid()
      modifies this, buffer
      ensures Valid()
      ensures Value(phase)
              == if accepted then Act(setup, Act(setup, old(Value(phase)), Append(event, ingestTs)), Know(event.symbol))
                              else old(Value(phase))
      ensures accepted <==> |old(buffer.records)| < setup.maxRecords
    {
      var result := buffer.Append(event, ingestTs);
      if result.Err? {
        return false;
      }
      symbols := symbols + {event.symbol};
      return true;
    }

    method Publish(event: OrchestratorEvent) returns (accepted: bool)
      modifies this, sequencer
      ensures var before := Stream(old(sequencer.lastTimestamps), old(published));
              var after := Orchestrator.Publish(before, event);
              && accepted == after.Ok?
              && Stream(sequencer.lastTimestamps, published) == (if accepted then after.value else before)
      ensures symbols == old(symbols) && log == old(log) && engine == old(engine)
    {
      accepted := sequencer.Ensure(event.symbol, event.timestamp);
      if accepted {
        published := published + [event];
      }
    }

    /** The first half of a symbol's turn. The record of the started run, or where the loop goes on instead. */
    method Start(planned: int, latest: int, todo: seq<string>, now: int) returns (phase: Phase)
      requires Valid() && |todo| > 0
      modifies this, selector, sequencer
      ensures Valid()
      ensures Value(phase) == StartRun(setup, old(Value(Looping(planned, latest, todo))), now)
    {
      var symbol, rest := todo[0], todo[1..];
      if setup.blocks(engine, symbol, EngineTimestamp(setup.scheduler, planned)) {
        return Stopped(GuardTripped);
      }
      var cut := selector.Next(buffer, symbol, latest, setup.scheduler.mode);
      if cut.Err? {
        return Looping(planned, latest, rest);
      }
      var record := RecordOf(setup, cut.value, planned, now);
      log := log + [record];
      var accepted := Publish(Started(record));
      return if accepted then InRun(planned, latest, rest, record) else Stopped(Crashed);
    }

    /** The second half: compose, call the engine, publish how the run ended. */
    method Finish(planned: int, latest: int, todo: seq<string>, record: RunRecord) returns (phase: Phase)
      requires Valid() && Timed(setup, Value(InRun(planned, latest, todo, record)))
      requires Recorded(setup, Value(InRun(planned, latest, todo, record)))
      modifies this, sequencer
      ensures Valid()
      ensures Value(phase) == FinishRun(setup, old(Value(InRun(planned, latest, todo, record))))
    {
      hide Timed, Recorded, FinishRun, RawEventsForCut, Numbered;
      ghost var start := Value(InRun(planned, latest, todo, record));
      InRunReady(setup, start);
      FinishRunIs(setup, start);
      phase := Looping(planned, latest, todo);
      var raw := RawEventsForCut(buffer.records, record.symbol, record.cutStart, record.cutEnd);
      if raw.Err? {
        return Stopped(Crashed);
      }
      var counts := CountsByEventType(raw.value);
      var snapshot := setup.compose(raw.value, record.symbol, record.timestamp);
      var accepted: bool;
      if snapshot.Err? {
        accepted := Publish(Failed(record, SNAPSHOT_BUILD_FAILURE, snapshot.error, counts));
        return;
      }
      var (next, outcome) := setup.engine(engine, snapshot.value);
      engine := next;
      match outcome
      case Halts =>
        phase := Stopped(EngineHalted);
      case Raises(detail) =>
        accepted := Publish(Failed(record, ENGINE_FAILURE, detail, counts));
      case Returned(result) =>
        if result.hysteresis.Some? {
          accepted := Publish(StatePublished(record, result.hysteresis.value, counts));
        }
        accepted := Publish(Completed(record, result.output, counts));
    }
  
    /** One tick that nothing interrupts: the symbols in sorted order, each in its turn, until the tick is done or
        the thread has to stop. */
    method RunDue(planned: int, clock: nat -> int) returns (phase: Phase)
      requires Valid() && Timed(setup, Value(Due(planned))) && Recorded(setup, Value(Due(planned)))
      modifies this, selector, sequencer
      ensures Valid()
      ensures Value(phase) == Drive(setup, old(Value(Due(planned))), clock)
    {
      hide Timed, Recorded, StartRun, FinishRun, Drive, Sorted;
      ghost var start := Value(Due(planned));
      DriveSteps(setup, start, clock);
      var latest := buffer.LastIngestSeq();
      if latest.None? {
        DriveSteps(setup, Value(Idle), clock);
        return Idle;
      }
      ActKeeps(setup, start, Proceed(clock(|log|)));
      ghost var begun := Value(Begun(planned, latest.value));
      DriveSteps(setup, begun, clock);
      if symbols == {} {
        DriveSteps(setup, Value(Idle), clock);
        return Idle;
      }
      ActKeeps(setup, begun, Proceed(clock(|log|)));
      phase := Looping(planned, latest.value, Sorted(symbols));
      while phase.Looping? && phase.todo != []
        invariant Valid()
        invariant Drive(setup, start, clock) == Drive(setup, Value(phase), clock)
        invariant Timed(setup, Value(phase)) && Recorded(setup, Value(phase))
        invariant phase.Looping? || phase.Stopped?
        decreases StepsLeft(phase)
      {
        ghost var s := Value(phase);
        DriveSteps(setup, s, clock);
        ActKeeps(setup, s, Proceed(clock(|log|)));
        StartPhases(setup, s, clock(|log|));
        phase := Start(phase.planned, phase.latest, phase.todo, clock(|log|));
        if phase.InRun? {
          ghost var t := Value(phase);
          DriveSteps(setup, t, clock);
          ActKeeps(setup, t, Proceed(clock(|log|)));
          InRunReady(setup, t);
          FinishRunIs(setup, t);
          phase := Finish(phase.planned, phase.latest, phase.todo, phase.record);
        }
      }
      DriveSteps(setup, Value(phase), clock);
      if phase.Looping? {
        phase := Idle;
        DriveSteps(setup, Value(phase), clock);
      }
    }

    /** One round of the scheduler thread. */
    method Tick(now: int, clock: nat -> int) returns (phase: Phase)
      requires Valid() && Timed(setup, Value(Idle)) && Recorded(setup, Value(Idle))
      modifies this, selector, scheduler, sequencer
      ensures Valid()
      ensures Value(phase) == Drive(setup, Act(setup, old(Value(Idle)), Proceed(now)), clock)
    {
      hide Timed, Recorded, Drive;
      ActKeeps(setup, Value(Idle), Proceed(now));
      var planned := scheduler.NextTickMs(now);
      phase := RunDue(planned, clock);
    }
  }

  lemma DriveSteps<S>(setup: Setup<S>, s: State<S>, clock: nat -> int)
    requires ValidScheduler(setup.scheduler)
    ensures Drive(setup, s, clock)
         == if s.phase.Idle? || s.phase.Stopped? then s else Drive(setup, Scheduled(setup, s, clock(|s.log|)), clock)
  {
  }

  lemma StartPhases<S>(setup: Setup<S>, s: State<S>, now: int)
    requires s.phase.Looping? && |s.phase.todo| > 0
    ensures var next := StartRun(setup, s, now).phase;
            && (next.InRun? || next.Looping? || next.Stopped?)
            && StepsLeft(next) < StepsLeft(s.phase)
  {
  }

  lemma InRunReady<S>(setup: Setup<S>, s: State<S>)
    requires Timed(setup, s) && Recorded(setup, s) && s.phase.InRun?
    ensures var r := s.phase.record;
            && r.symbol in s.stream.sequenced && s.stream.sequenced[r.symbol] == r.timestamp
            && r.cutStart <= r.cutEnd
  {
  }

  /** An uninterrupted tick is one of the interleavings: what holds after every run holds after every tick. */
  lemma {:induction false} DriveIsARun<S>(setup: Setup<S>, engine: S, actions: seq<Action>, clock: nat -> int)
    requires ValidScheduler(setup.scheduler)
    ensures exists more: seq<Action> ::
              && (forall i :: 0 <= i < |more| ==> more[i].Proceed?)
              && Run(setup, engine, actions + more) == Drive(setup, Run(setup, engine, actions), clock)
    decreases PhaseRank(Run(setup, engine, actions).phase), StepsLeft(Run(setup, engine, actions).phase)
  {
    hide Scheduled, Drive, Run;
    var s := Run(setup, engine, actions);
    DriveSteps(setup, s, clock);
    if s.phase.Idle? || s.phase.Stopped? {
      assert actions + [] == actions;
      assert Run(setup, engine, actions + []) == Drive(setup, s, clock);
    } else {
      var step := Proceed(clock(|s.log|));
      OneMore(setup, engine, actions, step);
      ScheduledDescends(setup, s, clock(|s.log|));
      DriveIsARun(setup, engine, actions + [step], clock);
      var more: seq<Action> :| (forall i :: 0 <= i < |more| ==> more[i].Proceed?)
                && Run(setup, engine, actions + [step] + more)
                   == Drive(setup, Run(setup, engine, actions + [step]), clock);
      assert actions + ([step] + more) == actions + [step] + more;
    }
  }

  lemma OneMore<S>(setup: Setup<S>, engine: S, actions: seq<Action>, action: Action)
    requires ValidScheduler(setup.scheduler)
    ensures Run(setup, engine, actions + [action]) == Act(setup, Run(setup, engine, actions), action)
  {
    assert (actions + [action])[..|actions|] == actions;
  }

  lemma ScheduledDescends<S>(setup: Setup<S>, s: State<S>, now: int)
    requires ValidScheduler(setup.scheduler) && !s.phase.Idle? && !s.phase.Stopped?
    ensures var next := Scheduled(setup, s, now).phase;
            PhaseRank(next) < PhaseRank(s.phase)
              || (PhaseRank(next) == PhaseRank(s.phase) && StepsLeft(next) < StepsLeft(s.phase))
  {
    hide Sorted, PublishAll, NextCut, RawEventsForCut;
  }
}
