/** What the wall clock decides: the commit times, and nothing else. */
module WallClock {
  import opened Ordering
  import opened Regimes
  import opened HysteresisRules
  import opened HysteresisPersistence
  import opened HysteresisRestart

  // ----- Apart from commit times -----

  function ForgetCommitTime(state: HysteresisState): HysteresisState {
    state.(lastCommit := if state.lastCommit.Some? then Some(0) else None)
  }

  function ForgetCommitTimes(states: States): States {
    map symbol | symbol in states :: ForgetCommitTime(states[symbol])
  }

  function ForgetInOutcome(o: Outcome): Outcome {
    match o
    case Err(e) => Err(e)
    case Ok(r) => Ok(r.(hysteresis := if r.hysteresis.Some? then Some(ForgetCommitTime(r.hysteresis.value)) else None))
  }

  /** The same call under another clock. */
  predicate SameButClock(a: Call, b: Call) {
    a.snapshot == b.snapshot && a.appendSucceeds == b.appendSucceeds
  }

  function ForgetIn(state: Option<HysteresisState>): Option<HysteresisState> {
    if state.Some? then Some(ForgetCommitTime(state.value)) else None
  }

  lemma AdvanceIgnoresClock(a: Option<HysteresisState>, b: Option<HysteresisState>, update: RegimeState,
                            config: Config, nowA: int, nowB: int)
    requires ForgetIn(a) == ForgetIn(b)
    ensures var nextA, nextB := Advance(a, update, config, nowA), Advance(b, update, config, nowB);
            && ForgetCommitTime(nextA) == ForgetCommitTime(nextB)
            && (StateAdvanced(a, nextA) <==> StateAdvanced(b, nextB))
  {
  }

  lemma ForgetUpdate(states: States, symbol: string, next: HysteresisState)
    ensures ForgetCommitTimes(states[symbol := next]) == ForgetCommitTimes(states)[symbol := ForgetCommitTime(next)]
    ensures ForgetIn(Lookup(states, symbol)) == Lookup(ForgetCommitTimes(states), symbol)
  {
  }

  lemma StepIgnoresClock(a: RunnerState, b: RunnerState, callA: Call, callB: Call, config: Config)
    requires ForgetCommitTimes(a.states) == ForgetCommitTimes(b.states) && SameButClock(callA, callB)
    ensures ForgetCommitTimes(RunStep(a, callA, config).0.states)
            == ForgetCommitTimes(RunStep(b, callB, config).0.states)
    ensures ForgetInOutcome(RunStep(a, callA, config).1) == ForgetInOutcome(RunStep(b, callB, config).1)
  {
    hide Advance, ForgetCommitTimes, StateAdvanced, Lookup, AppendTo;
    var update := PipelineState(callA.snapshot);
    var symbol := update.symbol;
    var prevA, prevB := Lookup(a.states, symbol), Lookup(b.states, symbol);
    var nextA, nextB := Advance(prevA, update, config, callA.now), Advance(prevB, update, config, callB.now);
    ForgetUpdate(a.states, symbol, nextA);
    ForgetUpdate(b.states, symbol, nextB);
    AdvanceIgnoresClock(prevA, prevB, update, config, callA.now, callB.now);
  }

  /** The commit time is the only thing in a whole run that depends on the wall clock: all anchors,
      candidates, progress, reasons and errors are the same under any two clocks. */
  lemma {:induction false} OnlyCommitTimesReadTheClock(start: RunnerState, a: seq<Call>, b: seq<Call>, config: Config)
    requires |a| == |b| && forall i :: 0 <= i < |a| ==> SameButClock(a[i], b[i])
    ensures ForgetCommitTimes(StateAfter(start, a, config).states)
            == ForgetCommitTimes(StateAfter(start, b, config).states)
    ensures |Outcomes(start, a, config)| == |Outcomes(start, b, config)| == |a|
    ensures forall i :: 0 <= i < |a| ==>
              ForgetInOutcome(Outcomes(start, a, config)[i]) == ForgetInOutcome(Outcomes(start, b, config)[i])
  {
    hide RunStep, ForgetInOutcome, ForgetCommitTimes, SameButClock;
    if |a| > 0 {
      var n := |a| - 1;
      OnlyCommitTimesReadTheClock(start, a[..n], b[..n], config);
      StepIgnoresClock(StateAfter(start, a[..n], config), StateAfter(start, b[..n], config), a[n], b[n], config);
    }
  }

  // ----- When two clocks give the same -----

  /** The call has returned a state that commits: the last reason of the state says so. */
  predicate CommitsIn(state: HysteresisState) {
    |state.reasons| > 0 && state.reasons[|state.reasons| - 1].CommitSwitch?
  }

  predicate Committed(o: Outcome) {
    o.Ok? && o.value.hysteresis.Some? && CommitsIn(o.value.hysteresis.value)
  }

  /** A committing update records the clock; any other takes over the commit time that it finds. */
  lemma CommitRecordsClock(prev: Option<HysteresisState>, update: RegimeState, config: Config, now: int)
    ensures var next := Advance(prev, update, config, now);
            next.lastCommit == if CommitsIn(next) then Some(now)
                               else if prev.Some? then prev.value.lastCommit else None
  {
    hide Track, Step;
  }

  /** One call on one state under two clocks: they give the same, unless it commits and they differ. */
  lemma StepUnderClocks(s: RunnerState, a: Call, b: Call, config: Config)
    requires SameButClock(a, b)
    ensures Committed(RunStep(s, a, config).1) ==>
              RunStep(s, a, config).1.value.hysteresis.value.lastCommit == Some(a.now)
    ensures if Committed(RunStep(s, a, config).1) && a.now != b.now
            then RunStep(s, a, config).1 != RunStep(s, b, config).1
            else RunStep(s, a, config) == RunStep(s, b, config)
  {
    hide Advance, CommitsIn, StateAdvanced, AppendTo;
    var update := PipelineState(a.snapshot);
    var prev := Lookup(s.states, update.symbol);
    CommitRecordsClock(prev, update, config, a.now);
    CommitRecordsClock(prev, update, config, b.now);
    ReasonsIgnoreClock(prev, update, config, a.now, b.now);
    AdvanceIgnoresClock(prev, prev, update, config, a.now, b.now);
  }

  lemma ReasonsIgnoreClock(prev: Option<HysteresisState>, update: RegimeState, config: Config, x: int, y: int)
    ensures var a, b := Advance(prev, update, config, x), Advance(prev, update, config, y);
            && (CommitsIn(a) <==> CommitsIn(b))
            && (a.lastCommit == b.lastCommit ==> a == b)
  {
  }

  /** The clocks agree wherever the run commits under the first of them. */
  ghost predicate AgreeAtCommits(start: RunnerState, a: seq<Call>, b: seq<Call>, config: Config)
    requires |a| == |b| == |Outcomes(start, a, config)|
  {
    forall i :: 0 <= i < |a| && Committed(Outcomes(start, a, config)[i]) ==> a[i].now == b[i].now
  }

  /** Two clocks give a run the same results exactly if they agree at each of its commits. */
  lemma {:induction false} SameUnderClocksExactly(start: RunnerState, a: seq<Call>, b: seq<Call>, config: Config)
    requires |a| == |b| && forall i :: 0 <= i < |a| ==> SameButClock(a[i], b[i])
    ensures |Outcomes(start, a, config)| == |Outcomes(start, b, config)| == |a|
    ensures Outcomes(start, a, config) == Outcomes(start, b, config) <==> AgreeAtCommits(start, a, b, config)
    ensures Outcomes(start, a, config) == Outcomes(start, b, config) ==>
              StateAfter(start, a, config) == StateAfter(start, b, config)
  {
    hide RunStep, Committed;
    if |a| > 0 {
      var n := |a| - 1;
      SameUnderClocksExactly(start, a[..n], b[..n], config);
      var before, before' := Outcomes(start, a[..n], config), Outcomes(start, b[..n], config);
      assert Outcomes(start, a, config)[..n] == before && Outcomes(start, b, config)[..n] == before';
      assert Outcomes(start, a, config)[n] == RunStep(StateAfter(start, a[..n], config), a[n], config).1;
      assert Outcomes(start, b, config)[n] == RunStep(StateAfter(start, b[..n], config), b[n], config).1;
      if before == before' {
        StepUnderClocks(StateAfter(start, a[..n], config), a[n], b[n], config);
      }
      assert AgreeAtCommits(start, a, b, config) <==>
               AgreeAtCommits(start, a[..n], b[..n], config)
               && (Committed(Outcomes(start, a, config)[n]) ==> a[n].now == b[n].now);
    }
  }

  /** The same calls, with the clock at the engine time of each. */
  function OnEngineTime(calls: seq<Call>): seq<Call> {
    seq(|calls|, i requires 0 <= i < |calls| => calls[i].(now := calls[i].snapshot.timestamp))
  }

  /** Every commit of a run bears its engine time exactly if the clock reads it there; and then, and only then, the run
      is the one that a clock on engine time gives. */
  lemma CommitsBearEngineTimeExactly(start: RunnerState, calls: seq<Call>, config: Config)
    ensures |Outcomes(start, calls, config)| == |calls|
    ensures var outcomes := Outcomes(start, calls, config);
            var bear := forall i :: 0 <= i < |calls| && Committed(outcomes[i]) ==>
                          var state := outcomes[i].value.hysteresis.value;
                          state.lastCommit == Some(state.timestamp);
            && (bear <==> forall i :: 0 <= i < |calls| && Committed(outcomes[i]) ==>
                            calls[i].now == calls[i].snapshot.timestamp)
            && (bear <==> outcomes == Outcomes(start, OnEngineTime(calls), config))
  {
    hide RunStep, CommitsIn;
    SameUnderClocksExactly(start, calls, OnEngineTime(calls), config);
    forall i | 0 <= i < |calls| && Committed(Outcomes(start, calls, config)[i])
      ensures var state := Outcomes(start, calls, config)[i].value.hysteresis.value;
              state.lastCommit == Some(calls[i].now) && state.timestamp == calls[i].snapshot.timestamp
    {
      OutcomeAt(start, calls, i, config);
      CommitTimeOf(StateAfter(start, calls[..i], config), calls[i], config);
    }
  }

  lemma {:induction false} OutcomeAt(start: RunnerState, calls: seq<Call>, i: nat, config: Config)
    requires i < |calls|
    ensures |Outcomes(start, calls, config)| == |calls|
    ensures Outcomes(start, calls, config)[i] == RunStep(StateAfter(start, calls[..i], config), calls[i], config).1
  {
    hide RunStep;
    var n := |calls| - 1;
    if i < n {
      OutcomeAt(start, calls[..n], i, config);
      assert calls[..n][..i] == calls[..i];
    } else if n > 0 {
      OutcomeAt(start, calls[..n], n - 1, config);
    }
  }

  lemma CommitTimeOf(s: RunnerState, call: Call, config: Config)
    requires Committed(RunStep(s, call, config).1)
    ensures var state := RunStep(s, call, config).1.value.hysteresis.value;
            state.lastCommit == Some(call.now) && state.timestamp == call.snapshot.timestamp
  {
    hide CommitsIn, StateAdvanced, AppendTo;
    StepUnderClocks(s, call, call, config);
  }

  // ----- Two clocks that show -----

  /** Two updates, of which the second one commits. */
  function CommittingCalls(now: int): seq<Call> {
    var output := RegimeOutput("BTC", 0, ChopBalanced, 1.0, [], [], []);
    [ Call(Snapshot("BTC", 0, output, map[ChopBalanced := 1.0], ChopBalanced, None), now, true),
      Call(Snapshot("BTC", 1, output, map[SqueezeUp := 1.0], SqueezeUp, None), now, true) ]
  }

  /** A run that any two different clock readings tell apart. */
  lemma ClocksShow(x: int, y: int)
    requires x != y
    ensures var config := Config(1, 0.5, 0.5, None, 1, None);
            && |Outcomes(NOTHING, CommittingCalls(x), config)| == 2
            && Committed(Outcomes(NOTHING, CommittingCalls(x), config)[1])
            && Outcomes(NOTHING, CommittingCalls(x), config) != Outcomes(NOTHING, CommittingCalls(y), config)
  {
    hide RunStep;
    var config := Config(1, 0.5, 0.5, None, 1, None);
    OutcomeAt(NOTHING, CommittingCalls(x), 1, config);
    OutcomeAt(NOTHING, CommittingCalls(x), 0, config);
    SecondCommits(x, config);
    SameUnderClocksExactly(NOTHING, CommittingCalls(x), CommittingCalls(y), config);
  }

  lemma SecondCommits(now: int, config: Config)
    requires config == Config(1, 0.5, 0.5, None, 1, None)
    ensures var calls := CommittingCalls(now);
            Committed(RunStep(StateAfter(NOTHING, calls[..1], config), calls[1], config).1)
  {
    var calls := CommittingCalls(now);
    assert calls[..1][..0] == [];
    var first := Advance(None, PipelineState(calls[0].snapshot), config, now);
    OnlyTop(ChopBalanced);
    OnlyTop(SqueezeUp);
    assert StateAfter(NOTHING, calls[..1], config).states == map["BTC" := first];
  }

  lemma OnlyTop(r: Regime)
    ensures Top(map[r := 1.0], REGIME_ORDER) == Some(r)
  {
    AllRegimes();
    var beliefs: Beliefs := map[r := 1.0];
    TopIsFirstMaximum(beliefs, REGIME_ORDER);
    assert r in REGIME_ORDER && r in beliefs;
  }
}
