/** The tick scheduler, and the guard that keeps engine timestamps in order per symbol. */
module Scheduling {
  import opened Ordering
  import opened OrchestratorContracts

  datatype SchedulerConfig = SchedulerConfig(
    mode: CutKind,
    timerInterval: Option<int>,
    boundaryInterval: Option<int>,
    boundaryDelay: Option<int>)

  /** What configuration validation asks of a scheduler. */
  predicate ValidScheduler(config: SchedulerConfig) {
    match config.mode
    case TimerCut => config.timerInterval.Some? && config.timerInterval.value > 0
    case BoundaryCut =>
      && config.boundaryInterval.Some? && config.boundaryInterval.value > 0
      && (config.boundaryDelay.Some? ==> config.boundaryDelay.value >= 0)
  }

  function Interval(config: SchedulerConfig): (interval: int)
    requires ValidScheduler(config)
    ensures interval > 0
  {
    match config.mode
    case TimerCut => config.timerInterval.value
    case BoundaryCut => config.boundaryInterval.value
  }

  function Delay(config: SchedulerConfig): int {
    if config.mode == BoundaryCut && config.boundaryDelay.Some? then config.boundaryDelay.value else 0
  }

  /** The next tick, planned at the given time after the given last tick. */
  function NextTick(config: SchedulerConfig, last: Option<int>, now: int): int
    requires ValidScheduler(config)
  {
    if last.Some? then last.value + Interval(config)
    else
      match config.mode
      case TimerCut => now
      case BoundaryCut =>
        var base := if now - Delay(config) < 0 then 0 else now - Delay(config);
        (base / Interval(config) + 1) * Interval(config) + Delay(config)
  }

  /** The time that a planned tick stands for: the delay is taken off a boundary tick. */
  function EngineTimestamp(config: SchedulerConfig, planned: int): int {
    planned - Delay(config)
  }

  class Scheduler {
    const config: SchedulerConfig
    var lastTick: Option<int>

    constructor (config: SchedulerConfig)
      requires ValidScheduler(config)
      ensures this.config == config && lastTick == None
    {
      this.config, lastTick := config, None;
    }

    method NextTickMs(now: int) returns (tick: int)
      requires ValidScheduler(config)
      modifies this
      ensures tick == NextTick(config, old(lastTick), now) && lastTick == Some(tick)
    {
      if config.mode == TimerCut {
        tick := NextTimerTick(now);
      } else {
        tick := NextBoundaryTick(now);
      }
    }

    method NextTimerTick(now: int) returns (tick: int)
      requires ValidScheduler(config) && config.mode == TimerCut
      modifies this
      ensures tick == NextTick(config, old(lastTick), now) && lastTick == Some(tick)
    {
      var interval := config.timerInterval.value;
      if lastTick.None? {
        lastTick := Some(now);
      } else {
        lastTick := Some(lastTick.value + interval);
      }
      tick := lastTick.value;
    }

    method NextBoundaryTick(now: int) returns (tick: int)
      requires ValidScheduler(config) && config.mode == BoundaryCut
      modifies this
      ensures tick == NextTick(config, old(lastTick), now) && lastTick == Some(tick)
    {
      var interval := config.boundaryInterval.value;
      var delay := if config.boundaryDelay.Some? then config.boundaryDelay.value else 0;
      if lastTick.Some? {
        lastTick := Some(lastTick.value + interval);
        return lastTick.value;
      }
      var base := now - delay;
      if base < 0 {
        base := 0;
      }
      var nextBoundary := (base / interval + 1) * interval;
      lastTick := Some(nextBoundary + delay);
      return lastTick.value;
    }
  }

  // ----- Ticks over a whole run -----

  /** The ticks planned at these times, one after the other, after the given last tick. */
  function Ticks(config: SchedulerConfig, last: Option<int>, times: seq<int>): seq<int>
    requires ValidScheduler(config)
    decreases |times|
  {
    if |times| == 0 then []
    else
      var tick := NextTick(config, last, times[0]);
      [tick] + Ticks(config, Some(tick), times[1..])
  }

  lemma NoSmallMultiple(m: int, d: int)
    requires m != 0 && d > 0
    ensures m * d >= d || m * d <= -d
  {
    if m > 0 {
      assert (m - 1) * d >= 0;
    } else {
      assert (-1 - m) * d >= 0;
    }
  }

  /** The quotient and the remainder are unique. */
  lemma Divided(t: int, q: int, r: int, d: int)
    requires t == q * d + r && 0 <= r < d
    ensures t / d == q && t % d == r
  {
    assert t == t / d * d + t % d;
    var m := q - t / d;
    assert m * d == q * d - t / d * d;
    if m != 0 { NoSmallMultiple(m, d); }
  }

  lemma NextMultiple(base: int, interval: int)
    requires base >= 0 && interval > 0
    ensures base < (base / interval + 1) * interval <= base + interval
    ensures base == 0 ==> (base / interval + 1) * interval == interval
    ensures (base / interval + 1) * interval % interval == 0
  {
    var q := base / interval;
    assert base == q * interval + base % interval;
    assert (q + 1) * interval == q * interval + interval;
    Divided((q + 1) * interval, q + 1, 0, interval);
  }

  lemma AddInterval(t: int, interval: int)
    requires interval > 0 && t % interval == 0
    ensures (t + interval) % interval == 0
  {
    var q := t / interval;
    assert (q + 1) * interval == q * interval + interval;
    Divided(t + interval, q + 1, 0, interval);
  }

  /** The first boundary tick is the first boundary plus delay after now; before the delay has passed it is the first
      boundary of all. */
  lemma FirstBoundaryTick(config: SchedulerConfig, now: int)
    requires ValidScheduler(config) && config.mode == BoundaryCut
    ensures var interval := config.boundaryInterval.value;
            var delay := if config.boundaryDelay.Some? then config.boundaryDelay.value else 0;
            var tick := NextTick(config, None, now);
            && (tick - delay) % interval == 0
            && (now >= delay ==> now < tick <= now + interval)
            && (now < delay ==> tick == interval + delay)
  {
    var base := if now - Delay(config) < 0 then 0 else now - Delay(config);
    NextMultiple(base, Interval(config));
  }

  /** Ticks are one interval apart whatever the clock says, so they strictly increase; boundary ticks stay
      congruent to the delay modulo the interval. */
  lemma {:induction false} TicksAreRegular(config: SchedulerConfig, last: Option<int>, times: seq<int>)
    requires ValidScheduler(config)
    requires config.mode == BoundaryCut && last.Some? ==> EngineTimestamp(config, last.value) % Interval(config) == 0
    ensures var ticks := Ticks(config, last, times);
            && |ticks| == |times|
            && (config.mode == TimerCut && last.None? && |ticks| > 0 ==> ticks[0] == times[0])
            && (last.Some? && |ticks| > 0 ==> ticks[0] == last.value + Interval(config))
            && (forall i :: 0 < i < |ticks| ==> ticks[i] == ticks[i - 1] + Interval(config))
            && (config.mode == BoundaryCut ==>
                  forall i :: 0 <= i < |ticks| ==> EngineTimestamp(config, ticks[i]) % Interval(config) == 0)
    decreases |times|
  {
    if |times| > 0 {
      var tick := NextTick(config, last, times[0]);
      if config.mode == BoundaryCut {
        if last.None? {
          FirstBoundaryTick(config, times[0]);
        } else {
          AddInterval(EngineTimestamp(config, last.value), Interval(config));
        }
      }
      TicksAreRegular(config, Some(tick), times[1..]);
    }
  }

  // ----- The sequencer -----

  datatype SequenceError = NotMonotonic

  function EnsureNext(last: map<string, int>, symbol: string, timestamp: int): Result<map<string, int>, SequenceError> {
    if symbol in last && timestamp < last[symbol] then Err(NotMonotonic) else Ok(last[symbol := timestamp])
  }

  class SymbolSequencer {
    var lastTimestamps: map<string, int>

    constructor ()
      ensures lastTimestamps == map[]
    {
      lastTimestamps := map[];
    }

    method Ensure(symbol: string, timestamp: int) returns (accepted: bool)
      modifies this
      ensures accepted == EnsureNext(old(lastTimestamps), symbol, timestamp).Ok?
      ensures lastTimestamps == if accepted then old(lastTimestamps)[symbol := timestamp] else old(lastTimestamps)
    {
      if symbol in lastTimestamps && timestamp < lastTimestamps[symbol] {
        return false;
      }
      lastTimestamps := lastTimestamps[symbol := timestamp];
      return true;
    }
  }
}
