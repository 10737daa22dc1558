/** Whom a tick of the live orchestrator serves. */
module Ticks {
  import opened Ordering
  import opened OrchestratorContracts
  import opened InputBuffer
  import opened Cuts
  import opened Scheduling
  import opened Orchestrator
  import opened LiveRuns

  /** There is something to cut for the symbol: numbers beyond its last cut, or a first event. */
  ghost predicate Waiting<S>(s: State<S>, symbol: string, latest: int) {
    if symbol in s.lastEnd then s.lastEnd[symbol] < latest
    else exists i :: 0 <= i < |s.records| && i < latest && s.records[i].event.symbol == symbol
  }

  /** The run that serves the symbol: it cuts from where its last cut ended, or from its first event, to the end. */
  ghost predicate Serves<S>(s: State<S>, r: RunRecord, symbol: string, planned: int, latest: int) {
    && r.symbol == symbol && r.plannedTs == planned && r.cutEnd == latest
    && if symbol in s.lastEnd then r.cutStart == s.lastEnd[symbol] + 1
       else && 1 <= r.cutStart <= |s.records| && s.records[r.cutStart - 1].event.symbol == symbol
            && forall i :: 0 <= i < r.cutStart - 1 ==> s.records[i].event.symbol != symbol
  }

  lemma CutWhenWaiting<S>(s: State<S>, symbol: string, latest: int, kind: CutKind)
    requires Numbered(s.records) && 1 <= latest <= |s.records|
    ensures var cut := NextCut(s.lastEnd, s.records, symbol, latest, kind);
            && (cut.Ok? <==> Waiting(s, symbol, latest))
            && (cut.Ok? && symbol !in s.lastEnd ==>
                  && 1 <= cut.value.start <= |s.records| && s.records[cut.value.start - 1].event.symbol == symbol
                  && forall i :: 0 <= i < cut.value.start - 1 ==> s.records[i].event.symbol != symbol)
  {
    hide InRange, FirstSeq;
    if symbol !in s.lastEnd {
      RangeCompletes(s.records, 1, latest);
      var range := InRange(s.records, 1, latest);
      assert UpTo(s.records, 0) + range == range == s.records[..latest];
      FirstSeqFound(range, symbol);
    }
  }

  /** What one symbol of the loop comes to. */
  lemma OneSymbol<S>(setup: Setup<S>, s: State<S>, clock: nat -> int) returns (u: State<S>)
    requires ValidScheduler(setup.scheduler) && Timed(setup, s) && Recorded(setup, s)
    requires s.phase.Looping? && |s.phase.todo| > 0
    ensures Timed(setup, u) && Recorded(setup, u) && Drive(setup, u, clock) == Drive(setup, s, clock)
    ensures u.phase.Stopped? || u.phase == Looping(s.phase.planned, s.phase.latest, s.phase.todo[1..])
    ensures u.records == s.records
    ensures var symbol := s.phase.todo[0];
            && (forall x :: x != symbol ==>
                  (x in u.lastEnd <==> x in s.lastEnd) && (x in s.lastEnd ==> u.lastEnd[x] == s.lastEnd[x]))
            && (u.phase.Looping? ==>
                  if Waiting(s, symbol, s.phase.latest)
                  then |u.log| == |s.log| + 1 && u.log[..|s.log|] == s.log
                       && Serves(s, u.log[|s.log|], symbol, s.phase.planned, s.phase.latest)
                  else u.log == s.log)
            && s.log <= u.log
  {
    hide Timed, Recorded, NextCut, Waiting, FinishRun, NextTick, Sorted, Drive;
    var symbol, latest := s.phase.todo[0], s.phase.latest;
    LoopingRange(setup, s);
    CutWhenWaiting(s, symbol, latest, setup.scheduler.mode);
    DriveOnce(setup, s, clock);
    ActKeeps(setup, s, Proceed(clock(|s.log|)));
    StartRunTimed(setup, s, clock(|s.log|));
    u := StartRun(setup, s, clock(|s.log|));
    NotCrashed(setup, u);
    CutNames(s, symbol, latest, setup.scheduler.mode);
    if u.phase.InRun? {
      DriveOnce(setup, u, clock);
      ActKeeps(setup, u, Proceed(clock(|u.log|)));
      CutIsProper(setup, u);
      FinishRunIs(setup, u);
      u := FinishRun(setup, u);
    }
  }

  lemma LoopingRange<S>(setup: Setup<S>, s: State<S>)
    requires Recorded(setup, s) && s.phase.Looping?
    ensures Numbered(s.records) && 1 <= s.phase.latest <= |s.records|
  {
  }

  lemma CutIsProper<S>(setup: Setup<S>, s: State<S>)
    requires Recorded(setup, s) && s.phase.InRun?
    ensures s.phase.record.cutStart <= s.phase.record.cutEnd
  {
  }

  lemma CutNames<S>(s: State<S>, symbol: string, latest: int, kind: CutKind)
    ensures var cut := NextCut(s.lastEnd, s.records, symbol, latest, kind);
            cut.Ok? ==> && cut.value.symbol == symbol && cut.value.end == latest
                        && (symbol in s.lastEnd ==> cut.value.start == s.lastEnd[symbol] + 1)
  {
  }

  lemma NotCrashed<S>(setup: Setup<S>, s: State<S>)
    requires Timed(setup, s)
    ensures s.phase != Stopped(Crashed)
  {
  }

  lemma DriveOnce<S>(setup: Setup<S>, s: State<S>, clock: nat -> int)
    requires ValidScheduler(setup.scheduler) && !s.phase.Idle? && !s.phase.Stopped?
    ensures Drive(setup, s, clock) == Drive(setup, Act(setup, s, Proceed(clock(|s.log|))), clock)
  {
  }

  /** The symbols that are served out of these, in their order. */
  ghost function Served<S>(s: State<S>, symbols: seq<string>, latest: int): seq<string> {
    if |symbols| == 0 then []
    else (if Waiting(s, symbols[0], latest) then [symbols[0]] else []) + Served(s, symbols[1..], latest)
  }

  function SymbolsOf(log: seq<RunRecord>): seq<string> {
    seq(|log|, i requires 0 <= i < |log| => log[i].symbol)
  }

  lemma {:induction false} SameWaiting<S>(s: State<S>, u: State<S>, symbols: seq<string>, latest: int)
    requires u.records == s.records
    requires forall i :: 0 <= i < |symbols| ==>
               var x := symbols[i];
               (x in u.lastEnd <==> x in s.lastEnd) && (x in s.lastEnd ==> u.lastEnd[x] == s.lastEnd[x])
    ensures Served(u, symbols, latest) == Served(s, symbols, latest)
  {
    if |symbols| > 0 {
      assert symbols[0] in symbols;
      SameWaiting(s, u, symbols[1..], latest);
    }
  }

  /** A tick that nothing interrupts and nothing stops makes one run for each of its symbols that has something to cut,
      in order, and none for the others; each run cuts from where the last one ended up to the number read. */
  lemma {:induction false} TickServes<S>(setup: Setup<S>, s: State<S>, clock: nat -> int)
    requires ValidScheduler(setup.scheduler) && Timed(setup, s) && Recorded(setup, s) && s.phase.Looping?
    ensures var t := Drive(setup, s, clock);
            && s.log <= t.log && (t.phase.Idle? || t.phase.Stopped?)
            && (t.phase.Idle? ==>
                  var more := t.log[|s.log|..];
                  && SymbolsOf(more) == Served(s, s.phase.todo, s.phase.latest)
                  && forall i :: 0 <= i < |more| ==>
                       Serves(s, more[i], more[i].symbol, s.phase.planned, s.phase.latest))
    decreases |s.phase.todo|
  {
    hide Timed, Recorded, Waiting, Drive, Act, NextTick, Sorted;
    var todo, latest := s.phase.todo, s.phase.latest;
    if |todo| == 0 {
      DriveEnds(setup, s, clock);
      assert s.log[|s.log|..] == [];
    } else {
      var u := OneSymbol(setup, s, clock);
      LoopIsDistinct(setup, s);
      if u.phase.Stopped? {
        DriveStays(setup, u, clock);
      } else {
        TickServes(setup, u, clock);
        SameWaiting(s, u, todo[1..], latest);
        var t := Drive(setup, s, clock);
        if t.phase.Idle? {
          var more, rest := t.log[|s.log|..], t.log[|u.log|..];
          assert more == u.log[|s.log|..] + rest;
          RestServes(s, u, rest, todo[1..], s.phase.planned, latest);
        }
      }
    }
  }

  lemma RestServes<S>(s: State<S>, u: State<S>, rest: seq<RunRecord>, symbols: seq<string>, planned: int, latest: int)
    requires u.records == s.records && SymbolsOf(rest) == Served(u, symbols, latest)
    requires forall i :: 0 <= i < |rest| ==> Serves(u, rest[i], rest[i].symbol, planned, latest)
    requires forall i :: 0 <= i < |symbols| ==>
               var x := symbols[i];
               (x in u.lastEnd <==> x in s.lastEnd) && (x in s.lastEnd ==> u.lastEnd[x] == s.lastEnd[x])
    ensures forall i :: 0 <= i < |rest| ==> Serves(s, rest[i], rest[i].symbol, planned, latest)
  {
    hide Waiting;
    forall i | 0 <= i < |rest| ensures Serves(s, rest[i], rest[i].symbol, planned, latest) {
      ServedAreOf(u, symbols, latest, SymbolsOf(rest)[i]);
    }
  }

  lemma {:induction false} ServedAreOf<S>(s: State<S>, symbols: seq<string>, latest: int, x: string)
    requires x in Served(s, symbols, latest)
    ensures x in symbols
  {
    hide Waiting;
    if x in Served(s, symbols[1..], latest) { ServedAreOf(s, symbols[1..], latest, x); }
  }

  lemma LoopIsDistinct<S>(setup: Setup<S>, s: State<S>)
    requires Timed(setup, s) && s.phase.Looping? && |s.phase.todo| > 0
    ensures forall i :: 0 <= i < |s.phase.todo[1..]| ==> s.phase.todo[1..][i] != s.phase.todo[0]
  {
    RestHasNoDuplicates(s.phase.todo);
  }

  lemma DriveEnds<S>(setup: Setup<S>, s: State<S>, clock: nat -> int)
    requires ValidScheduler(setup.scheduler) && s.phase.Looping? && s.phase.todo == []
    ensures Drive(setup, s, clock) == s.(phase := Idle)
  {
  }

  lemma DriveStays<S>(setup: Setup<S>, s: State<S>, clock: nat -> int)
    requires ValidScheduler(setup.scheduler) && s.phase.Stopped?
    ensures Drive(setup, s, clock) == s
  {
  }

  /** A tick of the idle scheduler thread: its symbols are all those known, in order, up to the last number. */
  lemma TickBegins<S>(setup: Setup<S>, s: State<S>, clock: nat -> int)
    requires ValidScheduler(setup.scheduler) && Timed(setup, s) && Recorded(setup, s) && s.phase.Due?
    ensures var t := Drive(setup, s, clock);
            if s.records == [] || s.symbols == {} then t == s.(phase := Idle)
            else exists symbols: seq<string> ::
                   && StrictlyIncreasing(symbols) && Elements(symbols) == s.symbols
                   && t == Drive(setup, s.(phase := Looping(s.phase.planned, |s.records|, symbols)), clock)
  {
    hide Sorted;
    DriveOnce(setup, s, clock);
    if s.records != [] {
      var begun := s.(phase := Begun(s.phase.planned, |s.records|));
      DriveOnce(setup, begun, clock);
      if s.symbols != {} {
        assert Drive(setup, begun, clock)
            == Drive(setup, s.(phase := Looping(s.phase.planned, |s.records|, Sorted(s.symbols))), clock);
      }
    }
  }
}
