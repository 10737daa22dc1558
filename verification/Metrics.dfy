/** The run-length metrics over a log of regime decisions. */
module Metrics {
  import opened Ordering

  datatype LogRecord = LogRecord(truthRegime: string, selectedRegime: string, timestamp: int)

  datatype Key = TruthKey | StabilizedKey

  function RegimeOf(record: LogRecord, key: Key): string {
    if key == TruthKey then record.truthRegime else record.selectedRegime
  }

  function Labels(records: seq<LogRecord>, key: Key): seq<string> {
    seq(|records|, i requires 0 <= i < |records| => RegimeOf(records[i], key))
  }

  // ----- Runs of one regime -----

  datatype RegimeRun = RegimeRun(regime: string, count: nat, start: int, end: int, duration: int)

  /** The finished runs, and the one that is still open. */
  datatype Scan = Scan(closed: seq<RegimeRun>, current: string, start: int, count: nat)

  function Closed(s: Scan, end: int): seq<RegimeRun> {
    s.closed + [RegimeRun(s.current, s.count, s.start, end, end - s.start)]
  }

  function Scanned(records: seq<LogRecord>, key: Key): Scan
    requires |records| > 0
  {
    var n := |records| - 1;
    var last := records[n];
    if n == 0 then Scan([], RegimeOf(last, key), last.timestamp, 1)
    else
      var before := Scanned(records[..n], key);
      if RegimeOf(last, key) == before.current then before.(count := before.count + 1)
      else Scan(Closed(before, last.timestamp), RegimeOf(last, key), last.timestamp, 1)
  }

  function Runs(records: seq<LogRecord>, key: Key): seq<RegimeRun> {
    if |records| == 0 then [] else Closed(Scanned(records, key), records[|records| - 1].timestamp)
  }

  lemma ScanStep(records: seq<LogRecord>, key: Key, i: nat)
    requires 0 < i < |records|
    ensures var before := Scanned(records[..i], key);
            Scanned(records[..i + 1], key)
            == if RegimeOf(records[i], key) == before.current then before.(count := before.count + 1)
               else Scan(Closed(before, records[i].timestamp), RegimeOf(records[i], key), records[i].timestamp, 1)
  {
    assert records[..i + 1][..i] == records[..i];
  }

  lemma ScanOne(records: seq<LogRecord>, key: Key)
    requires |records| > 0
    ensures Scanned(records[..1], key) == Scan([], RegimeOf(records[0], key), records[0].timestamp, 1)
  {
  }

  method RegimeRuns(records: seq<LogRecord>, key: Key) returns (runs: seq<RegimeRun>)
    ensures runs == Runs(records, key)
  {
    hide Scanned;
    if |records| == 0 {
      return [];
    }
    ScanOne(records, key);
    runs := [];
    var current, start, count := RegimeOf(records[0], key), records[0].timestamp, 1;
    for i := 1 to |records|
      invariant count > 0 && Scanned(records[..i], key) == Scan(runs, current, start, count)
    {
      ScanStep(records, key, i);
      var regime := RegimeOf(records[i], key);
      if regime == current {
        count := count + 1;
      } else {
        var end := records[i].timestamp;
        runs := runs + [RegimeRun(current, count, start, end, end - start)];
        current, start, count := regime, records[i].timestamp, 1;
      }
    }
    assert records[..|records|] == records;
    var end := records[|records| - 1].timestamp;
    runs := runs + [RegimeRun(current, count, start, end, end - start)];
  }

  function Expand(runs: seq<RegimeRun>): seq<string> {
    if |runs| == 0 then []
    else Expand(runs[..|runs| - 1]) + seq(runs[|runs| - 1].count, _ => runs[|runs| - 1].regime)
  }

  /** Neighbours differ, touch in time, and none is empty. */
  ghost predicate Proper(runs: seq<RegimeRun>) {
    && (forall i :: 0 <= i < |runs| ==> runs[i].count > 0 && runs[i].duration == runs[i].end - runs[i].start)
    && (forall i :: 0 < i < |runs| ==> runs[i - 1].regime != runs[i].regime && runs[i - 1].end == runs[i].start)
  }

  lemma ExpandClosed(s: Scan, end: int)
    ensures Expand(Closed(s, end)) == Expand(s.closed) + seq(s.count, _ => s.current)
  {
    assert Closed(s, end)[..|s.closed|] == s.closed;
  }

  lemma ProperLonger(s: Scan, end: int, later: int)
    requires Proper(Closed(s, end))
    ensures Proper(Closed(s.(count := s.count + 1), later))
    ensures Closed(s.(count := s.count + 1), later)[0].start == Closed(s, end)[0].start
  {
    var a, b := Closed(s, end), Closed(s.(count := s.count + 1), later);
    assert forall i :: 0 <= i < |s.closed| ==> a[i] == b[i];
    assert a[|s.closed|].start == b[|s.closed|].start && a[|s.closed|].regime == b[|s.closed|].regime;
  }

  lemma ProperOpens(s: Scan, end: int, regime: string)
    requires Proper(Closed(s, end)) && regime != s.current
    ensures Proper(Closed(Scan(Closed(s, end), regime, end, 1), end))
  {
    var a := Closed(s, end);
    var b := Closed(Scan(a, regime, end, 1), end);
    assert forall i :: 0 <= i < |a| ==> a[i] == b[i];
    assert b[|a| - 1].regime == s.current && b[|a| - 1].end == end;
  }

  /** The last step of a scan. */
  lemma ScanLast(records: seq<LogRecord>, key: Key)
    requires |records| > 1
    ensures var n := |records| - 1;
            var before := Scanned(records[..n], key);
            Scanned(records, key)
            == if RegimeOf(records[n], key) == before.current then before.(count := before.count + 1)
               else Scan(Closed(before, records[n].timestamp), RegimeOf(records[n], key), records[n].timestamp, 1)
  {
  }

  lemma {:induction false} ScanCurrent(records: seq<LogRecord>, key: Key)
    requires |records| > 0
    ensures Scanned(records, key).count > 0
    ensures Scanned(records, key).current == RegimeOf(records[|records| - 1], key)
  {
    if |records| > 1 { ScanCurrent(records[..|records| - 1], key); }
  }

  lemma {:induction false} ScanIsProper(records: seq<LogRecord>, key: Key)
    requires |records| > 0
    ensures var runs := Closed(Scanned(records, key), records[|records| - 1].timestamp);
            Proper(runs) && runs[0].start == records[0].timestamp
  {
    var n := |records| - 1;
    if n > 0 {
      hide Scanned, Proper;
      var before := Scanned(records[..n], key);
      ScanIsProper(records[..n], key);
      ScanLast(records, key);
      ProperLonger(before, records[n - 1].timestamp, records[n].timestamp);
      if RegimeOf(records[n], key) != before.current {
        ProperEnd(before, records[n - 1].timestamp, records[n].timestamp);
        ProperOpens(before, records[n].timestamp, RegimeOf(records[n], key));
      }
    }
  }

  lemma ProperEnd(s: Scan, end: int, later: int)
    requires Proper(Closed(s, end))
    ensures Proper(Closed(s, later))
  {
    var a, b := Closed(s, end), Closed(s, later);
    assert forall i :: 0 <= i < |s.closed| ==> a[i] == b[i];
    assert a[|s.closed|].start == b[|s.closed|].start && a[|s.closed|].regime == b[|s.closed|].regime;
    assert b[|s.closed|].count == a[|s.closed|].count;
  }

  lemma {:induction false} ScanSpells(records: seq<LogRecord>, key: Key)
    requires |records| > 0
    ensures var s := Scanned(records, key); Expand(s.closed) + seq(s.count, _ => s.current) == Labels(records, key)
  {
    hide Expand;
    var n := |records| - 1;
    if n == 0 {
      NothingExpands();
    } else {
      var before := Scanned(records[..n], key);
      ScanSpells(records[..n], key);
      ScanLast(records, key);
      assert Labels(records, key) == Labels(records[..n], key) + [RegimeOf(records[n], key)];
      OneMore(before.count, before.current);
      ExpandClosed(before, records[n].timestamp);
    }
  }

  lemma NothingExpands()
    ensures Expand([]) == []
  {
  }

  lemma OneMore(n: nat, x: string)
    ensures seq(n + 1, _ => x) == seq(n, _ => x) + [x]
  {
  }

  /** The runs spell out the log: written out they give the regimes back, neighbours differ and touch, and they span the
      log from its first to its last timestamp. */
  lemma RunsSpellTheLog(records: seq<LogRecord>, key: Key)
    ensures Expand(Runs(records, key)) == Labels(records, key) && Proper(Runs(records, key))
    ensures |records| > 0 ==>
              var runs := Runs(records, key);
              |runs| > 0 && runs[0].start == records[0].timestamp
                && runs[|runs| - 1].end == records[|records| - 1].timestamp
  {
    if |records| > 0 {
      ScanIsProper(records, key);
      ScanSpells(records, key);
      ExpandClosed(Scanned(records, key), records[|records| - 1].timestamp);
    }
  }

  // ----- What the runs say of the records -----

  function TotalCount(runs: seq<RegimeRun>): nat {
    if |runs| == 0 then 0 else TotalCount(runs[..|runs| - 1]) + runs[|runs| - 1].count
  }

  predicate Shows(record: LogRecord, key: Key, regime: string) {
    && (key == TruthKey ==> record.truthRegime == regime)
    && (key == StabilizedKey ==> record.selectedRegime == regime)
  }

  /** Run `k` covers the `count` records after those of the runs before it: they show its regime, and it lasts from the
      first of them to the record after them, if there is one. */
  ghost predicate Covers(records: seq<LogRecord>, key: Key, runs: seq<RegimeRun>, k: nat)
    requires k < |runs|
  {
    var first := TotalCount(runs[..k]);
    var next := first + runs[k].count;
    && first < next <= |records|
    && (forall i :: first <= i < next ==> Shows(records[i], key, runs[k].regime))
    && runs[k].start == records[first].timestamp
    && runs[k].end == (if next < |records| then records[next] else records[|records| - 1]).timestamp
  }

  lemma ClosedCovers(records: seq<LogRecord>, key: Key, s: Scan, k: nat)
    requires |records| > 0
    ensures var runs := Closed(s, records[|records| - 1].timestamp);
            && TotalCount(runs) == TotalCount(s.closed) + s.count
            && (k < |s.closed| ==> runs[..k] == s.closed[..k]
                                   && (Covers(records, key, runs, k) <==> Covers(records, key, s.closed, k)))
  {
    var runs := Closed(s, records[|records| - 1].timestamp);
    assert runs[..|s.closed|] == s.closed;
    if k < |s.closed| { assert runs[..k] == s.closed[..k]; }
  }

  /** A closed run keeps covering its records when the log grows. */
  lemma StillCovers(records: seq<LogRecord>, key: Key, runs: seq<RegimeRun>, k: nat)
    requires |records| > 1 && k < |runs| && Covers(records[..|records| - 1], key, runs, k)
    requires TotalCount(runs[..k]) + runs[k].count < |records| - 1
    ensures Covers(records, key, runs, k)
  {
  }

  /** The runs closed so far cover records before the last. */
  ghost predicate ClosedCover(records: seq<LogRecord>, key: Key, closed: seq<RegimeRun>) {
    forall k: nat :: k < |closed| ==>
      Covers(records, key, closed, k) && TotalCount(closed[..k]) + closed[k].count < |records|
  }

  lemma {:induction false} ScanCovers(records: seq<LogRecord>, key: Key)
    requires |records| > 0
    ensures var s := Scanned(records, key);
            && TotalCount(s.closed) + s.count == |records| && s.count > 0
            && Covers(records, key, Closed(s, records[|records| - 1].timestamp), |s.closed|)
            && ClosedCover(records, key, s.closed)
  {
    var n := |records| - 1;
    if n > 0 {
      hide Scanned, Covers, TotalCount, Closed, ClosedCover;
      ScanCovers(records[..n], key);
      ScanLast(records, key);
      LastCovers(records, key, Scanned(records[..n], key), Scanned(records, key));
      EarlierCover(records, key, Scanned(records[..n], key), Scanned(records, key));
    } else {
      ScanOne(records, key);
      assert records[..1] == records;
      assert Closed(Scanned(records, key), records[0].timestamp)[..0] == [];
    }
  }

  lemma EarlierCover(records: seq<LogRecord>, key: Key, before: Scan, s: Scan)
    requires |records| > 1 && ClosedCover(records[..|records| - 1], key, before.closed)
    requires |s.closed| <= |before.closed| + 1 && before.closed <= s.closed
    requires |s.closed| > |before.closed| ==>
               && Covers(records, key, s.closed, |before.closed|)
               && TotalCount(s.closed[..|before.closed|]) + s.closed[|before.closed|].count < |records|
    ensures ClosedCover(records, key, s.closed)
  {
    hide Covers, TotalCount;
    forall k: nat | k < |s.closed|
      ensures Covers(records, key, s.closed, k) && TotalCount(s.closed[..k]) + s.closed[k].count < |records|
    {
      if k < |before.closed| {
        assert s.closed[..k] == before.closed[..k];
        StillCovers(records, key, before.closed, k);
        SameCovers(records, key, before.closed, s.closed, k);
      }
    }
  }

  lemma SameCovers(records: seq<LogRecord>, key: Key, a: seq<RegimeRun>, b: seq<RegimeRun>, k: nat)
    requires k < |a| && k < |b| && a[..k + 1] == b[..k + 1] && Covers(records, key, a, k)
    ensures Covers(records, key, b, k)
  {
    assert a[..k] == a[..k + 1][..k] && b[..k] == b[..k + 1][..k];
    assert a[k] == a[..k + 1][k] && b[k] == b[..k + 1][k];
  }

  lemma LastCovers(records: seq<LogRecord>, key: Key, before: Scan, s: Scan)
    requires |records| > 1 && before.count > 0
    requires TotalCount(before.closed) + before.count == |records| - 1
    requires Covers(records[..|records| - 1], key, Closed(before, records[|records| - 2].timestamp), |before.closed|)
    requires s == if RegimeOf(records[|records| - 1], key) == before.current then before.(count := before.count + 1)
                  else Scan(Closed(before, records[|records| - 1].timestamp), RegimeOf(records[|records| - 1], key),
                            records[|records| - 1].timestamp, 1)
    ensures |before.closed| <= |s.closed| <= |before.closed| + 1 && before.closed <= s.closed
    ensures TotalCount(s.closed) + s.count == |records| && s.count > 0
    ensures Covers(records, key, Closed(s, records[|records| - 1].timestamp), |s.closed|)
    ensures |s.closed| > |before.closed| ==>
              && Covers(records, key, s.closed, |before.closed|)
              && TotalCount(s.closed[..|before.closed|]) + s.closed[|before.closed|].count < |records|
  {
    var end := records[|records| - 1].timestamp;
    assert Closed(before, records[|records| - 2].timestamp)[..|before.closed|] == before.closed;
    assert Closed(before, end)[..|before.closed|] == before.closed;
    assert Closed(s, end)[..|s.closed|] == s.closed;
  }

  /** The runs divide the log: each covers a stretch of records, by index and field, and together they cover all. */
  lemma RunsCoverTheLog(records: seq<LogRecord>, key: Key)
    ensures TotalCount(Runs(records, key)) == |records|
    ensures forall k: nat :: k < |Runs(records, key)| ==> Covers(records, key, Runs(records, key), k)
  {
    hide Scanned, Covers, TotalCount;
    if |records| == 0 {
      NothingCounts();
    } else {
      var s := Scanned(records, key);
      var runs := Closed(s, records[|records| - 1].timestamp);
      assert Runs(records, key) == runs;
      ScanCovers(records, key);
      hide Closed;
      ClosedCovers(records, key, s, 0);
      forall k: nat | k < |runs| ensures Covers(records, key, runs, k) {
        ClosedCovers(records, key, s, k);
      }
    }
  }

  lemma NothingCounts()
    ensures TotalCount([]) == 0
  {
  }

  function TotalDuration(runs: seq<RegimeRun>): int {
    if |runs| == 0 then 0 else TotalDuration(runs[..|runs| - 1]) + runs[|runs| - 1].duration
  }

  lemma {:induction false} DurationsTelescope(runs: seq<RegimeRun>)
    requires Proper(runs) && |runs| > 0
    ensures TotalDuration(runs) == runs[|runs| - 1].end - runs[0].start
  {
    if |runs| == 1 {
      assert runs[..0] == [];
    } else {
      DurationsTelescope(runs[..|runs| - 1]);
    }
  }

  /** The durations of all runs add up to the time between the first and the last record. */
  lemma DurationsAddUp(records: seq<LogRecord>, key: Key)
    requires |records| > 0
    ensures TotalDuration(Runs(records, key)) == records[|records| - 1].timestamp - records[0].timestamp
  {
    RunsSpellTheLog(records, key);
    DurationsTelescope(Runs(records, key));
  }

  // ----- Persistence -----

  function CountsByRegime(runs: seq<RegimeRun>): map<string, seq<nat>> {
    if |runs| == 0 then map[]
    else Counted(CountsByRegime(runs[..|runs| - 1]), runs[|runs| - 1].regime, runs[|runs| - 1].count)
  }

  function Counted(counts: map<string, seq<nat>>, regime: string, count: nat): map<string, seq<nat>> {
    counts[regime := (if regime in counts then counts[regime] else []) + [count]]
  }

  lemma CountClosed(s: Scan, end: int)
    ensures CountsByRegime([]) == map[]
    ensures CountsByRegime(Closed(s, end)) == Counted(CountsByRegime(s.closed), s.current, s.count)
  {
    assert Closed(s, end)[..|s.closed|] == s.closed;
  }

  /** The lengths of the runs of each regime, in their order. */
  method RegimePersistence(records: seq<LogRecord>, key: Key) returns (counts: map<string, seq<nat>>)
    ensures counts == CountsByRegime(Runs(records, key))
  {
    hide Scanned, CountsByRegime, Counted;
    if |records| == 0 {
      CountClosed(Scan([], "", 0, 0), 0);
      return map[];
    }
    ScanOne(records, key);
    CountClosed(Scan([], "", 0, 0), 0);
    counts := map[];
    var current, count := RegimeOf(records[0], key), 1;
    for i := 1 to |records|
      invariant count > 0
      invariant var s := Scanned(records[..i], key);
                counts == CountsByRegime(s.closed) && current == s.current && count == s.count
    {
      ScanStep(records, key, i);
      var regime := RegimeOf(records[i], key);
      if regime == current {
        count := count + 1;
      } else {
        CountClosed(Scanned(records[..i], key), records[i].timestamp);
        counts := Counted(counts, current, count);
        current, count := regime, 1;
      }
    }
    assert records[..|records|] == records;
    CountClosed(Scanned(records, key), records[|records| - 1].timestamp);
    counts := Counted(counts, current, count);
  }

  function SumOf(counts: seq<nat>): nat {
    if |counts| == 0 then 0 else SumOf(counts[..|counts| - 1]) + counts[|counts| - 1]
  }

  function CountsOf(counts: map<string, seq<nat>>, regime: string): seq<nat> {
    if regime in counts then counts[regime] else []
  }

  lemma CountsStep(runs: seq<RegimeRun>, regime: string)
    requires |runs| > 0
    ensures var n := |runs| - 1;
            && CountsOf(CountsByRegime(runs), regime)
               == CountsOf(CountsByRegime(runs[..n]), regime)
                 + (if runs[n].regime == regime then [runs[n].count] else [])
            && CountsIn(runs, regime)
               == CountsIn(runs[..n], regime) + (if runs[n].regime == regime then [runs[n].count] else [])
  {
    hide Expand;
  }

  lemma OccurrencesStep(runs: seq<RegimeRun>, regime: string)
    requires |runs| > 0
    ensures var n := |runs| - 1;
            multiset(Expand(runs))[regime]
            == multiset(Expand(runs[..n]))[regime] + (if runs[n].regime == regime then runs[n].count else 0)
  {
    var n := |runs| - 1;
    Repeated(runs[n].count, runs[n].regime, regime);
    assert Expand(runs) == Expand(runs[..n]) + seq(runs[n].count, _ => runs[n].regime);
  }

  lemma SumSnoc(counts: seq<nat>, n: nat)
    ensures SumOf(counts + [n]) == SumOf(counts) + n
  {
    assert (counts + [n])[..|counts|] == counts;
  }

  /** A regime's counts are those of its runs in order, and add up to how often it occurs in the log. */
  lemma {:induction false} CountsAreOccurrences(runs: seq<RegimeRun>, regime: string)
    ensures SumOf(CountsOf(CountsByRegime(runs), regime)) == multiset(Expand(runs))[regime]
    ensures CountsOf(CountsByRegime(runs), regime) == CountsIn(runs, regime)
  {
    if |runs| > 0 {
      hide CountsOf, CountsByRegime, CountsIn, Expand, SumOf;
      var n := |runs| - 1;
      CountsAreOccurrences(runs[..n], regime);
      CountsStep(runs, regime);
      OccurrencesStep(runs, regime);
      SumSnoc(CountsOf(CountsByRegime(runs[..n]), regime), runs[n].count);
    }
  }

  function CountsIn(runs: seq<RegimeRun>, regime: string): seq<nat> {
    if |runs| == 0 then []
    else
      CountsIn(runs[..|runs| - 1], regime)
      + (if runs[|runs| - 1].regime == regime then [runs[|runs| - 1].count] else [])
  }

  lemma {:induction false} Repeated(n: nat, x: string, y: string)
    ensures multiset(seq(n, _ => x))[y] == if x == y then n else 0
  {
    if n > 0 {
      Repeated(n - 1, x, y);
      assert seq(n, _ => x) == seq(n - 1, _ => x) + [x];
    }
  }

  // ----- Flips -----

  datatype FlipFrequency = FlipFrequency(flips: nat, updates: nat, ratePerUpdate: real, ratePerHour: Option<real>)

  function Flips(labels: seq<string>): nat {
    if |labels| < 2 then 0
    else Flips(labels[..|labels| - 1]) + (if labels[|labels| - 1] != labels[|labels| - 2] then 1 else 0)
  }

  lemma NoFlips(labels: seq<string>)
    requires |labels| < 2
    ensures Flips(labels) == 0
  {
  }

  method CountFlips(records: seq<LogRecord>, key: Key) returns (frequency: FlipFrequency)
    ensures frequency.flips == Flips(Labels(records, key)) && frequency.updates == |records|
    ensures frequency.ratePerUpdate == if |records| < 2 then 0.0
            else (frequency.flips as real) / ((|records| - 1) as real)
    ensures frequency.ratePerHour.Some? <==> |records| >= 2 && records[|records| - 1].timestamp > records[0].timestamp
    ensures frequency.ratePerHour.Some? ==>
              frequency.ratePerHour.value * ((records[|records| - 1].timestamp - records[0].timestamp) as real)
              == (frequency.flips as real) * 3600000.0
  {
    if |records| < 2 {
      NoFlips(Labels(records, key));
      return FlipFrequency(0, |records|, 0.0, None);
    }
    hide Flips;
    var labels := Labels(records, key);
    var flips, last := 0, RegimeOf(records[0], key);
    NoFlips(labels[..1]);
    for i := 1 to |records|
      invariant flips >= 0 && flips == Flips(labels[..i]) && last == labels[i - 1]
    {
      FlipsStep(records, key, i);
      var regime := RegimeOf(records[i], key);
      if regime != last {
        flips := flips + 1;
      }
      last := regime;
    }
    assert labels[..|records|] == labels;
    var duration := records[|records| - 1].timestamp - records[0].timestamp;
    var perHour: Option<real> := None;
    if duration > 0 {
      perHour := Some((flips as real) / ((duration as real) / 3600000.0));
      RatePerHour(flips as real, duration as real);
    }
    return FlipFrequency(flips, |records|, (flips as real) / ((|records| - 1) as real), perHour);
  }

  lemma RatePerHour(flips: real, duration: real)
    requires duration > 0.0
    ensures flips / (duration / 3600000.0) * duration == flips * 3600000.0
  {
    var hours := duration / 3600000.0;
    assert hours > 0.0 && hours * 3600000.0 == duration;
    assert flips / hours * hours == flips;
    assert flips / hours * duration == flips / hours * hours * 3600000.0;
  }

  lemma FlipsStep(records: seq<LogRecord>, key: Key, i: nat)
    requires 0 < i < |records|
    ensures var labels := Labels(records, key);
            Flips(labels[..i + 1]) == Flips(labels[..i]) + (if labels[i] != labels[i - 1] then 1 else 0)
  {
    var labels := Labels(records, key);
    assert labels[..i + 1][..i] == labels[..i];
  }

  lemma {:induction false} ScanFlips(records: seq<LogRecord>, key: Key)
    requires |records| > 0
    ensures Flips(Labels(records, key)) == |Scanned(records, key).closed|
  {
    var n := |records| - 1;
    if n > 0 {
      hide Scanned, Flips;
      ScanFlips(records[..n], key);
      ScanCurrent(records[..n], key);
      ScanLast(records, key);
      FlipsStep(records, key, n);
      assert Labels(records, key)[..n] == Labels(records[..n], key);
      assert Labels(records, key)[..n + 1] == Labels(records, key);
    }
  }

  /** There is one flip less than there are runs. */
  lemma FlipsAreRunsLessOne(records: seq<LogRecord>, key: Key)
    requires |records| > 0
    ensures Flips(Labels(records, key)) == |Runs(records, key)| - 1
  {
    ScanFlips(records, key);
  }

  // ----- Time in a regime -----

  function TimeSpent(records: seq<LogRecord>, key: Key): map<string, int> {
    if |records| < 2 then map[]
    else
      var n := |records| - 1;
      var before, regime := TimeSpent(records[..n], key), RegimeOf(records[n - 1], key);
      before[regime := SpentIn(before, regime) + (records[n].timestamp - records[n - 1].timestamp)]
  }

  function SpentIn(totals: map<string, int>, regime: string): int {
    if regime in totals then totals[regime] else 0
  }

  method TimeInRegime(records: seq<LogRecord>, key: Key) returns (totals: map<string, int>)
    ensures totals == TimeSpent(records, key)
  {
    totals := map[];
    if |records| < 2 {
      return;
    }
    for i := 1 to |records|
      invariant totals == TimeSpent(records[..i], key)
    {
      assert records[..i + 1][..i] == records[..i];
      var regime := RegimeOf(records[i - 1], key);
      var delta := records[i].timestamp - records[i - 1].timestamp;
      totals := totals[regime := SpentIn(totals, regime) + delta];
    }
    assert records[..|records|] == records;
  }

  function DurationIn(runs: seq<RegimeRun>, regime: string): int {
    if |runs| == 0 then 0
    else
      DurationIn(runs[..|runs| - 1], regime)
      + (if runs[|runs| - 1].regime == regime then runs[|runs| - 1].duration else 0)
  }

  lemma DurationClosed(s: Scan, end: int, regime: string)
    ensures DurationIn(Closed(s, end), regime)
            == DurationIn(s.closed, regime) + (if s.current == regime then end - s.start else 0)
  {
    assert Closed(s, end)[..|s.closed|] == s.closed;
  }

  /** The time in a regime is the sum of the durations of its runs, and a regime is listed exactly if it occurs before
      the last record. */
  lemma {:induction false} TimeIsRunDurations(records: seq<LogRecord>, key: Key, regime: string)
    ensures SpentIn(TimeSpent(records, key), regime) == DurationIn(Runs(records, key), regime)
    ensures regime in TimeSpent(records, key)
            <==> exists i :: 0 <= i < |records| - 1 && RegimeOf(records[i], key) == regime
  {
    hide Runs, TimeSpent;
    if |records| <= 1 {
      OneRecord(records, key, regime);
    } else {
      var n := |records| - 1;
      TimeIsRunDurations(records[..n], key, regime);
      TimeStep(records, key, regime);
      RunsStep(records, key, regime);
    }
  }

  lemma OneRecord(records: seq<LogRecord>, key: Key, regime: string)
    requires |records| <= 1
    ensures TimeSpent(records, key) == map[] && DurationIn(Runs(records, key), regime) == 0
  {
    if |records| == 1 { DurationClosed(Scanned(records, key), records[0].timestamp, regime); }
  }

  lemma TimeStep(records: seq<LogRecord>, key: Key, regime: string)
    requires |records| > 1
    ensures var n := |records| - 1;
            var here := RegimeOf(records[n - 1], key) == regime;
            && SpentIn(TimeSpent(records, key), regime)
               == SpentIn(TimeSpent(records[..n], key), regime)
                 + (if here then records[n].timestamp - records[n - 1].timestamp else 0)
            && (regime in TimeSpent(records, key) <==> here || regime in TimeSpent(records[..n], key))
  {
  }

  lemma RunsStep(records: seq<LogRecord>, key: Key, regime: string)
    requires |records| > 1
    ensures var n := |records| - 1;
            DurationIn(Runs(records, key), regime)
            == DurationIn(Runs(records[..n], key), regime)
               + (if RegimeOf(records[n - 1], key) == regime then records[n].timestamp - records[n - 1].timestamp
                  else 0)
  {
    var n := |records| - 1;
    var before := Scanned(records[..n], key);
    ScanCurrent(records[..n], key);
    ScanLast(records, key);
    DurationClosed(Scanned(records, key), records[n].timestamp, regime);
    DurationClosed(before, records[n - 1].timestamp, regime);
    DurationClosed(before, records[n].timestamp, regime);
  }
}
