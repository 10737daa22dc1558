/** Per-symbol cuts of the input buffer, and what a whole history of cuts reads. */
module Cuts {
  import opened Ordering
  import opened OrchestratorContracts
  import opened InputBuffer

  datatype Cut = Cut(symbol: string, start: int, end: int, kind: CutKind)

  datatype CutError = EndNotPositive | NoRecordsForSymbol | CutStartAfterEnd

  function FirstSeq(range: seq<BufferRecord>, symbol: string): Option<int> {
    if |range| == 0 then None
    else if range[0].event.symbol == symbol then Some(range[0].seqNo)
    else FirstSeq(range[1..], symbol)
  }

  function NextCut(lastEnd: map<string, int>, records: seq<BufferRecord>, symbol: string, end: int, kind: CutKind)
    : Result<Cut, CutError>
  {
    if end <= 0 then Err(EndNotPositive)
    else
      var start := if symbol in lastEnd then Some(lastEnd[symbol] + 1) else FirstSeq(InRange(records, 1, end), symbol);
      match start
      case None => Err(NoRecordsForSymbol)
      case Some(n) => if n > end then Err(CutStartAfterEnd) else Ok(Cut(symbol, n, end, kind))
  }

  class CutSelector {
    var lastEnd: map<string, int>

    constructor ()
      ensures lastEnd == map[]
    {
      lastEnd := map[];
    }

    /** A rejected call leaves every boundary where it is. */
    method Next(buffer: RawInputBuffer, symbol: string, end: int, kind: CutKind) returns (result: Result<Cut, CutError>)
      modifies this
      ensures result == NextCut(old(lastEnd), buffer.records, symbol, end, kind)
      ensures lastEnd == if result.Ok? then old(lastEnd)[symbol := end] else old(lastEnd)
    {
      if end <= 0 {
        return Err(EndNotPositive);
      }
      var start: Option<int>;
      if symbol in lastEnd {
        start := Some(lastEnd[symbol] + 1);
      } else {
        start := FirstSeqForSymbol(buffer, symbol, end);
      }
      if start.None? {
        return Err(NoRecordsForSymbol);
      }
      if start.value > end {
        return Err(CutStartAfterEnd);
      }
      lastEnd := lastEnd[symbol := end];
      return Ok(Cut(symbol, start.value, end, kind));
    }

    static method FirstSeqForSymbol(buffer: RawInputBuffer, symbol: string, end: int) returns (first: Option<int>)
      requires end > 0
      ensures first == FirstSeq(InRange(buffer.records, 1, end), symbol)
    {
      var range := InRange(buffer.records, 1, end);
      var i := 0;
      while i < |range|
        invariant i <= |range|
        invariant FirstSeq(range, symbol) == FirstSeq(range[i..], symbol)
      {
        if range[i].event.symbol == symbol {
          return Some(range[i].seqNo);
        }
        assert range[i..][1..] == range[i + 1..];
        i := i + 1;
      }
      return None;
    }
  }

  // ----- Histories of appends and cuts -----

  datatype CutCall = Ingest(event: RawEvent, ingestTs: int) | Select(symbol: string, end: int, kind: CutKind)

  /** A cut, with the raw events read for it at the time. */
  datatype ReadCut = ReadCut(cut: Cut, events: seq<RawEvent>)

  datatype SelectorState = SelectorState(records: seq<BufferRecord>, lastEnd: map<string, int>, cuts: seq<ReadCut>)

  function Called(s: SelectorState, call: CutCall): SelectorState {
    match call
    case Ingest(event, ingestTs) => s.(records := s.records + [BufferRecord(|s.records| + 1, ingestTs, event)])
    case Select(symbol, end, kind) =>
      var result := NextCut(s.lastEnd, s.records, symbol, end, kind);
      if result.Err? then s
      else
        var read := RawEventsForCut(s.records, symbol, result.value.start, end);
        var cut := ReadCut(result.value, if read.Ok? then read.value else []);
        s.(lastEnd := s.lastEnd[symbol := end], cuts := s.cuts + [cut])
  }

  function After(calls: seq<CutCall>): SelectorState {
    if |calls| == 0 then SelectorState([], map[], [])
    else Called(After(calls[..|calls| - 1]), calls[|calls| - 1])
  }

  function Boundary(lastEnd: map<string, int>, symbol: string): int {
    if symbol in lastEnd then lastEnd[symbol] else 0
  }

  /** What all cuts of the symbol have read, one after the other. */
  function ReadFor(cuts: seq<ReadCut>, symbol: string): seq<RawEvent> {
    if |cuts| == 0 then []
    else
      var last := cuts[|cuts| - 1];
      ReadFor(cuts[..|cuts| - 1], symbol) + (if last.cut.symbol == symbol then last.events else [])
  }

  /** The numbers of the symbol's events that arrived behind its boundary, where no later cut reaches. */
  function Late(calls: seq<CutCall>, symbol: string): set<int> {
    if |calls| == 0 then {}
    else
      var before, call := calls[..|calls| - 1], calls[|calls| - 1];
      var s := After(before);
      if call.Ingest? && call.event.symbol == symbol && |s.records| + 1 <= Boundary(s.lastEnd, symbol)
      then Late(before, symbol) + {|s.records| + 1} else Late(before, symbol)
  }

  // ----- Cuts are contiguous -----

  function LastEndOf(cuts: seq<ReadCut>, symbol: string): Option<int> {
    if |cuts| == 0 then None
    else
      var last := cuts[|cuts| - 1].cut;
      if last.symbol == symbol then Some(last.end) else LastEndOf(cuts[..|cuts| - 1], symbol)
  }

  /** Each cut is not empty, and starts right after the last one of its symbol. */
  ghost predicate Chained(cuts: seq<ReadCut>) {
    |cuts| == 0 ||
    var before, last := cuts[..|cuts| - 1], cuts[|cuts| - 1].cut;
    && Chained(before)
    && 1 <= last.start <= last.end
    && match LastEndOf(before, last.symbol)
       case None => true
       case Some(end) => last.start == end + 1
  }

  lemma {:induction false} HistoryNumbered(calls: seq<CutCall>)
    ensures Numbered(After(calls).records)
  {
    if |calls| > 0 { HistoryNumbered(calls[..|calls| - 1]); }
  }

  lemma {:induction false} FirstSeqFound(range: seq<BufferRecord>, symbol: string)
    ensures FirstSeq(range, symbol).None? ==> forall i :: 0 <= i < |range| ==> range[i].event.symbol != symbol
    ensures FirstSeq(range, symbol).Some? ==>
              exists i :: && 0 <= i < |range| && range[i].seqNo == FirstSeq(range, symbol).value
                          && range[i].event.symbol == symbol
                          && forall j :: 0 <= j < i ==> range[j].event.symbol != symbol
  {
    if |range| > 0 && range[0].event.symbol != symbol {
      FirstSeqFound(range[1..], symbol);
      if FirstSeq(range, symbol).Some? {
        var i :| && 0 <= i < |range[1..]| && range[1..][i].seqNo == FirstSeq(range, symbol).value
                 && range[1..][i].event.symbol == symbol
                 && forall j :: 0 <= j < i ==> range[1..][j].event.symbol != symbol;
        assert range[i + 1] == range[1..][i];
        forall j | 0 <= j < i + 1 ensures range[j].event.symbol != symbol {
          if j > 0 { assert range[j] == range[1..][j - 1]; }
        }
      }
    }
  }

  lemma FirstOfPrefix(prefix: seq<BufferRecord>, symbol: string)
    requires Numbered(prefix) && FirstSeq(prefix, symbol).Some?
    ensures var n := FirstSeq(prefix, symbol).value;
            && 1 <= n <= |prefix| && prefix[n - 1].event.symbol == symbol
            && EventsOf(prefix[..n - 1], symbol) == []
  {
    hide EventsOf, FirstSeq;
    FirstSeqFound(prefix, symbol);
    var i :| && 0 <= i < |prefix| && prefix[i].seqNo == FirstSeq(prefix, symbol).value
             && prefix[i].event.symbol == symbol
             && forall j :: 0 <= j < i ==> prefix[j].event.symbol != symbol;
    NoneOfSymbol(prefix[..i], symbol);
  }

  /** The first cut of a symbol starts at its first event. */
  lemma FirstCutStart(records: seq<BufferRecord>, symbol: string, end: int)
    requires Numbered(records) && end >= 1
    requires FirstSeq(InRange(records, 1, end), symbol).Some?
    ensures var n := FirstSeq(InRange(records, 1, end), symbol).value;
            && 1 <= n <= end && n <= |records| && records[n - 1].event.symbol == symbol
            && EventsOf(UpTo(records, n - 1), symbol) == []
  {
    hide InRange, EventsOf, FirstSeq;
    RangeCompletes(records, 1, end);
    var prefix := UpTo(records, end);
    assert UpTo(records, 0) + InRange(records, 1, end) == InRange(records, 1, end);
    FirstOfPrefix(prefix, symbol);
    var n := FirstSeq(prefix, symbol).value;
    assert UpTo(records, n - 1) == prefix[..n - 1];
  }

  lemma {:induction false} NoneOfSymbol(records: seq<BufferRecord>, symbol: string)
    requires forall i :: 0 <= i < |records| ==> records[i].event.symbol != symbol
    ensures EventsOf(records, symbol) == []
  {
    if |records| > 0 { NoneOfSymbol(records[..|records| - 1], symbol); }
  }

  ghost predicate BoundaryIsLastEnd(s: SelectorState, symbol: string) {
    match LastEndOf(s.cuts, symbol)
    case None => symbol !in s.lastEnd
    case Some(end) => symbol in s.lastEnd && s.lastEnd[symbol] == end && end >= 1
  }

  lemma SelectChains(s: SelectorState, symbol: string, other: string, end: int, kind: CutKind)
    requires Numbered(s.records) && Chained(s.cuts) && BoundaryIsLastEnd(s, symbol) && BoundaryIsLastEnd(s, other)
    ensures Chained(Called(s, Select(other, end, kind)).cuts)
    ensures BoundaryIsLastEnd(Called(s, Select(other, end, kind)), symbol)
  {
    hide RawEventsForCut, FirstSeq, InRange, UpTo, EventsOf, Numbered;
    if NextCut(s.lastEnd, s.records, other, end, kind).Ok? {
      var cuts := Called(s, Select(other, end, kind)).cuts;
      assert cuts[..|cuts| - 1] == s.cuts;
      if other !in s.lastEnd { FirstCutStart(s.records, other, end); }
    }
  }

  /** In every history of appends and calls, accepted or not, the cuts of a symbol follow each other without
      gap or overlap, and the boundary is the end of the last one. */
  lemma {:induction false} CutsAreChained(calls: seq<CutCall>, symbol: string)
    ensures Chained(After(calls).cuts)
    ensures BoundaryIsLastEnd(After(calls), symbol)
  {
    hide Numbered, NextCut, RawEventsForCut;
    if |calls| > 0 {
      var before, call := calls[..|calls| - 1], calls[|calls| - 1];
      CutsAreChained(before, symbol);
      if call.Select? {
        CutsAreChained(before, call.symbol);
        HistoryNumbered(before);
        SelectChains(After(before), symbol, call.symbol, call.end, call.kind);
      }
    }
  }

  lemma {:induction false} EndsBeforeLast(cuts: seq<ReadCut>, i: nat)
    requires Chained(cuts) && i < |cuts|
    ensures LastEndOf(cuts, cuts[i].cut.symbol).Some?
    ensures cuts[i].cut.end <= LastEndOf(cuts, cuts[i].cut.symbol).value
  {
    if i < |cuts| - 1 { EndsBeforeLast(cuts[..|cuts| - 1], i); }
  }

  /** Two cuts of a symbol never overlap. */
  lemma {:induction false} CutsAreDisjoint(cuts: seq<ReadCut>, i: nat, j: nat)
    requires Chained(cuts) && i < j < |cuts| && cuts[i].cut.symbol == cuts[j].cut.symbol
    ensures cuts[i].cut.end < cuts[j].cut.start
  {
    var before := cuts[..|cuts| - 1];
    if j < |cuts| - 1 {
      CutsAreDisjoint(before, i, j);
    } else {
      EndsBeforeLast(before, i);
    }
  }

  // ----- Cuts conserve events -----

  lemma SingleEvent(record: BufferRecord, symbol: string)
    ensures EventsOf([record], symbol) == if record.event.symbol == symbol then [record.event] else []
  {
    assert [record][..0] == [];
    assert WithSymbol([record], symbol) == if record.event.symbol == symbol then [record] else [];
  }

  /** An append adds its event to what a boundary covers, if it arrives behind the boundary. */
  lemma EventsOfGrows(records: seq<BufferRecord>, record: BufferRecord, n: int, symbol: string)
    ensures EventsOf(UpTo(records + [record], n), symbol)
         == EventsOf(UpTo(records, n), symbol)
            + (if n > |records| && record.event.symbol == symbol then [record.event] else [])
  {
    UpToGrows(records + [record], n);
    assert (records + [record])[..|records + [record]| - 1] == records;
    if n > |records| {
      hide EventsOf;
      EventsOfConcat(UpTo(records, n), [record], symbol);
      SingleEvent(record, symbol);
    } else {
      assert UpTo(records + [record], n) == UpTo(records, n);
    }
  }

  /** An accepted cut reads what lies between the boundary of its symbol and its end. */
  lemma AcceptedCutReads(s: SelectorState, symbol: string, end: int, kind: CutKind)
    requires Numbered(s.records) && NextCut(s.lastEnd, s.records, symbol, end, kind).Ok?
    requires symbol in s.lastEnd ==> s.lastEnd[symbol] >= 1
    ensures var read := RawEventsForCut(s.records, symbol,
                                        NextCut(s.lastEnd, s.records, symbol, end, kind).value.start, end);
            && read.Ok?
            && EventsOf(UpTo(s.records, Boundary(s.lastEnd, symbol)), symbol) + read.value
               == EventsOf(UpTo(s.records, end), symbol)
  {
    hide EventsOf, RawEventsForCut;
    var start := NextCut(s.lastEnd, s.records, symbol, end, kind).value.start;
    if symbol !in s.lastEnd {
      FirstCutStart(s.records, symbol, end);
      NoneOfSymbol([], symbol);
    }
    CutCompletes(s.records, symbol, start, end);
  }

  /** The records whose numbers are not among these. */
  function Without(records: seq<BufferRecord>, numbers: set<int>): seq<BufferRecord> {
    if |records| == 0 then []
    else
      var last := records[|records| - 1];
      Without(records[..|records| - 1], numbers) + (if last.seqNo in numbers then [] else [last])
  }

  lemma {:induction false} WithoutConcat(a: seq<BufferRecord>, b: seq<BufferRecord>, numbers: set<int>)
    ensures Without(a + b, numbers) == Without(a, numbers) + Without(b, numbers)
  {
    if |b| == 0 {
      assert a + b == a;
    } else {
      assert (a + b)[..|a + b| - 1] == a + b[..|b| - 1];
      WithoutConcat(a, b[..|b| - 1], numbers);
    }
  }

  lemma {:induction false} WithoutOthers(records: seq<BufferRecord>, numbers: set<int>, more: set<int>)
    requires forall i :: 0 <= i < |records| ==> records[i].seqNo !in more
    ensures Without(records, numbers + more) == Without(records, numbers)
  {
    if |records| > 0 { WithoutOthers(records[..|records| - 1], numbers, more); }
  }

  lemma {:induction false} WithoutNone(records: seq<BufferRecord>)
    ensures Without(records, {}) == records
  {
    if |records| > 0 { WithoutNone(records[..|records| - 1]); }
  }

  /** The symbol's cuts have read what lies up to its boundary, except for the late events, and as many. */
  ghost predicate Accounts(s: SelectorState, late: set<int>, symbol: string) {
    var boundary := Boundary(s.lastEnd, symbol);
    var expected := EventsOf(UpTo(s.records, boundary), symbol);
    && ReadFor(s.cuts, symbol) == EventsOf(Without(UpTo(s.records, boundary), late), symbol)
    && |ReadFor(s.cuts, symbol)| + |late| == |expected|
    && (late == {} ==> ReadFor(s.cuts, symbol) == expected)
    && (forall n :: n in late ==> n <= boundary && n <= |s.records|)
  }

  /** What lies between two numbers holds none of the late events that lie before. */
  lemma WithoutEarlier(records: seq<BufferRecord>, late: set<int>, from: int, to: int, symbol: string)
    requires Numbered(records) && 0 <= from <= to && forall n :: n in late ==> n <= from
    ensures exists more ::
              && EventsOf(UpTo(records, to), symbol) == EventsOf(UpTo(records, from), symbol) + more
              && EventsOf(Without(UpTo(records, to), late), symbol)
                 == EventsOf(Without(UpTo(records, from), late), symbol) + more
  {
    hide EventsOf;
    var lower, upper := UpTo(records, from), UpTo(records, to);
    var tail := upper[|lower|..];
    assert upper == lower + tail;
    EventsOfConcat(lower, tail, symbol);
    WithoutConcat(lower, tail, late);
    WithoutOthers(tail, {}, late);
    assert {} + late == late;
    WithoutNone(tail);
    EventsOfConcat(Without(lower, late), tail, symbol);
  }

  /** An append behind the boundary is late and goes unread; it leaves what has been read as it is. */
  lemma IngestAccounts(s: SelectorState, late: set<int>, record: BufferRecord, symbol: string)
    requires Numbered(s.records) && record.seqNo == |s.records| + 1
    requires forall n :: n in late ==> n <= |s.records|
    ensures var boundary := Boundary(s.lastEnd, symbol);
            var lateNow := if record.event.symbol == symbol && |s.records| + 1 <= boundary
                           then late + {record.seqNo} else late;
            EventsOf(Without(UpTo(s.records + [record], boundary), lateNow), symbol)
            == EventsOf(Without(UpTo(s.records, boundary), late), symbol)
  {
    hide EventsOf;
    var boundary, records := Boundary(s.lastEnd, symbol), s.records + [record];
    UpToGrows(records, boundary);
    assert records[..|records| - 1] == s.records;
    var before := UpTo(s.records, boundary);
    if |s.records| < boundary {
      WithoutConcat(before, [record], late);
      WithoutConcat(before, [record], late + {record.seqNo});
      WithoutOthers(before, late, {record.seqNo});
      OneWithout(record, late);
      OneWithout(record, late + {record.seqNo});
      SingleEvent(record, symbol);
      EventsOfConcat(Without(before, late), [record], symbol);
      assert UpTo(records, boundary) == before + [record];
      assert Without(before, late) + [] == Without(before, late);
      assert EventsOf(Without(before, late), symbol) + [] == EventsOf(Without(before, late), symbol);
    } else {
      assert UpTo(records, boundary) == before;
    }
  }

  lemma OneWithout(record: BufferRecord, numbers: set<int>)
    ensures Without([record], numbers) == if record.seqNo in numbers then [] else [record]
  {
    assert [record][..0] == [];
  }

  lemma AcceptedCutAdvances(s: SelectorState, symbol: string, end: int, kind: CutKind)
    requires Numbered(s.records) && NextCut(s.lastEnd, s.records, symbol, end, kind).Ok?
    requires symbol in s.lastEnd ==> s.lastEnd[symbol] >= 1
    ensures 0 <= Boundary(s.lastEnd, symbol) <= end
  {
    if symbol !in s.lastEnd { FirstCutStart(s.records, symbol, end); }
  }

  lemma CutSkipsLate(s: SelectorState, late: set<int>, symbol: string, end: int, kind: CutKind)
    requires Numbered(s.records) && NextCut(s.lastEnd, s.records, symbol, end, kind).Ok?
    requires symbol in s.lastEnd ==> s.lastEnd[symbol] >= 1
    requires forall n :: n in late ==> n <= Boundary(s.lastEnd, symbol)
    ensures var read := RawEventsForCut(s.records, symbol,
                                        NextCut(s.lastEnd, s.records, symbol, end, kind).value.start, end);
            && read.Ok?
            && EventsOf(Without(UpTo(s.records, Boundary(s.lastEnd, symbol)), late), symbol) + read.value
               == EventsOf(Without(UpTo(s.records, end), late), symbol)
  {
    hide EventsOf, UpTo, RawEventsForCut, NextCut, Numbered, Without;
    AcceptedCutReads(s, symbol, end, kind);
    AcceptedCutAdvances(s, symbol, end, kind);
    var from := Boundary(s.lastEnd, symbol);
    WithoutEarlier(s.records, late, from, end, symbol);
    var read := RawEventsForCut(s.records, symbol, NextCut(s.lastEnd, s.records, symbol, end, kind).value.start,
                                end).value;
    var earlier := EventsOf(UpTo(s.records, from), symbol);
    var more :|
      && EventsOf(UpTo(s.records, end), symbol) == earlier + more
      && EventsOf(Without(UpTo(s.records, end), late), symbol)
         == EventsOf(Without(UpTo(s.records, from), late), symbol) + more;
    assert read == (earlier + read)[|earlier|..] == (earlier + more)[|earlier|..] == more;
  }

  lemma SelectAccounts(s: SelectorState, late: set<int>, symbol: string, other: string, end: int, kind: CutKind)
    requires Numbered(s.records) && Accounts(s, late, symbol)
    requires symbol in s.lastEnd ==> s.lastEnd[symbol] >= 1
    ensures Accounts(Called(s, Select(other, end, kind)), late, symbol)
  {
    hide EventsOf, UpTo, RawEventsForCut, FirstSeq, InRange, Numbered, Without;
    if NextCut(s.lastEnd, s.records, other, end, kind).Ok? {
      var cuts := Called(s, Select(other, end, kind)).cuts;
      assert cuts[..|cuts| - 1] == s.cuts;
      if other == symbol {
        AcceptedCutReads(s, symbol, end, kind);
        AcceptedCutAdvances(s, symbol, end, kind);
        CutSkipsLate(s, late, symbol, end, kind);
      }
    }
  }

  /** The cuts of a symbol read exactly its events up to the boundary, once each and in the order of ingestion, if
      and only if no event of the symbol arrived behind the boundary; otherwise they read the others, in order. */
  lemma CutConservation(calls: seq<CutCall>, symbol: string)
    ensures var s := After(calls);
            var expected := EventsOf(UpTo(s.records, Boundary(s.lastEnd, symbol)), symbol);
            && (ReadFor(s.cuts, symbol) == expected <==> Late(calls, symbol) == {})
            && |ReadFor(s.cuts, symbol)| + |Late(calls, symbol)| == |expected|
            && ReadFor(s.cuts, symbol)
               == EventsOf(Without(UpTo(s.records, Boundary(s.lastEnd, symbol)), Late(calls, symbol)), symbol)
  {
    CutsAccount(calls, symbol);
  }

  lemma {:induction false} CutsAccount(calls: seq<CutCall>, symbol: string)
    ensures Accounts(After(calls), Late(calls, symbol), symbol)
  {
    hide EventsOf, UpTo, RawEventsForCut, NextCut, Numbered, Without;
    if |calls| == 0 {
      NothingInEmpty(symbol);
    } else {
      var before, call := calls[..|calls| - 1], calls[|calls| - 1];
      CutsAccount(before, symbol);
      HistoryNumbered(before);
      CutsAreChained(before, symbol);
      var s := After(before);
      match call
      case Ingest(event, ingestTs) =>
        var record := BufferRecord(|s.records| + 1, ingestTs, event);
        EventsOfGrows(s.records, record, Boundary(s.lastEnd, symbol), symbol);
        IngestAccounts(s, Late(before, symbol), record, symbol);
      case Select(other, end, kind) =>
        SelectAccounts(s, Late(before, symbol), symbol, other, end, kind);
    }
  }

  lemma NothingInEmpty(symbol: string)
    ensures EventsOf(UpTo([], 0), symbol) == [] == EventsOf(Without(UpTo([], 0), {}), symbol)
  {
  }

  /** Every cut asked for ends at or before the last number ingested by then. */
  ghost predicate WithinBuffer(calls: seq<CutCall>) {
    |calls| == 0 ||
    var before, call := calls[..|calls| - 1], calls[|calls| - 1];
    WithinBuffer(before) && (call.Select? ==> call.end <= |After(before).records|)
  }

  /** No event arrives behind a boundary when every cut ends within the buffer. */
  lemma {:induction false} WithinBufferLosesNothing(calls: seq<CutCall>, symbol: string)
    requires WithinBuffer(calls)
    ensures Late(calls, symbol) == {}
    ensures Boundary(After(calls).lastEnd, symbol) <= |After(calls).records|
  {
    if |calls| > 0 {
      WithinBufferLosesNothing(calls[..|calls| - 1], symbol);
    }
  }

  lemma {:induction false} BoundaryGrows(calls: seq<CutCall>, more: seq<CutCall>, symbol: string)
    ensures Boundary(After(calls).lastEnd, symbol) <= Boundary(After(calls + more).lastEnd, symbol)
    ensures Late(calls, symbol) <= Late(calls + more, symbol)
  {
    if |more| == 0 {
      assert calls + more == calls;
    } else {
      var before, call := more[..|more| - 1], more[|more| - 1];
      BoundaryGrows(calls, before, symbol);
      CutsAreChained(calls + before, symbol);
      assert (calls + more)[..|calls + more| - 1] == calls + before;
      if call.Select? && call.symbol == symbol {
        BoundaryAdvances(After(calls + before), call, symbol);
      }
    }
  }

  lemma BoundaryAdvances(s: SelectorState, call: CutCall, symbol: string)
    requires call.Select? && BoundaryIsLastEnd(s, symbol)
    ensures Boundary(s.lastEnd, symbol) <= Boundary(Called(s, call).lastEnd, symbol)
  {
  }

  /** Every accepted cut that ends beyond the buffer loses the symbol's events that arrive later up to its end, whatever
      is appended and cut in between and afterwards: they stay late, and the cuts never again read all events up to
      their boundary. */
  lemma CutBeyondTheBufferLoses(calls: seq<CutCall>, cut: CutCall, between: seq<CutCall>, arrival: CutCall,
                                afterwards: seq<CutCall>)
    requires cut.Select? && arrival.Ingest? && arrival.event.symbol == cut.symbol
    requires NextCut(After(calls).lastEnd, After(calls).records, cut.symbol, cut.end, cut.kind).Ok?
    requires |After(calls + [cut] + between).records| < cut.end
    ensures var all := calls + [cut] + between + [arrival] + afterwards;
            var s := After(all);
            && |After(calls + [cut] + between).records| + 1 in Late(all, cut.symbol)
            && ReadFor(s.cuts, cut.symbol) != EventsOf(UpTo(s.records, Boundary(s.lastEnd, cut.symbol)), cut.symbol)
  {
    hide NextCut, RawEventsForCut, EventsOf, UpTo, ReadFor, Without;
    var symbol := cut.symbol;
    assert (calls + [cut])[..|calls|] == calls;
    BoundaryGrows(calls + [cut], between, symbol);
    var before := calls + [cut] + between;
    assert (before + [arrival])[..|before|] == before;
    BoundaryGrows(before + [arrival], afterwards, symbol);
    CutConservation(before + [arrival] + afterwards, symbol);
  }

  /** Number 2 arrives behind the boundary that a cut up to 2 has set over a buffer of one. */
  lemma LosingHistory(event: RawEvent)
    ensures var calls := [Ingest(event, 0), Select(event.symbol, 2, TimerCut), Ingest(event, 1)];
            2 in Late(calls, event.symbol)
  {
    hide NextCut, RawEventsForCut, EventsOf, UpTo, ReadFor;
    var one, cut, arrival := [Ingest(event, 0)], Select(event.symbol, 2, TimerCut), Ingest(event, 1);
    assert one[..0] == [] && one + [cut] + [] == [Ingest(event, 0), cut];
    assert [Ingest(event, 0), cut][..1] == one;
    assert After(one) == SelectorState([BufferRecord(1, 0, event)], map[], []);
    SecondCall(event);
    assert |After(one + [cut] + []).records| == 1;
    CutBeyondTheBufferLoses(one, cut, [], arrival, []);
    assert one + [cut] + [] + [arrival] + [] == [Ingest(event, 0), cut, arrival];
  }

  lemma SecondCall(event: RawEvent)
    ensures var record := BufferRecord(1, 0, event);
            NextCut(map[], [record], event.symbol, 2, TimerCut) == Ok(Cut(event.symbol, 1, 2, TimerCut))
  {
    var record := BufferRecord(1, 0, event);
    assert [record][..0] == [];
    assert InRange([record], 1, 2) == [record];
  }
}
