/** The append-only buffer of raw market events. */
module InputBuffer {
  import opened Ordering

  /** What the orchestrator reads of a raw event, and the rest of it. */
  datatype RawEvent = RawEvent(symbol: string, eventType: string, content: string)

  datatype BufferRecord = BufferRecord(seqNo: int, ingestTs: int, event: RawEvent)

  datatype BufferError = BufferFull | StartAfterEnd

  /** Ingest numbers count from one, without gaps. */
  ghost predicate Numbered(records: seq<BufferRecord>) {
    forall i :: 0 <= i < |records| ==> records[i].seqNo == i + 1
  }

  function InRange(records: seq<BufferRecord>, start: int, end: int): seq<BufferRecord> {
    if |records| == 0 then []
    else
      var last := records[|records| - 1];
      InRange(records[..|records| - 1], start, end) + (if start <= last.seqNo <= end then [last] else [])
  }

  function WithSymbol(records: seq<BufferRecord>, symbol: string): seq<BufferRecord> {
    if |records| == 0 then []
    else
      var last := records[|records| - 1];
      WithSymbol(records[..|records| - 1], symbol) + (if last.event.symbol == symbol then [last] else [])
  }

  function Events(records: seq<BufferRecord>): seq<RawEvent> {
    seq(|records|, i requires 0 <= i < |records| => records[i].event)
  }

  function RangeBySeq(records: seq<BufferRecord>, start: int, end: int): Result<seq<BufferRecord>, BufferError> {
    if start > end then Err(StartAfterEnd) else Ok(InRange(records, start, end))
  }

  function RangeBySymbol(records: seq<BufferRecord>, symbol: string, start: int, end: int)
    : Result<seq<BufferRecord>, BufferError>
  {
    match RangeBySeq(records, start, end)
    case Err(e) => Err(e)
    case Ok(range) => Ok(WithSymbol(range, symbol))
  }

  /** The raw events of a cut, as the live loop and the replay both read them. */
  function RawEventsForCut(records: seq<BufferRecord>, symbol: string, start: int, end: int)
    : Result<seq<RawEvent>, BufferError>
  {
    match RangeBySymbol(records, symbol, start, end)
    case Err(e) => Err(e)
    case Ok(selected) => Ok(Events(selected))
  }

  // ----- What ranges mean -----

  /** The records numbered up to n. */
  function UpTo(records: seq<BufferRecord>, n: int): seq<BufferRecord> {
    if n <= 0 then [] else if n >= |records| then records else records[..n]
  }

  /** All events of the symbol in the order of ingestion. */
  function EventsOf(records: seq<BufferRecord>, symbol: string): seq<RawEvent> {
    Events(WithSymbol(records, symbol))
  }

  /** A range is what its end adds to the records before its start. */
  lemma {:induction false} RangeCompletes(records: seq<BufferRecord>, start: int, end: int)
    requires Numbered(records) && start <= end + 1
    ensures UpTo(records, start - 1) + InRange(records, start, end) == UpTo(records, end)
  {
    if |records| > 0 {
      var n := |records|;
      var init, last := records[..n - 1], records[n - 1];
      RangeCompletes(init, start, end);
      UpToGrows(records, start - 1);
      UpToGrows(records, end);
      assert last.seqNo == n;
      var before, range := UpTo(init, start - 1), InRange(init, start, end);
      if end >= n {
        if start <= n {
          assert before + (range + [last]) == (before + range) + [last];
        } else {
          EmptyRange(records, start, end);
        }
      }
    }
  }

  lemma UpToGrows(records: seq<BufferRecord>, n: int)
    requires |records| > 0
    ensures UpTo(records, n) == UpTo(records[..|records| - 1], n)
            + (if n >= |records| then [records[|records| - 1]] else [])
  {
    assert records == records[..|records| - 1] + [records[|records| - 1]];
    if 0 < n < |records| { assert records[..n] == records[..|records| - 1][..n]; }
  }

  lemma {:induction false} EmptyRange(records: seq<BufferRecord>, start: int, end: int)
    requires Numbered(records) && start > |records|
    ensures InRange(records, start, end) == []
  {
    if |records| > 0 { EmptyRange(records[..|records| - 1], start, end); }
  }

  lemma {:induction false} WithSymbolConcat(a: seq<BufferRecord>, b: seq<BufferRecord>, symbol: string)
    ensures WithSymbol(a + b, symbol) == WithSymbol(a, symbol) + WithSymbol(b, symbol)
  {
    if |b| == 0 {
      assert a + b == a;
    } else {
      var n := |b| - 1;
      assert (a + b)[..|a + b| - 1] == a + b[..n];
      WithSymbolConcat(a, b[..n], symbol);
    }
  }

  lemma EventsOfConcat(a: seq<BufferRecord>, b: seq<BufferRecord>, symbol: string)
    ensures EventsOf(a + b, symbol) == EventsOf(a, symbol) + EventsOf(b, symbol)
  {
    WithSymbolConcat(a, b, symbol);
  }

  /** The events of a cut are what its end adds to the symbol's events before its start. */
  lemma CutCompletes(records: seq<BufferRecord>, symbol: string, start: int, end: int)
    requires Numbered(records) && start <= end
    ensures RawEventsForCut(records, symbol, start, end).Ok?
    ensures EventsOf(UpTo(records, start - 1), symbol) + RawEventsForCut(records, symbol, start, end).value
         == EventsOf(UpTo(records, end), symbol)
  {
    hide UpTo, InRange, EventsOf;
    RangeCompletes(records, start, end);
    EventsOfConcat(UpTo(records, start - 1), InRange(records, start, end), symbol);
    CutIsEventsOf(records, symbol, start, end);
  }

  lemma CutIsEventsOf(records: seq<BufferRecord>, symbol: string, start: int, end: int)
    requires start <= end
    ensures RawEventsForCut(records, symbol, start, end) == Ok(EventsOf(InRange(records, start, end), symbol))
  {
  }

  /** Records ingested after the end of a cut do not change what the cut reads. */
  lemma {:induction false} RangeIsStable(records: seq<BufferRecord>, more: seq<BufferRecord>, start: int, end: int)
    requires Numbered(records + more) && end <= |records|
    ensures InRange(records + more, start, end) == InRange(records, start, end)
  {
    if |more| == 0 {
      assert records + more == records;
    } else {
      var n := |more| - 1;
      assert (records + more)[..|records + more| - 1] == records + more[..n];
      assert (records + more)[|records| + n].seqNo == |records| + n + 1;
      RangeIsStable(records, more[..n], start, end);
    }
  }

  class RawInputBuffer {
    const maxRecords: int
    var records: seq<BufferRecord>
    var nextSeq: int

    ghost predicate Valid()
      reads this
    {
      Numbered(records) && nextSeq == |records| + 1
    }

    constructor (maxRecords: int)
      requires maxRecords > 0
      ensures Valid() && this.maxRecords == maxRecords && records == []
    {
      this.maxRecords, records, nextSeq := maxRecords, [], 1;
    }

    /** A full buffer refuses the event and stays as it is. */
    method Append(event: RawEvent, ingestTs: int) returns (result: Result<BufferRecord, BufferError>)
      requires Valid()
      modifies this
      ensures Valid()
      ensures result == if |old(records)| >= maxRecords then Err(BufferFull)
                        else Ok(BufferRecord(|old(records)| + 1, ingestTs, event))
      ensures records == old(records) + (if result.Ok? then [result.value] else [])
    {
      if |records| >= maxRecords {
        return Err(BufferFull);
      }
      var record := BufferRecord(nextSeq, ingestTs, event);
      records := records + [record];
      nextSeq := nextSeq + 1;
      return Ok(record);
    }

    function LastIngestSeq(): (last: Option<int>)
      requires Valid()
      reads this
      ensures last == if records == [] then None else Some(|records|)
    {
      if records == [] then None else Some(records[|records| - 1].seqNo)
    }
  }
}
