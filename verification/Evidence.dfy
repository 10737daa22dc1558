/** Evidence opinions: their order, and the round trip through a snapshot's structure levels. */
module Evidence {
  import opened Ordering
  import opened Regimes

  datatype Opinion = Opinion(regime: Regime, strength: real, confidence: real, source: string)

  datatype EvidenceSnapshot = EvidenceSnapshot(symbol: string, timestamp: int, opinions: seq<Opinion>)

  predicate InBounds(o: Opinion) {
    0.0 <= o.strength <= 1.0 && 0.0 <= o.confidence <= 1.0
  }

  // ----- The order of opinions -----

  /** By regime text, then source, then the more confident, then the stronger. */
  predicate OpinionLe(a: Opinion, b: Opinion) {
    if a.regime != b.regime then StringLe(RegimeValue(a.regime), RegimeValue(b.regime))
    else if a.source != b.source then StringLe(a.source, b.source)
    else if a.confidence != b.confidence then a.confidence > b.confidence
    else a.strength >= b.strength
  }

  lemma OpinionLeIsTotalOrder()
    ensures TotalOrder(OpinionLe)
  {
    hide RegimeValue;
    StringLeIsTotalOrder();
    forall a, b ensures OpinionLe(a, b) || OpinionLe(b, a) {
      assert StringLe(RegimeValue(a.regime), RegimeValue(b.regime))
             || StringLe(RegimeValue(b.regime), RegimeValue(a.regime));
      assert StringLe(a.source, b.source) || StringLe(b.source, a.source);
    }
    forall a, b | OpinionLe(a, b) && OpinionLe(b, a) ensures a == b {
      if RegimeValue(a.regime) == RegimeValue(b.regime) { RegimeTextsDiffer(a.regime, b.regime); }
    }
    forall a, b, c | OpinionLe(a, b) && OpinionLe(b, c) ensures OpinionLe(a, c) {
      OpinionLeTransitive(a, b, c);
    }
  }

  lemma OpinionLeTransitive(a: Opinion, b: Opinion, c: Opinion)
    requires OpinionLe(a, b) && OpinionLe(b, c)
    ensures OpinionLe(a, c)
  {
    hide RegimeValue;
    if StringLe(RegimeValue(a.regime), RegimeValue(b.regime))
        && StringLe(RegimeValue(b.regime), RegimeValue(c.regime)) {
      StringLeTransitive(RegimeValue(a.regime), RegimeValue(b.regime), RegimeValue(c.regime));
    }
    if a.regime == c.regime && a.regime != b.regime {
      StringLeAntisymmetric(RegimeValue(a.regime), RegimeValue(b.regime));
      RegimeTextsDiffer(a.regime, b.regime);
      assert false;
    }
    if StringLe(a.source, b.source) && StringLe(b.source, c.source) {
      StringLeTransitive(a.source, b.source, c.source);
      if a.source == c.source { StringLeAntisymmetric(a.source, b.source); }
    }
  }

  function OrderOpinions(opinions: seq<Opinion>): seq<Opinion> {
    Sort(OpinionLe, opinions)
  }

  /** The order depends on the opinions alone, and ordering again changes nothing. */
  lemma OrderIsCanonical(opinions: seq<Opinion>, shuffled: seq<Opinion>)
    requires multiset(opinions) == multiset(shuffled)
    ensures OrderOpinions(opinions) == OrderOpinions(shuffled)
    ensures OrderOpinions(OrderOpinions(opinions)) == OrderOpinions(opinions)
    ensures multiset(OrderOpinions(opinions)) == multiset(opinions)
  {
    OpinionLeIsTotalOrder();
    SortPermutes(OpinionLe, opinions);
    SortIgnoresInputOrder(OpinionLe, opinions, shuffled);
    SortIgnoresInputOrder(OpinionLe, OrderOpinions(opinions), opinions);
  }

  /** In order, texts of regimes do not fall; within a regime sources do not, within a source confidence does not rise,
      and at one confidence strength does not. */
  lemma OrderTells(opinions: seq<Opinion>, j: nat, k: nat)
    requires j < k < |OrderOpinions(opinions)|
    ensures var a, b := OrderOpinions(opinions)[j], OrderOpinions(opinions)[k];
            && StringLe(RegimeValue(a.regime), RegimeValue(b.regime))
            && (a.regime == b.regime ==> StringLe(a.source, b.source))
            && (a.regime == b.regime && a.source == b.source ==> a.confidence >= b.confidence)
            && (a.regime == b.regime && a.source == b.source && a.confidence == b.confidence ==>
                  a.strength >= b.strength)
  {
    hide RegimeValue;
    OpinionLeIsTotalOrder();
    SortSorts(OpinionLe, opinions);
    StringLeIsTotalOrder();
    var a, b := OrderOpinions(opinions)[j], OrderOpinions(opinions)[k];
    assert OpinionLe(a, b);
    assert StringLe(a.source, a.source) && StringLe(RegimeValue(a.regime), RegimeValue(a.regime));
  }

  // ----- Snapshots -----

  datatype Value =
    | VNull
    | VBool(b: bool)
    | VNumber(n: real)
    | VText(s: string)
    | VList(items: seq<Value>)
    | VMapping(entries: map<string, Value>)
    | VOther

  /** The structure levels of a snapshot: a dictionary, another mapping, or none. */
  datatype Levels = Dict(entries: map<string, Value>) | Frozen(entries: map<string, Value>) | NoMapping

  datatype InputSnapshot = InputSnapshot(symbol: string, timestamp: int, levels: Levels)

  const EMBEDDED_KEY := "composer_evidence_snapshot_v1"

  function SerializeOpinion(o: Opinion): Value {
    VMapping(map["regime" := VText(RegimeValue(o.regime)), "strength" := VNumber(o.strength),
                 "confidence" := VNumber(o.confidence), "source" := VText(o.source)])
  }

  function SerializeEvidence(evidence: EvidenceSnapshot): Value {
    VMapping(map[
      "symbol" := VText(evidence.symbol),
      "engine_timestamp_ms" := VNumber(evidence.timestamp as real),
      "opinions" := VList(seq(|evidence.opinions|, i requires 0 <= i < |evidence.opinions| =>
                            SerializeOpinion(evidence.opinions[i])))])
  }

  /** Without opinions an embedded payload is taken out of a dictionary; any other mapping stays as it is. */
  function Embed(snapshot: InputSnapshot, evidence: EvidenceSnapshot): InputSnapshot {
    if evidence.opinions == [] then
      if snapshot.levels.Dict? && EMBEDDED_KEY in snapshot.levels.entries
      then snapshot.(levels := Dict(snapshot.levels.entries - {EMBEDDED_KEY}))
      else snapshot
    else
      var base := if snapshot.levels.Dict? then snapshot.levels.entries else map[];
      snapshot.(levels := Dict(base[EMBEDDED_KEY := SerializeEvidence(evidence)]))
  }

  /** Embedding changes nothing but one entry of the structure levels. */
  lemma EmbedTells(snapshot: InputSnapshot, evidence: EvidenceSnapshot, key: string)
    requires key != "composer_evidence_snapshot_v1"
    ensures var result := Embed(snapshot, evidence);
            && result.symbol == snapshot.symbol && result.timestamp == snapshot.timestamp
            && (evidence.opinions == [] && !snapshot.levels.Dict? ==> result == snapshot)
            && (evidence.opinions != [] || snapshot.levels.Dict? ==>
                  && result.levels.Dict?
                  && (key in result.levels.entries <==> snapshot.levels.Dict? && key in snapshot.levels.entries)
                  && (key in result.levels.entries ==> result.levels.entries[key] == snapshot.levels.entries[key])
                  && ("composer_evidence_snapshot_v1" in result.levels.entries <==> evidence.opinions != []))
  {
    hide SerializeEvidence;
  }

  // ----- Reading evidence back -----

  const INVALID_FIELDS := "INVALID_EVIDENCE_FIELDS"
  const INVALID_BOUNDS := "INVALID_EVIDENCE_BOUNDS"
  const UNKNOWN_REGIME := "INVALID_EVIDENCE_REGIME"
  const SYMBOL_MISMATCH := "INVALID_EVIDENCE_SYMBOL_MISMATCH"
  const TIMESTAMP_MISMATCH := "INVALID_EVIDENCE_TIMESTAMP_MISMATCH"
  const NO_EVIDENCE := "DRIVER_NO_CANONICAL_EVIDENCE"

  datatype Extracted = Extracted(evidence: EvidenceSnapshot, drivers: seq<string>, invalidations: seq<string>)

  function Get(entries: map<string, Value>, key: string): Value {
    if key in entries then entries[key] else VNull
  }

  function BoundedNumber(v: Value): Option<real> {
    if v.VNumber? && 0.0 <= v.n <= 1.0 then Some(v.n) else None
  }

  /** The opinion, or the invalidation that stands in for it. */
  function ParseOpinion(v: Value): Result<Opinion, string> {
    if !v.VMapping? then Err(INVALID_FIELDS)
    else
      var regime, source := Get(v.entries, "regime"), Get(v.entries, "source");
      if !regime.VText? || !source.VText? then Err(INVALID_FIELDS)
      else if RegimeFromValue(regime.s).None? then Err(UNKNOWN_REGIME)
      else
        var strength, confidence := BoundedNumber(Get(v.entries, "strength")),
                                    BoundedNumber(Get(v.entries, "confidence"));
        if strength.None? || confidence.None? then Err(INVALID_BOUNDS)
        else Ok(Opinion(RegimeFromValue(regime.s).value, strength.value, confidence.value, source.s))
  }

  /** An opinion is read exactly from a mapping with the texts of a known regime and of a source and two numbers within
      bounds; what is wrong first gives the invalidation. */
  lemma ParseTells(v: Value)
    ensures var texts := v.VMapping? && Get(v.entries, "regime").VText? && Get(v.entries, "source").VText?;
            var known := texts && exists r: Regime :: RegimeValue(r) == Get(v.entries, "regime").s;
            var bounded := known && InUnit(Get(v.entries, "strength")) && InUnit(Get(v.entries, "confidence"));
            && (!texts ==> ParseOpinion(v) == Err("INVALID_EVIDENCE_FIELDS"))
            && (texts && !known ==> ParseOpinion(v) == Err("INVALID_EVIDENCE_REGIME"))
            && (known && !bounded ==> ParseOpinion(v) == Err("INVALID_EVIDENCE_BOUNDS"))
            && (bounded ==>
                  && ParseOpinion(v).Ok?
                  && var o := ParseOpinion(v).value;
                     && RegimeValue(o.regime) == Get(v.entries, "regime").s && o.source == Get(v.entries, "source").s
                     && o.strength == Get(v.entries, "strength").n && o.confidence == Get(v.entries, "confidence").n)
  {
    hide RegimeValue;
  }

  predicate InUnit(v: Value) {
    v.VNumber? && 0.0 <= v.n && v.n <= 1.0
  }

  function Parsed(items: seq<Value>): seq<Opinion> {
    if |items| == 0 then []
    else
      var last := ParseOpinion(items[|items| - 1]);
      Parsed(items[..|items| - 1]) + (if last.Ok? then [last.value] else [])
  }

  function Invalidations(items: seq<Value>): seq<string> {
    if |items| == 0 then []
    else
      var last := ParseOpinion(items[|items| - 1]);
      Invalidations(items[..|items| - 1]) + (if last.Err? then [last.error] else [])
  }

  method ParseOpinions(payload: Value, before: seq<string>) returns (opinions: seq<Opinion>, invalidations: seq<string>)
    ensures opinions == if payload.VList? then Parsed(payload.items) else []
    ensures invalidations == before + (if payload.VList? then Invalidations(payload.items) else [])
  {
    opinions, invalidations := [], before;
    if !payload.VList? {
      return;
    }
    var items := payload.items;
    var i := 0;
    while i < |items|
      invariant i <= |items|
      invariant opinions == Parsed(items[..i]) && invalidations == before + Invalidations(items[..i])
    {
      assert items[..i + 1][..i] == items[..i];
      var opinion := ParseOpinion(items[i]);
      if opinion.Ok? {
        opinions := opinions + [opinion.value];
      } else {
        invalidations := invalidations + [opinion.error];
      }
      i := i + 1;
    }
    assert items[..i] == items;
  }

  /** Each item where it occurs first. */
  function FirstOccurrences(items: seq<string>): seq<string> {
    if |items| == 0 then []
    else
      var before, last := FirstOccurrences(items[..|items| - 1]), items[|items| - 1];
      if last in items[..|items| - 1] then before else before + [last]
  }

  method UniqueOrdered(items: seq<string>) returns (unique: seq<string>)
    ensures unique == FirstOccurrences(items)
  {
    var seen: set<string> := {};
    unique := [];
    var i := 0;
    while i < |items|
      invariant i <= |items|
      invariant unique == FirstOccurrences(items[..i]) && seen == Elements(items[..i])
    {
      assert items[..i + 1][..i] == items[..i];
      ElementsConcat(items[..i], [items[i]]);
      assert items[..i + 1] == items[..i] + [items[i]];
      if items[i] !in seen {
        seen := seen + {items[i]};
        unique := unique + [items[i]];
      }
      i := i + 1;
    }
    assert items[..i] == items;
  }

  lemma {:induction false} FirstOccurrencesAre(items: seq<string>)
    ensures Elements(FirstOccurrences(items)) == Elements(items) && NoDuplicates(FirstOccurrences(items))
  {
    if |items| > 0 {
      var n := |items| - 1;
      FirstOccurrencesAre(items[..n]);
      assert items == items[..n] + [items[n]];
      ElementsConcat(items[..n], [items[n]]);
      ElementsConcat(FirstOccurrences(items[..n]), [items[n]]);
      if items[n] !in items[..n] {
        assert items[n] !in Elements(FirstOccurrences(items[..n]));
      }
    }
  }

  function Sources(opinions: seq<Opinion>): seq<string> {
    seq(|opinions|, i requires 0 <= i < |opinions| => opinions[i].source)
  }

  function Extract(snapshot: InputSnapshot): Option<Extracted> {
    if snapshot.levels.NoMapping? || !Get(snapshot.levels.entries, EMBEDDED_KEY).VMapping? then None
    else
      var payload := Get(snapshot.levels.entries, EMBEDDED_KEY).entries;
      var mismatches := (if Get(payload, "symbol") != VText(snapshot.symbol) then [SYMBOL_MISMATCH] else [])
                        + (if Get(payload, "engine_timestamp_ms") != VNumber(snapshot.timestamp as real)
                           then [TIMESTAMP_MISMATCH] else []);
      if mismatches != [] then
        Some(Extracted(EvidenceSnapshot(snapshot.symbol, snapshot.timestamp, []), [NO_EVIDENCE],
                       FirstOccurrences(mismatches)))
      else
        var list := Get(payload, "opinions");
        var opinions := if list.VList? then OrderOpinions(Parsed(list.items)) else [];
        Some(Extracted(
          EvidenceSnapshot(snapshot.symbol, snapshot.timestamp, opinions),
          if opinions == [] then [NO_EVIDENCE] else FirstOccurrences(Sources(opinions)),
          FirstOccurrences(if list.VList? then Invalidations(list.items) else [])))
  }

  /** What is extracted: nothing exactly without an embedded mapping, and otherwise evidence for the symbol and time of
      the snapshot; a mismatch of either leaves no opinion and is named. */
  lemma ExtractTells(snapshot: InputSnapshot)
    ensures Extract(snapshot).Some? <==>
              && !snapshot.levels.NoMapping? && "composer_evidence_snapshot_v1" in snapshot.levels.entries
              && snapshot.levels.entries["composer_evidence_snapshot_v1"].VMapping?
    ensures Extract(snapshot).Some? ==>
              var payload, result := snapshot.levels.entries["composer_evidence_snapshot_v1"].entries,
                                     Extract(snapshot).value;
              var symbolFits := Get(payload, "symbol") == VText(snapshot.symbol);
              var timeFits := Get(payload, "engine_timestamp_ms") == VNumber(snapshot.timestamp as real);
              && result.evidence.symbol == snapshot.symbol && result.evidence.timestamp == snapshot.timestamp
              && (result.evidence.opinions == [] ==> result.drivers == ["DRIVER_NO_CANONICAL_EVIDENCE"])
              && (!symbolFits || !timeFits ==>
                    && result.evidence.opinions == [] && result.drivers == ["DRIVER_NO_CANONICAL_EVIDENCE"]
                    && result.invalidations
                       == (if symbolFits then [] else ["INVALID_EVIDENCE_SYMBOL_MISMATCH"])
                          + (if timeFits then [] else ["INVALID_EVIDENCE_TIMESTAMP_MISMATCH"]))
  {
    TwoNames();
  }

  lemma TwoNames()
    ensures FirstOccurrences([SYMBOL_MISMATCH]) == [SYMBOL_MISMATCH]
    ensures FirstOccurrences([TIMESTAMP_MISMATCH]) == [TIMESTAMP_MISMATCH]
    ensures FirstOccurrences([SYMBOL_MISMATCH, TIMESTAMP_MISMATCH]) == [SYMBOL_MISMATCH, TIMESTAMP_MISMATCH]
  {
    assert [SYMBOL_MISMATCH, TIMESTAMP_MISMATCH][..1] == [SYMBOL_MISMATCH];
    assert SYMBOL_MISMATCH[17] == 'S' && TIMESTAMP_MISMATCH[17] == 'T';
  }

  method ExtractEmbeddedEvidence(snapshot: InputSnapshot) returns (result: Option<Extracted>)
    ensures result == Extract(snapshot)
  {
    hide OrderOpinions, Parsed, Invalidations, FirstOccurrences;
    if snapshot.levels.NoMapping? || !Get(snapshot.levels.entries, EMBEDDED_KEY).VMapping? {
      return None;
    }
    var payload := Get(snapshot.levels.entries, EMBEDDED_KEY).entries;
    var invalidations: seq<string> := [];
    if Get(payload, "symbol") != VText(snapshot.symbol) {
      invalidations := invalidations + [SYMBOL_MISMATCH];
    }
    if Get(payload, "engine_timestamp_ms") != VNumber(snapshot.timestamp as real) {
      invalidations := invalidations + [TIMESTAMP_MISMATCH];
    }
    assert invalidations
        == (if Get(payload, "symbol") != VText(snapshot.symbol) then [SYMBOL_MISMATCH] else [])
           + (if Get(payload, "engine_timestamp_ms") != VNumber(snapshot.timestamp as real) then [TIMESTAMP_MISMATCH]
              else []);
    if invalidations != [] {
      var unique := UniqueOrdered(invalidations);
      return Some(Extracted(EvidenceSnapshot(snapshot.symbol, snapshot.timestamp, []), [NO_EVIDENCE], unique));
    }
    var opinions: seq<Opinion>;
    var list := Get(payload, "opinions");
    opinions, invalidations := ParseOpinions(list, invalidations);
    assert invalidations == if list.VList? then Invalidations(list.items) else [];
    var ordered := OrderOpinions(opinions);
    NoOpinions();
    var drivers := [NO_EVIDENCE];
    if ordered != [] {
      drivers := UniqueOrdered(Sources(ordered));
    }
    invalidations := UniqueOrdered(invalidations);
    return Some(Extracted(EvidenceSnapshot(snapshot.symbol, snapshot.timestamp, ordered), drivers, invalidations));
  }

  lemma NoOpinions()
    ensures OrderOpinions([]) == []
  {
  }

  // ----- The round trip -----

  function Valid(opinions: seq<Opinion>): seq<Opinion> {
    Filter(InBounds, opinions)
  }

  lemma ParseSerialized(o: Opinion)
    ensures ParseOpinion(SerializeOpinion(o)) == if InBounds(o) then Ok(o) else Err(INVALID_BOUNDS)
  {
    hide RegimeFromValue;
    RegimeTextsDiffer(RegimeFromValue(RegimeValue(o.regime)).value, o.regime);
    var v := SerializeOpinion(o).entries;
    assert Get(v, "regime") == VText(RegimeValue(o.regime)) && Get(v, "source") == VText(o.source);
    assert Get(v, "strength") == VNumber(o.strength) && Get(v, "confidence") == VNumber(o.confidence);
  }

  function Serialized(opinions: seq<Opinion>): seq<Value> {
    seq(|opinions|, i requires 0 <= i < |opinions| => SerializeOpinion(opinions[i]))
  }

  lemma {:induction false} ParseAll(opinions: seq<Opinion>)
    ensures Parsed(Serialized(opinions)) == Valid(opinions)
    ensures |Valid(opinions)| <= |opinions|
    ensures Invalidations(Serialized(opinions)) == seq(|opinions| - |Valid(opinions)|, _ => INVALID_BOUNDS)
  {
    hide ParseOpinion, SerializeOpinion, InBounds;
    if |opinions| > 0 {
      var n := |opinions| - 1;
      ParseAll(opinions[..n]);
      ParseSerialized(opinions[n]);
      assert opinions == opinions[..n] + [opinions[n]];
      FilterSnoc(InBounds, opinions[..n], opinions[n]);
      assert Serialized(opinions)[..n] == Serialized(opinions[..n]);
    }
  }

  lemma {:induction false} AllValid(opinions: seq<Opinion>)
    ensures |Valid(opinions)| <= |opinions|
    ensures Valid(opinions) == opinions <==> forall i :: 0 <= i < |opinions| ==> InBounds(opinions[i])
    ensures |Valid(opinions)| == |opinions| <==> Valid(opinions) == opinions
  {
    if |opinions| > 0 {
      AllValid(opinions[1..]);
      assert opinions == [opinions[0]] + opinions[1..];
    }
  }

  lemma {:induction false} OneKind(n: nat, x: string)
    ensures FirstOccurrences(seq(n, _ => x)) == if n == 0 then [] else [x]
  {
    if n > 0 {
      OneKind(n - 1, x);
      assert seq(n, _ => x)[..n - 1] == seq(n - 1, _ => x);
    }
  }

  /** What is embedded under its own symbol and time is read back: the opinions within bounds, in their order, and no
      invalidation if and only if all of them are; opinions out of bounds are dropped and reported once. Without
      opinions nothing is read back, unless the levels are a mapping that embedding does not edit. */
  lemma EmbedThenExtract(snapshot: InputSnapshot, evidence: EvidenceSnapshot)
    requires evidence.symbol == snapshot.symbol && evidence.timestamp == snapshot.timestamp
    ensures var result := Extract(Embed(snapshot, evidence));
            var valid := Valid(evidence.opinions);
            if evidence.opinions == [] then
              (if snapshot.levels.Frozen? then result == Extract(snapshot) else result == None)
            else
              && result.Some?
              && result.value.evidence == evidence.(opinions := OrderOpinions(valid))
              && result.value.invalidations == (if valid == evidence.opinions then [] else [INVALID_BOUNDS])
              && Elements(result.value.drivers)
                 == (if valid == [] then {NO_EVIDENCE} else Elements(Sources(OrderOpinions(valid))))
  {
    hide OrderOpinions, Parsed, Invalidations, FirstOccurrences, Valid;
    var opinions := evidence.opinions;
    if opinions != [] {
      ParseAll(opinions);
      AllValid(opinions);
      OneKind(|opinions| - |Valid(opinions)|, INVALID_BOUNDS);
      NoOpinions();
      SameSize(Valid(opinions));
      FirstOccurrencesAre(Sources(OrderOpinions(Valid(opinions))));
      ReadBack(snapshot, evidence);
    }
  }

  lemma SameSize(opinions: seq<Opinion>)
    ensures OrderOpinions(opinions) == [] <==> opinions == []
  {
    OrderIsCanonical(opinions, opinions);
    assert |multiset(OrderOpinions(opinions))| == |multiset(opinions)|;
  }

  lemma ReadBack(snapshot: InputSnapshot, evidence: EvidenceSnapshot)
    requires evidence.opinions != []
    ensures var levels := Embed(snapshot, evidence).levels;
            && levels.Dict? && Get(levels.entries, EMBEDDED_KEY).VMapping?
            && var payload := Get(levels.entries, EMBEDDED_KEY).entries;
            && Get(payload, "symbol") == VText(evidence.symbol)
            && Get(payload, "engine_timestamp_ms") == VNumber(evidence.timestamp as real)
            && Get(payload, "opinions") == VList(Serialized(evidence.opinions))
  {
  }
}
