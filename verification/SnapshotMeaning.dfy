/** What encoding and decoding make of a value, and what is read from any JSON object. */
module SnapshotMeaning {
  import opened Ordering
  import opened SnapshotCodec

  /** `json` shows the value: missing as the marker object, an enumeration as its value, fields and items one by one. */
  ghost predicate Shows(o: Obj, json: Obj)
    decreases o
  {
    match o
    case Missing => json == Dict(map[Text("__xray_missing__") := Leaf(BoolScalar(true))])
    case Leaf(content) => json == Leaf(content)
    case Enum(value) => json == Leaf(value)
    case Record(entries) => json.Dict? && ShowsEntries(o, entries, json.entries)
    case Dict(entries) => json.Dict? && ShowsEntries(o, entries, json.entries)
    case List(items) => json.List? && ShowsItems(o, items, json.items)
    case Tuple(items) => json.List? && ShowsItems(o, items, json.items)
  }

  ghost predicate ShowsEntries(o: Obj, entries: map<Key, Obj>, shown: map<Key, Obj>)
    requires (o.Record? || o.Dict?) && o.entries == entries
    decreases o, 0
  {
    && shown.Keys == entries.Keys
    && forall k :: k in entries ==> k.Text? && Shows(entries[k], shown[k])
  }

  ghost predicate ShowsItems(o: Obj, items: seq<Obj>, shown: seq<Obj>)
    requires (o.List? || o.Tuple?) && o.items == items
    decreases o, 0
  {
    && |shown| == |items|
    && forall i :: 0 <= i < |items| ==> Shows(items[i], shown[i])
  }

  /** Encoding succeeds exactly with the JSON that shows the value. */
  lemma {:induction false} EncodeTells(o: Obj, json: Obj)
    ensures Encode(o) == Ok(json) <==> Shows(o, json)
    decreases o
  {
    match o
    case Record(entries) => EntriesTell(o, json);
    case Dict(entries) => EntriesTell(o, json);
    case List(items) => ItemsTell(o, json);
    case Tuple(items) => ItemsTell(o, json);
    case _ =>
  }

  lemma {:induction false} EntriesTell(o: Obj, json: Obj)
    requires o.Record? || o.Dict?
    ensures Encode(o) == Ok(json) <==> json.Dict? && ShowsEntries(o, o.entries, json.entries)
    decreases o, 0
  {
    if json.Dict? && json.entries.Keys == o.entries.Keys {
      forall k | k in o.entries
        ensures Encode(o.entries[k]) == Ok(json.entries[k]) <==> Shows(o.entries[k], json.entries[k])
      {
        EncodeTells(o.entries[k], json.entries[k]);
      }
    }
    if Encode(o).Ok? {
      var encoded := Encode(o).value.entries;
      assert Encode(o) == Ok(json) <==> json.Dict? && json.entries == encoded;
    }
  }

  lemma {:induction false} ItemsTell(o: Obj, json: Obj)
    requires o.List? || o.Tuple?
    ensures Encode(o) == Ok(json) <==> json.List? && ShowsItems(o, o.items, json.items)
    decreases o, 0
  {
    if json.List? && |json.items| == |o.items| {
      forall i | 0 <= i < |o.items|
        ensures Encode(o.items[i]) == Ok(json.items[i]) <==> Shows(o.items[i], json.items[i])
      {
        EncodeTells(o.items[i], json.items[i]);
      }
    }
    if Encode(o).Ok? {
      var encoded := Encode(o).value.items;
      assert Encode(o) == Ok(json) <==> json.List? && json.items == encoded;
    }
  }

  /** The value stands for the JSON: an object with the marker as its only key for missing, all else by its parts. */
  ghost predicate StandsFor(o: Obj, json: Obj)
    decreases json
  {
    match json
    case Dict(entries) =>
      if entries.Keys == {Text("__xray_missing__")} then o == Missing
      else && o.Dict? && o.entries.Keys == entries.Keys
           && forall k :: k in entries ==> StandsFor(o.entries[k], entries[k])
    case List(items) =>
      o.List? && |o.items| == |items| && forall i :: 0 <= i < |items| ==> StandsFor(o.items[i], items[i])
    case _ => o == json
  }

  lemma {:induction false} DecodeTells(json: Obj)
    ensures StandsFor(Decode(json), json)
    decreases json
  {
    match json
    case Dict(entries) =>
      forall k | k in entries ensures StandsFor(Decode(entries[k]), entries[k]) { DecodeTells(entries[k]); }
    case List(items) =>
      forall i | 0 <= i < |items| ensures StandsFor(Decode(items[i]), items[i]) { DecodeTells(items[i]); }
    case _ =>
  }

  // ----- Whole snapshots -----

  /** The entry is an object, other than the marker of a missing value. */
  ghost predicate IsObject(json: Fields, key: string) {
    Text(key) in json && json[Text(key)].Dict? && json[Text(key)].entries.Keys != {Text("__xray_missing__")}
  }

  ghost predicate HasPart(json: Fields, key: string, names: set<Key>) {
    IsObject(json, key) && json[Text(key)].entries.Keys == names
  }

  ghost predicate HasParts(json: Fields) {
    && HasPart(json, "market", MARKET_FIELDS) && HasPart(json, "derivatives", DERIVATIVES_FIELDS)
    && HasPart(json, "flow", FLOW_FIELDS) && HasPart(json, "context", CONTEXT_FIELDS)
  }

  ghost predicate HasObjects(json: Fields) {
    IsObject(json, "market") && IsObject(json, "derivatives") && IsObject(json, "flow") && IsObject(json, "context")
  }

  /** The entry of the JSON object stands for the value. */
  ghost predicate Holds(json: Fields, key: string, o: Obj) {
    Text(key) in json && StandsFor(o, json[Text(key)])
  }

  /** The entry of the JSON object shows the value. */
  ghost predicate Displays(json: Fields, key: string, o: Obj) {
    Text(key) in json && Shows(o, json[Text(key)])
  }

  /** A JSON object is read as a snapshot exactly if it has a symbol, a time and four objects with the fields of the
      parts, and its values are those of the entries. Otherwise a key error names a missing entry, of the parts before
      the symbol and the time; all else is a type error. */
  lemma ReadTells(json: Fields)
    ensures FromJson(json).Ok? <==> Text("symbol") in json && Text("timestamp") in json && HasParts(json)
    ensures FromJson(json) == Err(KeyError) <==>
              && json.Keys != {Text("__xray_missing__")}
              && if {Text("market"), Text("derivatives"), Text("flow"), Text("context")} <= json.Keys
                 then HasObjects(json) && !({Text("symbol"), Text("timestamp")} <= json.Keys)
                 else true
    ensures FromJson(json).Ok? ==>
              var s := FromJson(json).value;
              && Holds(json, "symbol", s.symbol) && Holds(json, "timestamp", s.timestamp)
              && Holds(json, "market", Dict(s.market)) && Holds(json, "derivatives", Dict(s.derivatives))
              && Holds(json, "flow", Dict(s.flow)) && Holds(json, "context", Dict(s.context))
  {
    hide StandsFor, Decode;
    DecodeParts(json);
    if FromJson(json).Ok? { ReadValues(json); }
    assert json.Keys == {MARKER} ==> Text("market") !in json.Keys;
    assert Text("price") in MARKET_FIELDS && Text("open_interest") in DERIVATIVES_FIELDS;
    assert Text("cvd") in FLOW_FIELDS && Text("btc_regime") in CONTEXT_FIELDS;
  }

  lemma ReadValues(json: Fields)
    requires FromJson(json).Ok?
    ensures var s := FromJson(json).value;
            && Holds(json, "symbol", s.symbol) && Holds(json, "timestamp", s.timestamp)
            && Holds(json, "market", Dict(s.market)) && Holds(json, "derivatives", Dict(s.derivatives))
            && Holds(json, "flow", Dict(s.flow)) && Holds(json, "context", Dict(s.context))
  {
    hide StandsFor, Decode, HasFields;
    DecodeParts(json);
    forall k | k in json ensures StandsFor(Decode(json[k]), json[k]) { DecodeTells(json[k]); }
  }

  lemma DecodeParts(json: Fields)
    ensures json.Keys != {MARKER} ==> Decode(Dict(json)) == Dict(map k | k in json :: Decode(json[k]))
    ensures json.Keys == {MARKER} ==> Decode(Dict(json)) == Missing
    ensures forall k :: k in json ==>
              && (Decode(json[k]).Dict? <==> json[k].Dict? && json[k].entries.Keys != {MARKER})
              && (Decode(json[k]).Dict? ==> Decode(json[k]).entries.Keys == json[k].entries.Keys)
  {
  }

  /** What was read can be written, and reads back as it was. */
  lemma ReadCanBeWritten(json: Fields)
    requires FromJson(json).Ok? && forall k :: k in json ==> IsJson(json[k])
    ensures var s := FromJson(json).value;
            ToJson(s).Ok? && FromJson(ToJson(s).value) == Ok(s)
  {
    hide Encode, Decode, Plain, IsJson;
    var s := FromJson(json).value;
    DecodeParts(json);
    forall k | k in json ensures Plain(Decode(json[k])) { DecodedIsPlain(json[k]); }
    PartsArePlain(s.market);
    PartsArePlain(s.derivatives);
    PartsArePlain(s.flow);
    PartsArePlain(s.context);
    SnapshotRoundTrip(s);
  }

  lemma PartsArePlain(fields: Fields)
    ensures Plain(Dict(fields)) ==> AllPlain(fields)
  {
  }

  /** A written snapshot has six entries that show its parts; it cannot be written exactly if one of them cannot. */
  lemma WriteTells(s: Snapshot, json: Fields)
    ensures ToJson(s) == Ok(json) <==>
              && json.Keys == {Text("symbol"), Text("timestamp"), Text("market"), Text("derivatives"), Text("flow"),
                               Text("context")}
              && Displays(json, "symbol", s.symbol) && Displays(json, "timestamp", s.timestamp)
              && Displays(json, "market", Record(s.market)) && Displays(json, "derivatives", Record(s.derivatives))
              && Displays(json, "flow", Record(s.flow)) && Displays(json, "context", Record(s.context))
  {
    hide Encode, Shows;
    TopFields(s);
    ReturnedParts(s);
    var r := AsRecord(s);
    EncodeTells(Record(r), Dict(json));
    ShowsMeans(Record(r), Dict(json));
  }

  lemma ShowsMeans(o: Obj, json: Obj)
    requires o.Record? && json.Dict?
    ensures Shows(o, json) <==>
              && json.entries.Keys == o.entries.Keys
              && forall k :: k in o.entries ==> k.Text? && Shows(o.entries[k], json.entries[k])
  {
  }
}
