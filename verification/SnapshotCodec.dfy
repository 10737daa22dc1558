/** Encoding snapshots as JSON objects and reading them back. */
module SnapshotCodec {
  import opened Ordering

  datatype Key = Text(s: string) | OtherKey(n: int)

  /** A value of a snapshot. A leaf is whatever JSON takes as it is; the text of an enumeration is its value. */
  datatype Obj =
    | Missing
    | Leaf(content: Scalar)
    | Enum(value: Scalar)
    | Record(entries: map<Key, Obj>)
    | Dict(entries: map<Key, Obj>)
    | List(items: seq<Obj>)
    | Tuple(items: seq<Obj>)

  datatype Scalar = NoneScalar | BoolScalar(b: bool) | NumberScalar(x: real) | StringScalar(s: string)

  const MARKER := Text("__xray_missing__")
  const MARKER_OBJ := Dict(map[MARKER := Leaf(BoolScalar(true))])

  datatype CodecError = TypeError | KeyError

  predicate IsMarker(entries: map<Key, Obj>) {
    entries.Keys == {MARKER}
  }

  /** The encoded value, or the error for a key that is no text. */
  function Encode(o: Obj): Result<Obj, CodecError>
    decreases o
  {
    if o.Missing? then Ok(MARKER_OBJ)
    else if o.Leaf? then Ok(o)
    else if o.Enum? then Ok(Leaf(o.value))
    else if o.Record? || o.Dict? then
      if exists k :: k in o.entries && (!k.Text? || Encode(o.entries[k]).Err?) then Err(TypeError)
      else Ok(Dict(map k | k in o.entries :: Encode(o.entries[k]).value))
    else
      if exists i :: 0 <= i < |o.items| && Encode(o.items[i]).Err? then Err(TypeError)
      else Ok(List(seq(|o.items|, i requires 0 <= i < |o.items| => Encode(o.items[i]).value)))
  }

  function Decode(o: Obj): Obj
    decreases o
  {
    match o
    case Dict(entries) => if IsMarker(entries) then Missing else Dict(map k | k in entries :: Decode(entries[k]))
    case List(items) => List(seq(|items|, i requires 0 <= i < |items| => Decode(items[i])))
    case _ => o
  }

  /** The recursion as it is written: dictionaries and lists are filled entry by entry. */
  method EncodeObject(o: Obj) returns (result: Result<Obj, CodecError>)
    ensures result == Encode(o)
    decreases o, 1
  {
    match o
    case Missing => return Ok(MARKER_OBJ);
    case Leaf(_) => return Ok(o);
    case Enum(value) => return Ok(Leaf(value));
    case Record(_) => result := EncodeDict(o);
    case Dict(_) => result := EncodeDict(o);
    case List(_) => result := EncodeList(o);
    case Tuple(_) => result := EncodeList(o);
  }

  method EncodeDict(o: Obj) returns (result: Result<Obj, CodecError>)
    requires o.Record? || o.Dict?
    ensures result == Encode(o)
    decreases o, 0
  {
    var encoded: map<Key, Obj> := map[];
    var left := o.entries.Keys;
    while left != {}
      invariant left <= o.entries.Keys && encoded.Keys == o.entries.Keys - left
      invariant forall k :: k in encoded ==> k.Text? && Encode(o.entries[k]) == Ok(encoded[k])
      decreases |left|
    {
      var k :| k in left;
      if !k.Text? {
        return Err(TypeError);
      }
      var value := EncodeObject(o.entries[k]);
      if value.Err? {
        return Err(TypeError);
      }
      encoded := encoded[k := value.value];
      left := left - {k};
    }
    assert Encode(o).Ok? && Encode(o).value.entries == encoded;
    return Ok(Dict(encoded));
  }

  method EncodeList(o: Obj) returns (result: Result<Obj, CodecError>)
    requires o.List? || o.Tuple?
    ensures result == Encode(o)
    decreases o, 0
  {
    var encoded: seq<Obj> := [];
    for i := 0 to |o.items|
      invariant |encoded| == i && forall j :: 0 <= j < i ==> Encode(o.items[j]) == Ok(encoded[j])
    {
      var value := EncodeObject(o.items[i]);
      if value.Err? {
        return Err(TypeError);
      }
      encoded := encoded + [value.value];
    }
    assert Encode(o).Ok? && Encode(o).value.items == encoded;
    return Ok(List(encoded));
  }

  // ----- Encoding, then decoding -----

  /** A value with no tuple, enumeration or record in it, no key that is no text, and no dictionary whose only key is
      the marker. */
  predicate Plain(o: Obj)
    decreases o
  {
    match o
    case Missing => true
    case Leaf(_) => true
    case Dict(entries) => !IsMarker(entries) && forall k :: k in entries ==> k.Text? && Plain(entries[k])
    case List(items) => forall i :: 0 <= i < |items| ==> Plain(items[i])
    case _ => false
  }

  /** What comes back from encoding and decoding. */
  function Returned(o: Obj): Result<Obj, CodecError> {
    match Encode(o)
    case Err(e) => Err(e)
    case Ok(encoded) => Ok(Decode(encoded))
  }

  /** A value survives encoding and decoding exactly if it is plain. */
  lemma {:induction false} ValueRoundTrip(o: Obj)
    ensures Returned(o) == Ok(o) <==> Plain(o)
    decreases o
  {
    match o
    case Dict(entries) =>
      forall k | k in entries ensures Returned(entries[k]) == Ok(entries[k]) <==> Plain(entries[k]) {
        ValueRoundTrip(entries[k]);
      }
      DictRoundTrip(entries);
    case List(items) =>
      forall i | 0 <= i < |items| ensures Returned(items[i]) == Ok(items[i]) <==> Plain(items[i]) {
        ValueRoundTrip(items[i]);
      }
      ListRoundTrip(items);
    case _ =>
  }

  lemma DictRoundTrip(entries: map<Key, Obj>)
    requires forall k :: k in entries ==> (Returned(entries[k]) == Ok(entries[k]) <==> Plain(entries[k]))
    ensures Returned(Dict(entries)) == Ok(Dict(entries)) <==> Plain(Dict(entries))
  {
    var o := Dict(entries);
    if Encode(o).Ok? {
      var encoded := Encode(o).value.entries;
      assert encoded.Keys == entries.Keys;
      if !IsMarker(entries) {
        var back := Decode(Dict(encoded)).entries;
        assert forall k :: k in entries ==> Returned(entries[k]) == Ok(back[k]);
        assert Returned(o) == Ok(o) <==> back == entries;
      }
    }
  }

  lemma ListRoundTrip(items: seq<Obj>)
    requires forall i :: 0 <= i < |items| ==> (Returned(items[i]) == Ok(items[i]) <==> Plain(items[i]))
    ensures Returned(List(items)) == Ok(List(items)) <==> Plain(List(items))
  {
    var o := List(items);
    if Encode(o).Ok? {
      var back := Decode(Encode(o).value).items;
      assert |back| == |items| && forall i :: 0 <= i < |items| ==> Returned(items[i]) == Ok(back[i]);
      assert Returned(o) == Ok(o) <==> back == items;
    }
  }

  // ----- Decoding, then encoding -----

  /** What JSON can hold: leaves, lists, and dictionaries with text keys. */
  predicate IsJson(o: Obj)
    decreases o
  {
    match o
    case Leaf(_) => true
    case Dict(entries) => forall k :: k in entries ==> k.Text? && IsJson(entries[k])
    case List(items) => forall i :: 0 <= i < |items| ==> IsJson(items[i])
    case _ => false
  }

  /** Decoding only ever yields values that survive. */
  lemma {:induction false} DecodedIsPlain(o: Obj)
    requires IsJson(o)
    ensures Plain(Decode(o))
    decreases o
  {
    match o
    case Dict(entries) =>
      if !IsMarker(entries) {
        forall k | k in entries ensures Plain(Decode(entries[k])) { DecodedIsPlain(entries[k]); }
        assert Decode(o).entries.Keys == entries.Keys;
      }
    case List(items) =>
      forall i | 0 <= i < |items| ensures Plain(Decode(items[i])) { DecodedIsPlain(items[i]); }
    case _ =>
  }

  /** The one form of a JSON value: decoded, and encoded again. */
  function Normal(o: Obj): Obj
    requires IsJson(o)
  {
    DecodedIsPlain(o);
    ValueRoundTrip(Decode(o));
    Encode(Decode(o)).value
  }

  lemma {:induction false} EncodedIsJson(o: Obj)
    requires Plain(o)
    ensures Encode(o).Ok? && IsJson(Encode(o).value)
    decreases o
  {
    match o
    case Dict(entries) =>
      forall k | k in entries ensures Encode(entries[k]).Ok? && IsJson(Encode(entries[k]).value) {
        EncodedIsJson(entries[k]);
      }
    case List(items) =>
      forall i | 0 <= i < |items| ensures Encode(items[i]).Ok? && IsJson(Encode(items[i]).value) {
        EncodedIsJson(items[i]);
      }
    case _ =>
  }

  /** Every dictionary with only the marker key holds `true` under it. */
  predicate Canonical(o: Obj)
    decreases o
  {
    match o
    case Dict(entries) =>
      if IsMarker(entries) then o == MARKER_OBJ else forall k :: k in entries ==> Canonical(entries[k])
    case List(items) => forall i :: 0 <= i < |items| ==> Canonical(items[i])
    case _ => true
  }

  /** The normal form decodes to the same value, is its own normal form, and is shared by exactly the JSON values that
      decode alike. */
  lemma NormalForm(a: Obj, b: Obj)
    requires IsJson(a) && IsJson(b)
    ensures IsJson(Normal(a)) && Decode(Normal(a)) == Decode(a) && Normal(Normal(a)) == Normal(a)
    ensures Normal(a) == Normal(b) <==> Decode(a) == Decode(b)
  {
    hide Encode, Decode, Plain, IsJson;
    NormalDecodes(a);
    NormalDecodes(b);
  }

  lemma NormalDecodes(a: Obj)
    requires IsJson(a)
    ensures IsJson(Normal(a)) && Decode(Normal(a)) == Decode(a)
    ensures Encode(Decode(a)) == Ok(Normal(a))
    ensures Normal(Normal(a)) == Normal(a)
  {
    hide Encode, Decode, Plain, IsJson;
    DecodedIsPlain(a);
    ValueRoundTrip(Decode(a));
    EncodedIsJson(Decode(a));
  }

  /** A JSON value is its own normal form exactly if its markers are the ones that encoding writes. */
  lemma {:induction false} NormalExactly(o: Obj)
    requires IsJson(o)
    ensures Normal(o) == o <==> Canonical(o)
    decreases o
  {
    match o
    case Dict(entries) =>
      if !IsMarker(entries) {
        forall k | k in entries ensures Normal(entries[k]) == entries[k] <==> Canonical(entries[k]) {
          NormalExactly(entries[k]);
        }
        DictNormal(entries);
      }
    case List(items) =>
      forall i | 0 <= i < |items| ensures Normal(items[i]) == items[i] <==> Canonical(items[i]) {
        NormalExactly(items[i]);
      }
      ListNormal(items);
    case _ =>
  }

  lemma DictNormal(entries: map<Key, Obj>)
    requires IsJson(Dict(entries)) && !IsMarker(entries)
    ensures Normal(Dict(entries)) == Dict(map k | k in entries :: Normal(entries[k]))
    ensures Normal(Dict(entries)) == Dict(entries) <==> forall k :: k in entries ==> Normal(entries[k]) == entries[k]
  {
    var decoded := Decode(Dict(entries)).entries;
    assert decoded.Keys == entries.Keys;
    forall k | k in entries ensures Encode(decoded[k]) == Ok(Normal(entries[k])) { NormalDecodes(entries[k]); }
    NormalDecodes(Dict(entries));
    var normal := Normal(Dict(entries)).entries;
    assert normal == map k | k in entries :: Normal(entries[k]);
    assert normal == entries <==> forall k :: k in entries ==> normal[k] == entries[k];
  }

  lemma ListNormal(items: seq<Obj>)
    requires IsJson(List(items))
    ensures Normal(List(items)) == List(items) <==> forall i :: 0 <= i < |items| ==> Normal(items[i]) == items[i]
  {
    forall i | 0 <= i < |items| ensures Encode(Decode(items[i])) == Ok(Normal(items[i])) { NormalDecodes(items[i]); }
    NormalDecodes(List(items));
    var normal := Normal(List(items)).items;
    assert |normal| == |items| && forall i :: 0 <= i < |items| ==> normal[i] == Normal(items[i]);
  }

  // ----- Whole snapshots -----

  type Fields = map<Key, Obj>

  /** The snapshot with its four parts, each by field name. */
  datatype Snapshot = Snapshot(symbol: Obj, timestamp: Obj, market: Fields, derivatives: Fields, flow: Fields,
                               context: Fields)

  const MARKET_FIELDS := {Text("price"), Text("vwap"), Text("atr"), Text("atr_z"), Text("range_expansion"),
                          Text("structure_levels"), Text("acceptance_score"), Text("sweep_score")}
  const DERIVATIVES_FIELDS := {Text("open_interest"), Text("oi_slope_short"), Text("oi_slope_med"), Text("oi_accel"),
                               Text("funding_rate"), Text("funding_slope"), Text("funding_z"),
                               Text("liquidation_intensity")}
  const FLOW_FIELDS := {Text("cvd"), Text("cvd_slope"), Text("cvd_efficiency"), Text("aggressive_volume_ratio")}
  const CONTEXT_FIELDS := {Text("rs_vs_btc"), Text("beta_to_btc"), Text("alt_breadth"), Text("btc_regime"),
                           Text("eth_regime")}

  predicate HasFields(s: Snapshot) {
    && s.market.Keys == MARKET_FIELDS && s.derivatives.Keys == DERIVATIVES_FIELDS
    && s.flow.Keys == FLOW_FIELDS && s.context.Keys == CONTEXT_FIELDS
  }

  const SYMBOL := Text("symbol")
  const TIMESTAMP := Text("timestamp")
  const MARKET := Text("market")
  const DERIVATIVES := Text("derivatives")
  const FLOW := Text("flow")
  const CONTEXT := Text("context")

  function AsRecord(s: Snapshot): Fields {
    map[SYMBOL := s.symbol, TIMESTAMP := s.timestamp, MARKET := Record(s.market), DERIVATIVES := Record(s.derivatives),
        FLOW := Record(s.flow), CONTEXT := Record(s.context)]
  }

  function ToJson(s: Snapshot): Result<Fields, CodecError> {
    match Encode(Record(AsRecord(s)))
    case Err(e) => Err(e)
    case Ok(encoded) => if encoded.Dict? then Ok(encoded.entries) else Err(TypeError)
  }

  /** A missing part is a key error; a part that is no object, or an object of other fields, a type error. */
  function FromJson(json: Fields): Result<Snapshot, CodecError> {
    var decoded := Decode(Dict(json));
    if !decoded.Dict? then Err(TypeError)
    else
      var d := decoded.entries;
      if MARKET !in d || DERIVATIVES !in d || FLOW !in d || CONTEXT !in d then Err(KeyError)
      else if !d[MARKET].Dict? || !d[DERIVATIVES].Dict? || !d[FLOW].Dict? || !d[CONTEXT].Dict? then Err(TypeError)
      else if SYMBOL !in d || TIMESTAMP !in d then Err(KeyError)
      else
        var s := Snapshot(d[SYMBOL], d[TIMESTAMP], d[MARKET].entries, d[DERIVATIVES].entries, d[FLOW].entries,
                          d[CONTEXT].entries);
        if HasFields(s) then Ok(s) else Err(TypeError)
  }

  predicate AllPlain(fields: Fields) {
    forall k :: k in fields ==> Plain(fields[k])
  }

  predicate Textual(fields: Fields) {
    forall k :: k in fields ==> k.Text?
  }

  /** A record comes back as a dictionary of the same fields exactly if all its values are plain. */
  lemma RecordRoundTrip(fields: Fields)
    requires Textual(fields) && !IsMarker(fields)
    ensures Returned(Record(fields)) == Ok(Dict(fields)) <==> AllPlain(fields)
    ensures Encode(Record(fields)).Ok? ==>
              var back := Decode(Encode(Record(fields)).value);
              back.Dict? && back.entries.Keys == fields.Keys &&
              forall k :: k in fields ==> Returned(fields[k]) == Ok(back.entries[k])
    ensures Encode(Record(fields)).Err? <==> exists k :: k in fields && Encode(fields[k]).Err?
  {
    forall k | k in fields ensures Returned(fields[k]) == Ok(fields[k]) <==> Plain(fields[k]) {
      ValueRoundTrip(fields[k]);
    }
    if Encode(Record(fields)).Ok? {
      var encoded := Encode(Record(fields)).value.entries;
      assert encoded.Keys == fields.Keys;
      var back := Decode(Dict(encoded)).entries;
      assert forall k :: k in fields ==> Returned(fields[k]) == Ok(back[k]);
      assert Returned(Record(fields)) == Ok(Dict(fields)) <==> back == fields;
    }
  }

  ghost predicate PlainSnapshot(s: Snapshot) {
    Plain(s.symbol) && Plain(s.timestamp) && AllPlain(s.market) && AllPlain(s.derivatives) && AllPlain(s.flow)
      && AllPlain(s.context)
  }

  /** A snapshot written and read back is the same snapshot, exactly if none of its values holds a tuple, an
      enumeration, a record, a key that is no text, or a dictionary whose only key is the marker. */
  lemma SnapshotRoundTrip(s: Snapshot)
    requires HasFields(s)
    ensures (ToJson(s).Ok? && FromJson(ToJson(s).value) == Ok(s)) <==> PlainSnapshot(s)
  {
    hide Encode, Decode, Plain, Returned;
    var r := AsRecord(s);
    TopFields(s);
    RecordRoundTrip(r);
    PartRoundTrip(s.market, MARKET_FIELDS, Text("price"));
    PartRoundTrip(s.derivatives, DERIVATIVES_FIELDS, Text("open_interest"));
    PartRoundTrip(s.flow, FLOW_FIELDS, Text("cvd"));
    PartRoundTrip(s.context, CONTEXT_FIELDS, Text("rs_vs_btc"));
    ValueRoundTrip(s.symbol);
    ValueRoundTrip(s.timestamp);
    ReturnedIs(Record(r));
    ReturnedParts(s);
  }

  lemma TopFields(s: Snapshot)
    ensures Textual(AsRecord(s)) && !IsMarker(AsRecord(s))
    ensures AsRecord(s).Keys == {SYMBOL, TIMESTAMP, MARKET, DERIVATIVES, FLOW, CONTEXT}
    ensures var r := AsRecord(s);
            && r[SYMBOL] == s.symbol && r[TIMESTAMP] == s.timestamp && r[MARKET] == Record(s.market)
            && r[DERIVATIVES] == Record(s.derivatives) && r[FLOW] == Record(s.flow) && r[CONTEXT] == Record(s.context)
  {
    assert SYMBOL in AsRecord(s).Keys && SYMBOL != MARKER;
  }

  lemma PartRoundTrip(fields: Fields, names: set<Key>, name: Key)
    requires fields.Keys == names && name in names && name != MARKER && forall k :: k in names ==> k.Text?
    ensures Returned(Record(fields)) == Ok(Dict(fields)) <==> AllPlain(fields)
    ensures Returned(Record(fields)).Ok? ==> Returned(Record(fields)).value.Dict?
  {
    RecordRoundTrip(fields);
  }

  lemma ReturnedIs(o: Obj)
    ensures Encode(o).Ok? ==> Returned(o) == Ok(Decode(Encode(o).value))
    ensures Encode(o).Err? ==> Returned(o).Err?
  {
  }

  lemma ReturnedParts(s: Snapshot)
    ensures forall k :: k in AsRecord(s) ==> (Returned(AsRecord(s)[k]).Ok? <==> Encode(AsRecord(s)[k]).Ok?)
    ensures Encode(Record(AsRecord(s))).Ok? ==> Encode(Record(AsRecord(s))).value.Dict?
  {
  }
}
