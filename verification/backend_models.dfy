/** The backend's request models: a batch is metadata plus a list of
    readings, each reading one of three variants selected by its `type`
    literal.  Validation is modelled as parsing a JSON value into the typed
    records; runtime coercion between JSON types is not modelled. */
module BackendModels {
  import opened Common

  /** A decoded JSON value. */
  datatype Json =
    | JNull
    | JBool(b: bool)
    | JInt(i: int)
    | JFloat(f: Float)
    | JString(s: string)
    | JArray(items: seq<Json>)
    | JObject(fields: map<string, Json>)

  datatype Metadata = Metadata(deviceId: string, version: Option<string>, userId: Option<string>, modelName: Option<string>)

  datatype Reading =
    | VitalReading(t: string, code: int, val: Float)
    | GpsReading(t: string, lat: Float, lon: Float, acc: Option<Float>)
    | EventReading(t: string, eventLabel: string, valText: Option<string>, metadata: Option<map<string, Json>>)

  datatype Batch = Batch(metadata: Metadata, data: seq<Reading>)

  // ---------------------------------------------------------------------
  // Field access.

  /** A required string field. */
  function StrField(o: map<string, Json>, key: string): Option<string> {
    if key in o && o[key].JString? then Some(o[key].s) else None
  }

  /** A required float field: a JSON integer is accepted as a float. */
  function FloatField(o: map<string, Json>, key: string): Option<Float> {
    if key in o && o[key].JFloat? then Some(o[key].f)
    else if key in o && o[key].JInt? then Some(o[key].i)
    else None
  }

  /** A required int field. */
  function IntField(o: map<string, Json>, key: string): Option<int> {
    if key in o && o[key].JInt? then Some(o[key].i) else None
  }

  /** An optional field: absent and null both read as None; `Some(None)`
      means present with the wrong type. */
  function OptStrField(o: map<string, Json>, key: string): Option<Option<string>> {
    if key !in o || o[key].JNull? then Some(None)
    else if o[key].JString? then Some(Some(o[key].s))
    else None
  }

  function OptFloatField(o: map<string, Json>, key: string): Option<Option<Float>> {
    if key !in o || o[key].JNull? then Some(None)
    else if o[key].JFloat? then Some(Some(o[key].f))
    else if o[key].JInt? then Some(Some(o[key].i))
    else None
  }

  function OptObjectField(o: map<string, Json>, key: string): Option<Option<map<string, Json>>> {
    if key !in o || o[key].JNull? then Some(None)
    else if o[key].JObject? then Some(Some(o[key].fields))
    else None
  }

  // ---------------------------------------------------------------------
  // Parsing.

  /** `Metadata`: only `device_id` is required; the other three default to
      None.  Unknown keys are ignored. */
  function ParseMetadata(j: Json): (r: Option<Metadata>)
    ensures r.Some? ==> j.JObject? && StrField(j.fields, "device_id") == Some(r.value.deviceId)
  {
    if !j.JObject? then None
    else
      var o := j.fields;
      match (StrField(o, "device_id"), OptStrField(o, "version"), OptStrField(o, "user_id"), OptStrField(o, "model_name"))
      case (Some(d), Some(v), Some(u), Some(m)) => Some(Metadata(d, v, u, m))
      case _ => None
  }

  /** `Reading`: the `type` literal picks the variant, whose required fields
      must be present with the right type. */
  function ParseReading(j: Json): (r: Option<Reading>)
    ensures r.Some? ==> j.JObject? && "type" in j.fields && j.fields["type"].JString?
    ensures r.Some? && r.value.VitalReading? ==> j.fields["type"] == JString("vital")
    ensures r.Some? && r.value.GpsReading? ==> j.fields["type"] == JString("gps")
    ensures r.Some? && r.value.EventReading? ==> j.fields["type"] == JString("event")
  {
    if !j.JObject? then None
    else
      var o := j.fields;
      var kind := StrField(o, "type");
      var t := StrField(o, "t");
      if t.None? then None
      else if kind == Some("vital") then
        match (IntField(o, "code"), FloatField(o, "val"))
        case (Some(code), Some(val)) => Some(VitalReading(t.value, code, val))
        case _ => None
      else if kind == Some("gps") then
        match (FloatField(o, "lat"), FloatField(o, "lon"), OptFloatField(o, "acc"))
        case (Some(lat), Some(lon), Some(acc)) => Some(GpsReading(t.value, lat, lon, acc))
        case _ => None
      else if kind == Some("event") then
        match (StrField(o, "label"), OptStrField(o, "val_text"), OptObjectField(o, "metadata"))
        case (Some(name), Some(valText), Some(metadata)) => Some(EventReading(t.value, name, valText, metadata))
        case _ => None
      else None
  }

  /** Every element of a list parses, in order. */
  function ParseReadings(js: seq<Json>): (r: Option<seq<Reading>>)
    ensures r.Some? ==> |r.value| == |js|
    ensures r.Some? <==> forall i :: 0 <= i < |js| ==> ParseReading(js[i]).Some?
    ensures r.Some? ==> forall i :: 0 <= i < |js| ==> ParseReading(js[i]) == Some(r.value[i])
  {
    if js == [] then Some([])
    else
      var head := ParseReading(js[0]);
      var tail := ParseReadings(js[1..]);
      if head.Some? && tail.Some? then Some([head.value] + tail.value)
      else if head.None? then None
      else
        assert !(forall i :: 0 <= i < |js| ==> ParseReading(js[i]).Some?) by {
          var k :| 0 <= k < |js[1..]| && !ParseReading(js[1..][k]).Some?;
          assert js[1..][k] == js[k + 1];
        }
        None
  }

  /** `Batch`: an object whose `metadata` and every element of `data`
      validate. */
  function ParseBatch(j: Json): (r: Option<Batch>)
    ensures r.Some? ==> j.JObject? && "data" in j.fields && j.fields["data"].JArray? && |r.value.data| == |j.fields["data"].items|
  {
    if !j.JObject? || "metadata" !in j.fields || "data" !in j.fields || !j.fields["data"].JArray? then None
    else
      match (ParseMetadata(j.fields["metadata"]), ParseReadings(j.fields["data"].items))
      case (Some(m), Some(data)) => Some(Batch(m, data))
      case _ => None
  }

  // ---------------------------------------------------------------------
  // The declared requirements, stated field by field.

  predicate IsFloat(j: Json) { j.JFloat? || j.JInt? }
  predicate IsOptional(o: map<string, Json>, key: string, p: Json -> bool) { key !in o || o[key].JNull? || p(o[key]) }
  predicate Has(o: map<string, Json>, key: string, p: Json -> bool) { key in o && p(o[key]) }

  /** What each reading type declares: a vital requires an int `code` and a
      float `val`; a gps reading requires `lat` and `lon`, with `acc`
      optional; an event requires `label`, with `val_text` and `metadata`
      optional.  Every variant requires the string `t`. */
  predicate ValidReading(j: Json) {
    && j.JObject?
    && var o := j.fields;
    && Has(o, "t", (v: Json) => v.JString?)
    && (|| (o.Keys >= {"type"} && o["type"] == JString("vital")
            && Has(o, "code", (v: Json) => v.JInt?) && Has(o, "val", IsFloat))
        || (o.Keys >= {"type"} && o["type"] == JString("gps")
            && Has(o, "lat", IsFloat) && Has(o, "lon", IsFloat) && IsOptional(o, "acc", IsFloat))
        || (o.Keys >= {"type"} && o["type"] == JString("event")
            && Has(o, "label", (v: Json) => v.JString?)
            && IsOptional(o, "val_text", (v: Json) => v.JString?)
            && IsOptional(o, "metadata", (v: Json) => v.JObject?)))
  }

  /** The parser accepts exactly the readings the declarations allow. */
  lemma ParseReadingValid(j: Json)
    ensures ParseReading(j).Some? <==> ValidReading(j)
  {
  }

  /** `Metadata` accepts an object with just a `device_id`, defaulting the
      other fields to None, and rejects one without it. */
  lemma MetadataDefaults(deviceId: string, o: map<string, Json>)
    ensures ParseMetadata(JObject(map["device_id" := JString(deviceId)])) == Some(Metadata(deviceId, None, None, None))
    ensures "device_id" !in o ==> ParseMetadata(JObject(o)).None?
  {
  }

  // ---------------------------------------------------------------------
  // Serialising the typed records.

  function OptStr(v: Option<string>): Json {
    if v.Some? then JString(v.value) else JNull
  }

  function MetadataJson(m: Metadata): Json {
    JObject(map["device_id" := JString(m.deviceId), "version" := OptStr(m.version),
                "user_id" := OptStr(m.userId), "model_name" := OptStr(m.modelName)])
  }

  function ReadingJson(x: Reading): Json {
    match x
    case VitalReading(t, code, val) =>
      JObject(map["type" := JString("vital"), "t" := JString(t), "code" := JInt(code), "val" := JFloat(val)])
    case GpsReading(t, lat, lon, acc) =>
      JObject(map["type" := JString("gps"), "t" := JString(t), "lat" := JFloat(lat), "lon" := JFloat(lon),
                  "acc" := if acc.Some? then JFloat(acc.value) else JNull])
    case EventReading(t, name, valText, metadata) =>
      JObject(map["type" := JString("event"), "t" := JString(t), "label" := JString(name),
                  "val_text" := OptStr(valText),
                  "metadata" := if metadata.Some? then JObject(metadata.value) else JNull])
  }

  function BatchJson(b: Batch): Json {
    JObject(map["metadata" := MetadataJson(b.metadata), "data" := JArray(Map(ReadingJson, b.data))])
  }

  /** Every typed batch serialises to a value that validates back to the
      same batch. */
  lemma {:induction false} BatchJsonRoundTrip(b: Batch)
    ensures ParseBatch(BatchJson(b)) == Some(b)
  {
    var js := Map(ReadingJson, b.data);
    ReadingsRoundTrip(b.data);
    MetadataRoundTrip(b.metadata);
  }

  lemma MetadataRoundTrip(m: Metadata)
    ensures ParseMetadata(MetadataJson(m)) == Some(m)
  {
  }

  lemma {:induction false} ReadingsRoundTrip(xs: seq<Reading>)
    ensures ParseReadings(Map(ReadingJson, xs)) == Some(xs)
  {
    if xs != [] {
      ReadingsRoundTrip(xs[1..]);
      var js := Map(ReadingJson, xs);
      assert js[1..] == Map(ReadingJson, xs[1..]);
      ReadingRoundTrip(xs[0]);
      assert [xs[0]] + xs[1..] == xs;
    }
  }

  lemma ReadingRoundTrip(x: Reading)
    ensures ParseReading(ReadingJson(x)) == Some(x)
  {
    match x
    case VitalReading(t, code, val) => VitalRoundTrip(t, code, val);
    case GpsReading(t, lat, lon, acc) => GpsRoundTrip(t, lat, lon, acc);
    case EventReading(t, name, valText, metadata) => EventRoundTrip(t, name, valText, metadata);
  }

  lemma VitalRoundTrip(t: string, code: int, val: Float)
    ensures ParseReading(ReadingJson(VitalReading(t, code, val))) == Some(VitalReading(t, code, val))
  {
  }

  lemma GpsRoundTrip(t: string, lat: Float, lon: Float, acc: Option<Float>)
    ensures ParseReading(ReadingJson(GpsReading(t, lat, lon, acc))) == Some(GpsReading(t, lat, lon, acc))
  {
  }

  lemma EventRoundTrip(t: string, name: string, valText: Option<string>, metadata: Option<map<string, Json>>)
    ensures ParseReading(ReadingJson(EventReading(t, name, valText, metadata))) == Some(EventReading(t, name, valText, metadata))
  {
  }
}
