/** The stand-alone ingestion script: the same three-way partition as the
    backend, but over an unvalidated JSON value, so a missing key or a value
    of the wrong shape raises instead of being rejected up front. */
module IngestScript {
  import opened Common
  import opened Text
  import opened BackendModels
  import Ingest

  /** The Python exceptions the script can raise while reading the batch. */
  datatype Failure = KeyError(key: string) | TypeError | AttributeError

  datatype Outcome<+T> = Ok(value: T) | Raised(failure: Failure)

  /** `j[key]`: a dict without the key raises KeyError; anything that is not
      a dict cannot be indexed by a string. */
  function Index(j: Json, key: string): (r: Outcome<Json>)
    ensures r.Ok? <==> j.JObject? && key in j.fields
    ensures r.Ok? ==> r.value == j.fields[key]
    ensures r.Raised? && j.JObject? ==> r.failure == KeyError(key)
  {
    if !j.JObject? then Raised(TypeError)
    else if key in j.fields then Ok(j.fields[key])
    else Raised(KeyError(key))
  }

  /** `d.get(key, default)` on a dict. */
  function Get(o: map<string, Json>, key: string, default: Json): Json {
    if key in o then o[key] else default
  }

  /** `str(x)` of a JSON scalar; lists and dicts are not rendered. */
  function PyStr(j: Json): Option<string> {
    match j
    case JNull => Some("None")
    case JBool(b) => Some(if b then "True" else "False")
    case JInt(i) => Some(IntToString(i))
    case JFloat(f) => Some(FloatText(f))
    case JString(s) => Some(s)
    case JArray(_) => None
    case JObject(_) => None
  }

  /** The point text of the script, longitude first. */
  function ScriptPoint(lon: Json, lat: Json): Option<string> {
    match (PyStr(lon), PyStr(lat))
    case (Some(x), Some(y)) => Some("POINT(" + x + " " + y + ")")
    case _ => None
  }

  datatype VitalRow = VitalRow(time: Json, deviceId: Json, code: Json, val: Json)
  datatype LocationRow = LocationRow(time: Json, deviceId: Json, point: Option<string>, acc: Json)
  datatype EventRow = EventRow(time: Json, deviceId: Json, eventLabel: Json, valText: Json, metadata: Json)

  datatype Buckets = Buckets(vitals: seq<VitalRow>, locations: seq<LocationRow>, events: seq<EventRow>)

  function Size(b: Buckets): nat {
    |b.vitals| + |b.locations| + |b.events|
  }

  /** The type tag a reading is routed by, when it is one of the three. */
  predicate Known(reading: Json) {
    reading.JObject? && Get(reading.fields, "type", JNull) in {JString("vital"), JString("gps"), JString("event")}
  }

  /** One iteration of the loop: the reading's row is appended to its
      bucket; an unknown or missing type is ignored. */
  function Route(b: Buckets, deviceId: Json, reading: Json): (r: Outcome<Buckets>)
    ensures r.Ok? ==> Size(r.value) == Size(b) + (if Known(reading) then 1 else 0)
    ensures !reading.JObject? ==> r == Raised(AttributeError)
  {
    if !reading.JObject? then Raised(AttributeError)
    else
      var o := reading.fields;
      var kind := Get(o, "type", JNull);
      var t := Get(o, "t", JNull);
      if kind == JString("vital") then
        match (Index(reading, "code"), Index(reading, "val"))
        case (Raised(e), _) => Raised(e)
        case (_, Raised(e)) => Raised(e)
        case (Ok(code), Ok(val)) => Ok(b.(vitals := b.vitals + [VitalRow(t, deviceId, code, val)]))
      else if kind == JString("gps") then
        match (Index(reading, "lon"), Index(reading, "lat"), Index(reading, "acc"))
        case (Raised(e), _, _) => Raised(e)
        case (_, Raised(e), _) => Raised(e)
        case (_, _, Raised(e)) => Raised(e)
        case (Ok(lon), Ok(lat), Ok(acc)) =>
          Ok(b.(locations := b.locations + [LocationRow(t, deviceId, ScriptPoint(lon, lat), acc)]))
      else if kind == JString("event") then
        match Index(reading, "label")
        case Raised(e) => Raised(e)
        case Ok(name) =>
          Ok(b.(events := b.events + [EventRow(t, deviceId, name, Get(o, "val_text", JNull),
                                               Get(o, "metadata", JObject(map[])))]))
      else Ok(b)
  }

  /** The loop over the readings, stopping at the first exception. */
  function RouteAll(b: Buckets, deviceId: Json, readings: seq<Json>): (r: Outcome<Buckets>)
    ensures r.Ok? ==> Size(r.value) == Size(b) + |Filter(Known, readings)|
    decreases |readings|
  {
    if readings == [] then Ok(b)
    else
      match Route(b, deviceId, readings[0])
      case Raised(e) => Raised(e)
      case Ok(b') =>
        FilterConcat(Known, [readings[0]], readings[1..]);
        assert [readings[0]] + readings[1..] == readings;
        RouteAll(b', deviceId, readings[1..])
  }

  /** `for reading in batch_data['data']`: a list yields its elements; an
      empty dict or string yields nothing; a non-empty one yields keys or
      characters, which have no `get`; anything else is not iterable. */
  function Iterate(j: Json): Outcome<seq<Json>> {
    match j
    case JArray(items) => Ok(items)
    case JObject(fields) => if fields == map[] then Ok([]) else Raised(AttributeError)
    case JString(s) => if s == "" then Ok([]) else Raised(AttributeError)
    case _ => Raised(TypeError)
  }

  datatype Statement =
    | InsertVitals(vitalRows: seq<VitalRow>)
    | InsertLocations(locationRows: seq<LocationRow>)
    | InsertEvents(eventRows: seq<EventRow>)

  /** What a run leaves: the inserts executed before the commit and the
      count it prints. */
  datatype Run = Run(statements: seq<Statement>, printed: nat)

  /** The inserts: one per non-empty bucket, vitals, locations, events. */
  function Inserts(b: Buckets): (r: seq<Statement>)
    ensures |r| <= 3
    ensures (exists i :: 0 <= i < |r| && r[i] == InsertVitals(b.vitals)) <==> b.vitals != []
    ensures (exists i :: 0 <= i < |r| && r[i] == InsertLocations(b.locations)) <==> b.locations != []
    ensures (exists i :: 0 <= i < |r| && r[i] == InsertEvents(b.events)) <==> b.events != []
    ensures forall i :: 0 <= i < |r| ==> r[i] in [InsertVitals(b.vitals), InsertLocations(b.locations), InsertEvents(b.events)]
  {
    var v := if b.vitals != [] then [InsertVitals(b.vitals)] else [];
    var l := if b.locations != [] then [InsertLocations(b.locations)] else [];
    var e := if b.events != [] then [InsertEvents(b.events)] else [];
    var r := v + l + e;
    assert b.vitals != [] ==> r[0] == InsertVitals(b.vitals);
    assert b.locations != [] ==> r[|v|] == InsertLocations(b.locations);
    assert b.events != [] ==> r[|v| + |l|] == InsertEvents(b.events);
    r
  }

  /** `ingest_batch(connection, batch_data)`: the device id and the
      readings are looked up first, then the loop, then the inserts; the
      printed count is the sum of the bucket sizes. */
  function IngestBatch(batchData: Json): (r: Outcome<Run>)
    ensures r.Ok? ==> batchData.JObject? && "metadata" in batchData.fields && "data" in batchData.fields
    ensures r.Ok? && batchData.fields["data"].JArray? ==>
      r.value.printed == |Filter(Known, batchData.fields["data"].items)|
  {
    var meta := Index(batchData, "metadata");
    if meta.Raised? then Raised(meta.failure)
    else
      var deviceId := Index(meta.value, "device_id");
      if deviceId.Raised? then Raised(deviceId.failure)
      else
        var data := Index(batchData, "data");
        if data.Raised? then Raised(data.failure)
        else
          var readings := Iterate(data.value);
          if readings.Raised? then Raised(readings.failure)
          else
            match RouteAll(Buckets([], [], []), deviceId.value, readings.value)
            case Raised(e) => Raised(e)
            case Ok(b) => Ok(Run(Inserts(b), Size(b)))
  }

  /** Readings of unknown type are skipped silently: appending one changes
      neither the inserts nor the count. */
  lemma {:induction false} UnknownTypeIgnored(b: Buckets, deviceId: Json, readings: seq<Json>, extra: Json)
    requires extra.JObject? && !Known(extra)
    ensures RouteAll(b, deviceId, readings + [extra]) == RouteAll(b, deviceId, readings)
    decreases |readings|
  {
    if readings == [] {
      assert [extra][1..] == [];
    } else {
      assert (readings + [extra])[1..] == readings[1..] + [extra];
      match Route(b, deviceId, readings[0])
      case Raised(e) =>
      case Ok(b') => UnknownTypeIgnored(b', deviceId, readings[1..], extra);
    }
  }

  /** A missing `metadata` key is stored as the empty object, while an
      explicit null stays null. */
  lemma MetadataDefault(t: Json, name: string, deviceId: Json)
    ensures var reading := JObject(map["type" := JString("event"), "t" := t, "label" := JString(name)]);
      Route(Buckets([], [], []), deviceId, reading)
        == Ok(Buckets([], [], [EventRow(t, deviceId, JString(name), JNull, JObject(map[]))]))
    ensures var reading := JObject(map["type" := JString("event"), "t" := t, "label" := JString(name), "metadata" := JNull]);
      Route(Buckets([], [], []), deviceId, reading)
        == Ok(Buckets([], [], [EventRow(t, deviceId, JString(name), JNull, JNull)]))
  {
    var o := map["type" := JString("event"), "t" := t, "label" := JString(name)];
    assert "val_text" !in o && "metadata" !in o;
    assert Get(o, "type", JNull) == JString("event");
    assert Get(o, "t", JNull) == t;
    assert Index(JObject(o), "label") == Ok(JString(name));
    assert Get(o, "metadata", JObject(map[])) == JObject(map[]);
    assert Get(o, "val_text", JNull) == JNull;
    var r := Route(Buckets([], [], []), deviceId, JObject(o));
    assert r.Ok?;
    assert r.value.events == [EventRow(t, deviceId, JString(name), JNull, JObject(map[]))];
    var o2 := map["type" := JString("event"), "t" := t, "label" := JString(name), "metadata" := JNull];
    assert Get(o2, "type", JNull) == JString("event");
    assert Get(o2, "t", JNull) == t;
    assert Index(JObject(o2), "label") == Ok(JString(name));
    assert Get(o2, "metadata", JObject(map[])) == JNull;
    assert Get(o2, "val_text", JNull) == JNull;
    var r2 := Route(Buckets([], [], []), deviceId, JObject(o2));
    assert r2.Ok?;
    assert r2.value.events == [EventRow(t, deviceId, JString(name), JNull, JNull)];
  }

  /** The script demands `acc` where the backend model makes it optional: a
      gps reading without it validates for the backend but raises KeyError
      in the script. */
  lemma AccRequiredOnlyInScript(t: string, lat: Float, lon: Float)
    ensures var reading := JObject(map["type" := JString("gps"), "t" := JString(t), "lat" := JFloat(lat), "lon" := JFloat(lon)]);
      && ParseReading(reading) == Some(GpsReading(t, lat, lon, None))
      && Route(Buckets([], [], []), JString("d"), reading) == Raised(KeyError("acc"))
  {
  }

  /** On a batch the backend would accept, serialised, the script never
      raises and routes every reading, with the same point text as the
      backend. */
  lemma {:induction false} ScriptAcceptsSerialisedBatch(b: Batch)
    ensures var r := IngestBatch(BatchJson(b));
      r.Ok? && r.value.printed == |b.data|
  {
    var j := BatchJson(b);
    var readings := Map(ReadingJson, b.data);
    var meta := MetadataJson(b.metadata);
    assert Index(j, "metadata") == Ok(meta);
    assert Index(meta, "device_id") == Ok(JString(b.metadata.deviceId));
    assert Index(j, "data") == Ok(JArray(readings));
    assert Iterate(JArray(readings)) == Ok(readings);
    RouteAllSerialised(Buckets([], [], []), JString(b.metadata.deviceId), b.data);
  }

  lemma {:induction false} RouteAllSerialised(acc: Buckets, deviceId: Json, xs: seq<Reading>)
    ensures var r := RouteAll(acc, deviceId, Map(ReadingJson, xs));
      r.Ok? && Size(r.value) == Size(acc) + |xs|
    decreases |xs|
  {
    if xs != [] {
      var js := Map(ReadingJson, xs);
      assert js[1..] == Map(ReadingJson, xs[1..]);
      var x := xs[0];
      assert Known(ReadingJson(x));
      var step := Route(acc, deviceId, js[0]);
      assert step.Ok? by {
        match x
        case VitalReading(_, _, _) =>
        case GpsReading(_, _, _, _) =>
        case EventReading(_, _, _, _) =>
      }
      RouteAllSerialised(step.value, deviceId, xs[1..]);
    }
  }

  /** For a gps reading of the backend model, the script's point text is the
      backend's. */
  lemma SamePoint(lat: Float, lon: Float)
    ensures ScriptPoint(JFloat(lon), JFloat(lat)) == Some(Ingest.PointText(lon, lat))
  {
  }
}
