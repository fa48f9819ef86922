/** Backend ingestion of a validated batch: the device row, the readings
    partitioned into the three tables, and the all-or-nothing transaction.
    The database is an oracle whose only observable choice is which call
    raises. */
module Ingest {
  import opened Common
  import opened Text
  import opened BackendModels

  /** The three tables readings land in. */
  datatype Table = SensorVitals | SensorLocation | UserEvents

  datatype VitalRow = VitalRow(time: string, deviceId: string, metricType: int, val: Float)
  datatype LocationRow = LocationRow(time: string, deviceId: string, coords: string, accuracy: Option<Float>)
  /** `metadata` is the object that is serialised into the row's JSON
      column. */
  datatype EventRow = EventRow(time: string, deviceId: string, eventType: string, valText: Option<string>, metadata: map<string, Json>)

  datatype Buckets = Buckets(vitals: seq<VitalRow>, locations: seq<LocationRow>, events: seq<EventRow>)

  /** The well-known-text point of a location, longitude first. */
  function PointText(lon: Float, lat: Float): string {
    "POINT(" + FloatText(lon) + " " + FloatText(lat) + ")"
  }

  /** Reads the coordinates back out of a point, as (longitude, latitude). */
  function ParsePoint(s: string): Option<(Float, Float)> {
    if |s| < 7 || s[..6] != "POINT(" || s[|s| - 1] != ')' then None
    else ParseCoords(s[6..|s| - 1])
  }

  /** Two numbers separated by one space. */
  function ParseCoords(inner: string): Option<(Float, Float)> {
    var parts := Split(inner, ' ');
    if |parts| != 2 then None
    else
      match (ParseFloatText(parts[0]), ParseFloatText(parts[1]))
      case (Some(x), Some(y)) => Some((x, y))
      case _ => None
  }

  lemma PointShell(inner: string)
    ensures ParsePoint("POINT(" + inner + ")") == ParseCoords(inner)
  {
    var s := "POINT(" + inner + ")";
    Slices("POINT(", inner, ")");
    assert s[|s| - 1] == ')';
  }

  lemma CoordsRoundTrip(lon: Float, lat: Float)
    ensures ParseCoords(FloatText(lon) + " " + FloatText(lat)) == Some((lon, lat))
  {
    FloatTextRoundTrip(lon);
    FloatTextRoundTrip(lat);
    SplitPair(FloatText(lon), FloatText(lat), ' ');
  }

  /** The point text puts longitude first: reading it back gives the
      longitude as the first coordinate. */
  lemma PointTextRoundTrip(lon: Float, lat: Float)
    ensures ParsePoint(PointText(lon, lat)) == Some((lon, lat))
  {
    var a := FloatText(lon);
    var inner := a + " " + FloatText(lat);
    assert PointText(lon, lat) == "POINT(" + inner + ")" by {
      Assoc("POINT(", a, " ");
      Assoc("POINT(", a + " ", FloatText(lat));
    }
    PointShell(inner);
    CoordsRoundTrip(lon, lat);
  }

  /** The row one reading contributes to its bucket. */
  function AddReading(b: Buckets, deviceId: string, x: Reading): Buckets {
    match x
    case VitalReading(t, code, val) => b.(vitals := b.vitals + [VitalRow(t, deviceId, code, val)])
    case GpsReading(t, lat, lon, acc) => b.(locations := b.locations + [LocationRow(t, deviceId, PointText(lon, lat), acc)])
    case EventReading(t, name, valText, metadata) =>
      b.(events := b.events + [EventRow(t, deviceId, name, valText, if metadata.Some? then metadata.value else map[])])
  }

  /** The partition loop: each reading, in batch order, appended to its
      type's bucket. */
  function Partition(deviceId: string, data: seq<Reading>): (r: Buckets)
    ensures |r.vitals| + |r.locations| + |r.events| == |data|
    decreases |data|
  {
    if data == [] then Buckets([], [], [])
    else AddReading(Partition(deviceId, data[..|data| - 1]), deviceId, data[|data| - 1])
  }

  function VitalRowOf(deviceId: string, x: Reading): VitalRow
    requires x.VitalReading?
  {
    VitalRow(x.t, deviceId, x.code, x.val)
  }

  function LocationRowOf(deviceId: string, x: Reading): LocationRow
    requires x.GpsReading?
  {
    LocationRow(x.t, deviceId, PointText(x.lon, x.lat), x.acc)
  }

  function EventRowOf(deviceId: string, x: Reading): EventRow
    requires x.EventReading?
  {
    EventRow(x.t, deviceId, x.eventLabel, x.valText, if x.metadata.Some? then x.metadata.value else map[])
  }

  function VitalsOf(deviceId: string, data: seq<Reading>): seq<VitalRow> {
    if data == [] then []
    else (if data[0].VitalReading? then [VitalRowOf(deviceId, data[0])] else []) + VitalsOf(deviceId, data[1..])
  }

  function LocationsOf(deviceId: string, data: seq<Reading>): seq<LocationRow> {
    if data == [] then []
    else (if data[0].GpsReading? then [LocationRowOf(deviceId, data[0])] else []) + LocationsOf(deviceId, data[1..])
  }

  function EventsOf(deviceId: string, data: seq<Reading>): seq<EventRow> {
    if data == [] then []
    else (if data[0].EventReading? then [EventRowOf(deviceId, data[0])] else []) + EventsOf(deviceId, data[1..])
  }

  lemma {:induction false} VitalsOfSnoc(deviceId: string, data: seq<Reading>, x: Reading)
    ensures VitalsOf(deviceId, data + [x]) == VitalsOf(deviceId, data) + (if x.VitalReading? then [VitalRowOf(deviceId, x)] else [])
  {
    if data != [] {
      assert (data + [x])[1..] == data[1..] + [x];
      VitalsOfSnoc(deviceId, data[1..], x);
    }
  }

  lemma {:induction false} LocationsOfSnoc(deviceId: string, data: seq<Reading>, x: Reading)
    ensures LocationsOf(deviceId, data + [x]) == LocationsOf(deviceId, data) + (if x.GpsReading? then [LocationRowOf(deviceId, x)] else [])
  {
    if data != [] {
      assert (data + [x])[1..] == data[1..] + [x];
      LocationsOfSnoc(deviceId, data[1..], x);
    }
  }

  lemma {:induction false} EventsOfSnoc(deviceId: string, data: seq<Reading>, x: Reading)
    ensures EventsOf(deviceId, data + [x]) == EventsOf(deviceId, data) + (if x.EventReading? then [EventRowOf(deviceId, x)] else [])
  {
    if data != [] {
      assert (data + [x])[1..] == data[1..] + [x];
      EventsOfSnoc(deviceId, data[1..], x);
    }
  }

  /** Each reading lands in exactly one bucket, chosen by its type, and each
      bucket keeps batch order: the buckets are the batch filtered by type,
      one row per reading. */
  lemma {:induction false} PartitionByType(deviceId: string, data: seq<Reading>)
    ensures Partition(deviceId, data) == Buckets(VitalsOf(deviceId, data), LocationsOf(deviceId, data), EventsOf(deviceId, data))
    decreases |data|
  {
    if data != [] {
      var init := data[..|data| - 1];
      var x := data[|data| - 1];
      assert data == init + [x];
      PartitionByType(deviceId, init);
      VitalsOfSnoc(deviceId, init, x);
      LocationsOfSnoc(deviceId, init, x);
      EventsOfSnoc(deviceId, init, x);
    }
  }

  /** Joins bucket by bucket. */
  function JoinBuckets(p: Buckets, q: Buckets): Buckets {
    Buckets(p.vitals + q.vitals, p.locations + q.locations, p.events + q.events)
  }

  /** Adding a reading after joined buckets adds it to the second part. */
  lemma AddReadingAppends(p: Buckets, q: Buckets, deviceId: string, x: Reading)
    ensures AddReading(JoinBuckets(p, q), deviceId, x) == JoinBuckets(p, AddReading(q, deviceId, x))
  {
    match x
    case VitalReading(t, code, val) => Assoc(p.vitals, q.vitals, [VitalRow(t, deviceId, code, val)]);
    case GpsReading(t, lat, lon, acc) => Assoc(p.locations, q.locations, [LocationRow(t, deviceId, PointText(lon, lat), acc)]);
    case EventReading(t, name, valText, metadata) =>
      Assoc(p.events, q.events, [EventRow(t, deviceId, name, valText, if metadata.Some? then metadata.value else map[])]);
  }

  /** Partitioning two halves separately and joining the buckets is
      partitioning the whole. */
  lemma {:induction false} PartitionConcat(deviceId: string, a: seq<Reading>, b: seq<Reading>)
    ensures Partition(deviceId, a + b) == JoinBuckets(Partition(deviceId, a), Partition(deviceId, b))
    decreases |b|
  {
    if b != [] {
      var init := b[..|b| - 1];
      assert (a + b)[..|a + b| - 1] == a + init;
      assert (a + b)[|a + b| - 1] == b[|b| - 1];
      PartitionConcat(deviceId, a, init);
      AddReadingAppends(Partition(deviceId, a), Partition(deviceId, init), deviceId, b[|b| - 1]);
    } else {
      assert a + b == a;
    }
  }

  // ---------------------------------------------------------------------
  // The transaction.

  /** `user_id or device_id`: a missing or empty user id falls back to the
      device id. */
  function UserIdOf(m: Metadata): (r: string)
    ensures m.userId.Some? && m.userId.value != "" ==> r == m.userId.value
    ensures m.userId.None? || m.userId.value == "" ==> r == m.deviceId
  {
    if m.userId.Some? && m.userId.value != "" then m.userId.value else m.deviceId
  }

  /** The statements the transaction executes, in order. */
  datatype Statement =
    | UpsertDevice(deviceId: string, userId: string, modelName: Option<string>)
    | InsertVitals(vitalRows: seq<VitalRow>)
    | InsertLocations(locationRows: seq<LocationRow>)
    | InsertEvents(eventRows: seq<EventRow>)

  function RowCount(s: Statement): nat {
    match s
    case UpsertDevice(_, _, _) => 0
    case InsertVitals(rows) => |rows|
    case InsertLocations(rows) => |rows|
    case InsertEvents(rows) => |rows|
  }

  function TotalRows(ss: seq<Statement>): nat {
    if ss == [] then 0 else RowCount(ss[0]) + TotalRows(ss[1..])
  }

  /** The bulk insert of a bucket, left out when the bucket is empty. */
  function VitalsInsert(rows: seq<VitalRow>): seq<Statement> {
    if rows != [] then [InsertVitals(rows)] else []
  }

  function LocationsInsert(rows: seq<LocationRow>): seq<Statement> {
    if rows != [] then [InsertLocations(rows)] else []
  }

  function EventsInsert(rows: seq<EventRow>): seq<Statement> {
    if rows != [] then [InsertEvents(rows)] else []
  }

  /** The statements for a device and its buckets. */
  function StatementsFor(u: Statement, b: Buckets): seq<Statement> {
    [u] + VitalsInsert(b.vitals) + LocationsInsert(b.locations) + EventsInsert(b.events)
  }

  /** The device upsert, then one bulk insert per non-empty bucket in the
      order vitals, locations, events. */
  function Statements(batch: Batch): (r: seq<Statement>)
    ensures 1 <= |r| <= 4 && r[0].UpsertDevice?
    ensures forall i :: 1 <= i < |r| ==> RowCount(r[i]) > 0
    ensures TotalRows(r) == |batch.data|
  {
    var m := batch.metadata;
    var b := Partition(m.deviceId, batch.data);
    var u := UpsertDevice(m.deviceId, UserIdOf(m), m.modelName);
    TotalRowsAllocation(u, b);
    StatementsFor(u, b)
  }

  lemma TotalRowsOne(s: Statement)
    ensures TotalRows([s]) == RowCount(s)
  {
    assert [s][1..] == [];
  }

  lemma TotalRowsAllocation(u: Statement, b: Buckets)
    requires u.UpsertDevice?
    ensures TotalRows(StatementsFor(u, b)) == |b.vitals| + |b.locations| + |b.events|
  {
    var v := VitalsInsert(b.vitals);
    var l := LocationsInsert(b.locations);
    var e := EventsInsert(b.events);
    TotalRowsOne(u);
    if b.vitals != [] { TotalRowsOne(InsertVitals(b.vitals)); }
    if b.locations != [] { TotalRowsOne(InsertLocations(b.locations)); }
    if b.events != [] { TotalRowsOne(InsertEvents(b.events)); }
    TotalRowsConcat([u], v);
    TotalRowsConcat([u] + v, l);
    TotalRowsConcat([u] + v + l, e);
  }

  /** A bucket's insert is among the statements exactly when the bucket is
      non-empty. */
  lemma InsertsPresent(u: Statement, b: Buckets)
    requires u.UpsertDevice?
    ensures var all := StatementsFor(u, b);
      && (b.vitals != [] <==> InsertVitals(b.vitals) in all)
      && (b.locations != [] <==> InsertLocations(b.locations) in all)
      && (b.events != [] <==> InsertEvents(b.events) in all)
  {
  }

  lemma {:induction false} TotalRowsConcat(a: seq<Statement>, b: seq<Statement>)
    ensures TotalRows(a + b) == TotalRows(a) + TotalRows(b)
  {
    if a != [] {
      assert (a + b)[1..] == a[1..] + b;
      TotalRowsConcat(a[1..], b);
    } else {
      assert a + b == b;
    }
  }

  /** Which database call raises, counting the connection, the cursor, each
      statement and the commit; `DbFailsAt(k)` past the last call means no
      failure. */
  datatype DbOutcome = DbOk | DbFailsAt(call: nat)

  /** Which clean-up calls raise: the rollback in the handler, and the
      cursor close and the connection release in the `finally` block. */
  datatype Cleanup = Cleanup(rollbackRaises: bool, closeRaises: bool, releaseRaises: bool)

  const QuietCleanup: Cleanup := Cleanup(false, false, false)

  /** What `ingest_batch` leaves behind: the statements made durable, the
      audit line with the record total (if any), whether the failure was
      logged, whether the connection went back to the pool, and whether an
      exception escaped. */
  datatype IngestResult = IngestResult(
    committed: seq<Statement>, loggedTotal: Option<nat>, loggedError: bool, released: bool, raised: bool)

  /** The number of database calls a batch takes. */
  function Calls(batch: Batch): nat {
    |Statements(batch)| + 3
  }

  /** Every forward database call succeeds. */
  predicate Succeeds(batch: Batch, db: DbOutcome) {
    db.DbOk? || db.call >= Calls(batch)
  }

  /** A connection was obtained (the first call succeeded). */
  predicate Connected(db: DbOutcome) {
    db.DbOk? || db.call >= 1
  }

  /** A cursor was obtained (the second call succeeded). */
  predicate HasCursor(db: DbOutcome) {
    db.DbOk? || db.call >= 2
  }

  /** `ingest_batch`: everything commits together, with the record total
      logged, or a failing call rolls everything back and the error is
      logged.  A rollback that raises escapes the handler before the error
      is logged; the `finally` block closes the cursor and then releases the
      connection, and a close that raises skips the release.  Any of these
      clean-up errors escapes the function. */
  function IngestBatch(batch: Batch, db: DbOutcome, cleanup: Cleanup): (r: IngestResult)
    ensures r.loggedTotal.Some? <==> Succeeds(batch, db)
    ensures r.loggedTotal.Some? ==> r.committed == Statements(batch) && r.loggedTotal.value == |batch.data|
    ensures r.loggedTotal.None? ==> r.committed == []
    ensures r.loggedError <==> !Succeeds(batch, db) && !(Connected(db) && cleanup.rollbackRaises)
    ensures r.released <==> Connected(db) && !(HasCursor(db) && cleanup.closeRaises)
    ensures r.raised <==>
      || (!Succeeds(batch, db) && Connected(db) && cleanup.rollbackRaises)
      || (HasCursor(db) && cleanup.closeRaises)
      || (r.released && cleanup.releaseRaises)
  {
    var b := Partition(batch.metadata.deviceId, batch.data);
    var ok := db.DbOk? || db.call >= Calls(batch);
    var connected := db.DbOk? || db.call >= 1;
    var cursor := db.DbOk? || db.call >= 2;
    // The handler: a rollback that raises leaves the error unlogged.
    var handlerRaised := !ok && connected && cleanup.rollbackRaises;
    var loggedError := !ok && !handlerRaised;
    // The `finally` block: close the cursor, then release the connection.
    var closeRaised := cursor && cleanup.closeRaises;
    var released := connected && !closeRaised;
    var raised := handlerRaised || closeRaised || (released && cleanup.releaseRaises);
    if ok then
      IngestResult(Statements(batch), Some(|b.vitals| + |b.locations| + |b.events|), loggedError, released, raised)
    else IngestResult([], None, loggedError, released, raised)
  }

  /** When no clean-up call raises, nothing escapes: every run commits and
      logs its total, or logs its error, and a connection that was obtained
      goes back to the pool. */
  lemma QuietCleanupNeverRaises(batch: Batch, db: DbOutcome)
    ensures var r := IngestBatch(batch, db, QuietCleanup);
      && !r.raised
      && (r.loggedTotal.Some? <==> !r.loggedError)
      && (r.released <==> Connected(db))
  {
  }

  /** Clean-up errors escape even after a commit: the batch is durable and
      its total logged, yet the background task raises. */
  lemma CommittedThenRaises(batch: Batch)
    ensures var r := IngestBatch(batch, DbOk, Cleanup(false, true, false));
      && r.committed == Statements(batch) && r.loggedTotal == Some(|batch.data|)
      && r.raised && !r.released
  {
  }

  /** A committed batch stores every reading exactly once: the rows inserted
      are the batch's readings, split by type, each in batch order, with
      the absent event metadata stored as the empty object. */
  lemma CommittedRows(batch: Batch)
    ensures var r := IngestBatch(batch, DbOk, QuietCleanup);
      var d := batch.metadata.deviceId;
      && r.committed[0] == UpsertDevice(d, UserIdOf(batch.metadata), batch.metadata.modelName)
      && (VitalsOf(d, batch.data) != [] <==> InsertVitals(VitalsOf(d, batch.data)) in r.committed)
      && (LocationsOf(d, batch.data) != [] <==> InsertLocations(LocationsOf(d, batch.data)) in r.committed)
      && (EventsOf(d, batch.data) != [] <==> InsertEvents(EventsOf(d, batch.data)) in r.committed)
  {
    var m := batch.metadata;
    PartitionByType(m.deviceId, batch.data);
    InsertsPresent(UpsertDevice(m.deviceId, UserIdOf(m), m.modelName), Partition(m.deviceId, batch.data));
  }

  /** An event without metadata is stored with the empty object. */
  lemma AbsentMetadataIsEmptyObject(deviceId: string, t: string, name: string, valText: Option<string>)
    ensures EventsOf(deviceId, [EventReading(t, name, valText, None)]) == [EventRow(t, deviceId, name, valText, map[])]
  {
  }
}
