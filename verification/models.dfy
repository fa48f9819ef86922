/** The device-side records: one queued sample (`BatchItem`), the envelope
    posted to the backend, the daily aggregates and the motion context tag. */
module Models {
  import opened Common

  /** The three kinds of sample; the raw value is the JSON `type` tag. */
  datatype SampleType = Vital | Gps | Event

  function SampleTypeRaw(k: SampleType): string {
    match k
    case Vital => "vital"
    case Gps => "gps"
    case Event => "event"
  }

  /** Swift `SampleType(rawValue:)`: only the three tags are recognised. */
  function SampleTypeFromRaw(s: string): (r: Option<SampleType>)
    ensures r.Some? <==> s in {"vital", "gps", "event"}
  {
    if s == "vital" then Some(Vital)
    else if s == "gps" then Some(Gps)
    else if s == "event" then Some(Event)
    else None
  }

  /** The raw values are a bijection between the cases and the three tags. */
  lemma SampleTypeRawRoundTrip(k: SampleType, s: string)
    ensures SampleTypeFromRaw(SampleTypeRaw(k)) == Some(k)
    ensures SampleTypeFromRaw(s) == Some(k) <==> SampleTypeRaw(k) == s
  {
  }

  /** One sample.  Every variant's fields are optional; which of them are set
      is up to the producer. */
  datatype BatchItem = BatchItem(
    kind: SampleType,
    t: Time,
    // vitals
    code: Option<int>,
    val: Option<Float>,
    // gps
    lat: Option<Float>,
    lon: Option<Float>,
    acc: Option<Float>,
    motionContext: Option<string>,
    // events
    eventLabel: Option<string>,
    valText: Option<string>,
    metadata: Option<map<string, string>>)

  /** The memberwise initialiser: every optional field defaults to nil. */
  function NewItem(
    kind: SampleType,
    t: Time,
    code: Option<int> := None,
    val: Option<Float> := None,
    lat: Option<Float> := None,
    lon: Option<Float> := None,
    acc: Option<Float> := None,
    motionContext: Option<string> := None,
    eventLabel: Option<string> := None,
    valText: Option<string> := None,
    metadata: Option<map<string, string>> := None): BatchItem
  {
    BatchItem(kind, t, code, val, lat, lon, acc, motionContext, eventLabel, valText, metadata)
  }

  /** Only the fields of the item's own variant are set. */
  predicate SingleVariant(x: BatchItem) {
    && (x.kind != Vital ==> x.code.None? && x.val.None?)
    && (x.kind != Gps ==> x.lat.None? && x.lon.None? && x.acc.None? && x.motionContext.None?)
    && (x.kind != Event ==> x.eventLabel.None? && x.valText.None? && x.metadata.None?)
  }

  /** Omitted arguments leave every optional field nil, so the bare item
      carries only its kind and time. */
  lemma NewItemDefaults(kind: SampleType, t: Time)
    ensures var x := NewItem(kind, t);
      && x.kind == kind && x.t == t
      && x.code.None? && x.val.None? && x.lat.None? && x.lon.None? && x.acc.None?
      && x.motionContext.None? && x.eventLabel.None? && x.valText.None? && x.metadata.None?
      && SingleVariant(x)
  {
  }

  /** The initialiser does not enforce the one-variant shape: a vital with
      coordinates can be built. */
  lemma NewItemAllowsMixedVariants(t: Time, code: int, lat: Float)
    ensures !SingleVariant(NewItem(Vital, t, code := Some(code), lat := Some(lat)))
  {
  }

  /** The body of one POST: the device identifier and the ordered items. */
  datatype BatchEnvelope = BatchEnvelope(deviceId: string, data: seq<BatchItem>)

  datatype DailySummary = DailySummary(
    date: Time,
    deviceId: string,
    steps: int,
    activeEnergyKcal: Float,
    exerciseMin: int,
    sleepStart: Option<Time>,
    sleepEnd: Option<Time>)

  datatype DailyAggregates = DailyAggregates(summary: DailySummary, standMinutes: int)

  /** The activity tag attached to location samples. */
  datatype MotionContext = Stationary | Walking | Running | Cycling | Driving | Unknown

  /** Each case's raw value is its own name. */
  function MotionContextRaw(m: MotionContext): string {
    match m
    case Stationary => "stationary"
    case Walking => "walking"
    case Running => "running"
    case Cycling => "cycling"
    case Driving => "driving"
    case Unknown => "unknown"
  }

  function MotionContextFromRaw(s: string): (r: Option<MotionContext>)
    ensures r.Some? <==> s in {"stationary", "walking", "running", "cycling", "driving", "unknown"}
  {
    if s == "stationary" then Some(Stationary)
    else if s == "walking" then Some(Walking)
    else if s == "running" then Some(Running)
    else if s == "cycling" then Some(Cycling)
    else if s == "driving" then Some(Driving)
    else if s == "unknown" then Some(Unknown)
    else None
  }

  /** The six raw values are distinct and decode back to their case. */
  lemma MotionContextRawRoundTrip(m: MotionContext, s: string)
    ensures MotionContextFromRaw(MotionContextRaw(m)) == Some(m)
    ensures MotionContextFromRaw(s) == Some(m) <==> MotionContextRaw(m) == s
  {
  }
}
