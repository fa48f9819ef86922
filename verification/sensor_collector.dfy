/** One collection pass: vitals, sleep stages, the daily summary and an
    instant noise reading, each appended to the local store, with a
    per-stage watermark in the user defaults.  Clock readings, HealthKit's
    answers, the noise level and the store's faults are parameters. */
module SensorCollector {
  import opened Common
  import opened Text
  import opened Models
  import opened LocalStore
  import opened HealthKit

  const LastVitalsKey: string := "last_vitals_sync"
  const LastSleepKey: string := "last_sleep_sync"
  const LastDailyKey: string := "last_daily_sync"

  /** How far back a first vitals or sleep query reaches, in seconds. */
  const VitalsLookback: int := 3600
  const SleepLookback: int := 24 * 3600

  /** The metric code the instant noise reading is stored under. */
  const NoiseCode: int := 10

  /** The user defaults, restricted to the date-valued keys the collector
      uses. */
  type Defaults = map<string, Time>

  /** What a collection pass reads and writes: the store file's content and
      the user defaults. */
  datatype Device = Device(content: string, defaults: Defaults)

  /** The start of a stage's query: the stored watermark, or `lookback`
      seconds before now when there is none. */
  function Since(defaults: Defaults, key: string, now: Time, lookback: int): Time {
    if key in defaults then defaults[key] else now - lookback
  }

  /** Every key other than `key` keeps its value. */
  ghost predicate OthersKept(before: Defaults, after: Defaults, key: string) {
    forall k :: k != key ==> (k in after <==> k in before) && (k in after ==> after[k] == before[k])
  }

  /** The outcome of one fetch-then-append stage: the device afterwards, the
      start date the query used, and whether the watermark was written. */
  datatype Synced = Synced(device: Device, since: Time, advanced: bool)

  /** The records a fetch-then-append stage adds to the file. */
  function StageRecords(codec: Codec, fetched: Fetch<seq<BatchItem>>, outcome: AppendOutcome): seq<string> {
    if fetched.Fetched? then Encoded(codec, fetched.value[..Written(|fetched.value|, outcome)]) else []
  }

  /** Whether a stage leaves its last record without a line break. */
  predicate StageTears(fetched: Fetch<seq<BatchItem>>, outcome: AppendOutcome) {
    fetched.Fetched? && Unterminates(|fetched.value|, outcome)
  }

  /** `collectVitals` / `collectSleepStages` once HealthKit has answered:
      a failed fetch changes nothing; otherwise the items are appended and,
      only if the whole append went through, the watermark is set to the
      finishing time.  Errors are logged and swallowed. */
  function SyncStage(codec: Codec, d: Device, key: string, lookback: int, start: Time,
                     fetched: Fetch<seq<BatchItem>>, outcome: AppendOutcome, finish: Time): (r: Synced)
    ensures r.since == Since(d.defaults, key, start, lookback)
    ensures r.advanced <==> fetched.Fetched? && !Throws(|fetched.value|, outcome)
    ensures r.advanced ==> key in r.device.defaults && r.device.defaults[key] == finish
    ensures !r.advanced ==> r.device.defaults == d.defaults
    ensures OthersKept(d.defaults, r.device.defaults, key)
    ensures fetched.FetchError? ==> r.device == d
    ensures Framed(d.content) && !StageTears(fetched, outcome) ==> Framed(r.device.content)
    ensures FramedCodec(codec) && Framed(d.content) ==>
      Lines(r.device.content) == Lines(d.content) + StageRecords(codec, fetched, outcome)
  {
    var since := Since(d.defaults, key, start, lookback);
    match fetched
    case FetchError => Synced(d, since, false)
    case Fetched(items) =>
      var step := AppendItems(codec, d.content, items, outcome);
      if step.threw then Synced(Device(step.content, d.defaults), since, false)
      else Synced(Device(step.content, d.defaults[key := finish]), since, true)
  }

  /** The watermark never runs ahead of the store: when it is written, every
      fetched item is already a record of the file; when it is not, the next
      pass queries from the same start again. */
  lemma WatermarkAfterStore(codec: Codec, d: Device, key: string, lookback: int, start: Time,
                            fetched: Fetch<seq<BatchItem>>, outcome: AppendOutcome, finish: Time, later: Time)
    requires FramedCodec(codec) && Framed(d.content)
    ensures var r := SyncStage(codec, d, key, lookback, start, fetched, outcome, finish);
      && (r.advanced ==> Lines(r.device.content) == Lines(d.content) + Encoded(codec, fetched.value)
                         && Since(r.device.defaults, key, later, lookback) == finish)
      && (!r.advanced && key in d.defaults ==> Since(r.device.defaults, key, later, lookback) == r.since)
  {
    var r := SyncStage(codec, d, key, lookback, start, fetched, outcome, finish);
    if r.advanced {
      assert fetched.value[..|fetched.value|] == fetched.value;
    }
  }

  /** A failed append is not rolled back and does not advance the
      watermark: the records written before the fault (and the faulting one,
      when only its close failed) stay in the file, and the next pass queries
      the same window again, so those samples are fetched and appended a
      second time. */
  lemma PartialAppendRefetches(codec: Codec, d: Device, key: string, lookback: int, start: Time,
                               items: seq<BatchItem>, k: nat, f: LineFault, finish: Time, start2: Time, finish2: Time)
    requires FramedCodec(codec) && Framed(d.content)
    requires k < |items| && f != Unterminated
    ensures var first := SyncStage(codec, d, key, lookback, start, Fetched(items), FaultAt(k, f), finish);
      var second := SyncStage(codec, first.device, key, lookback, start2, Fetched(items), Completed, finish2);
      var kept := if f == Unwritten then k else k + 1;
      && !first.advanced
      && Lines(first.device.content) == Lines(d.content) + Encoded(codec, items[..kept])
      && (key in d.defaults ==> second.since == first.since)
      && Lines(second.device.content) == Lines(d.content) + Encoded(codec, items[..kept]) + Encoded(codec, items)
  {
    var first := SyncStage(codec, d, key, lookback, start, Fetched(items), FaultAt(k, f), finish);
    StageStep(codec, d, key, lookback, start, Fetched(items), FaultAt(k, f), finish);
    StageStep(codec, first.device, key, lookback, start2, Fetched(items), Completed, finish2);
    assert items[..|items|] == items;
  }

  // ---------------------------------------------------------------------
  // The daily summary.

  /** The "daily_summary" event: the sums as text, a missing sleep bound as
      the empty string. */
  function SummaryItem(s: DailySummary, iso8601: Time -> string): BatchItem {
    NewItem(Event, s.date,
      eventLabel := Some("daily_summary"),
      valText := None,
      metadata := Some(map[
        "steps" := IntToString(s.steps),
        "active_energy_kcal" := FloatText(s.activeEnergyKcal),
        "exercise_min" := IntToString(s.exerciseMin),
        "sleep_start" := OptionalTime(s.sleepStart, iso8601),
        "sleep_end" := OptionalTime(s.sleepEnd, iso8601)]))
  }

  /** A time that may be missing, as text: missing is the empty string. */
  function OptionalTime(t: Option<Time>, iso8601: Time -> string): string {
    if t.Some? then iso8601(t.value) else ""
  }

  lemma OptionalTimeEmpty(t: Option<Time>, iso8601: Time -> string)
    requires forall u :: |iso8601(u)| > 0
    ensures OptionalTime(t, iso8601) == "" <==> t.None?
  {
    if t.Some? {
      var u: Time := t.value;
      assert |iso8601(u)| > 0;
    }
  }

  /** The summary event can be read back: the integer sums parse back, and,
      when the date formatter never yields the empty string, a sleep bound
      is missing exactly when its field is empty. */
  lemma SummaryItemReadBack(s: DailySummary, iso8601: Time -> string)
    requires forall t :: |iso8601(t)| > 0
    ensures var x := SummaryItem(s, iso8601);
      && x.kind == Event && x.t == s.date && x.eventLabel == Some("daily_summary")
      && x.metadata.Some?
      && ParseInt(x.metadata.value["steps"]) == Some(s.steps)
      && ParseInt(x.metadata.value["exercise_min"]) == Some(s.exerciseMin)
      && (x.metadata.value["sleep_start"] == "" <==> s.sleepStart.None?)
      && (x.metadata.value["sleep_end"] == "" <==> s.sleepEnd.None?)
  {
    ParseIntToString(s.steps);
    ParseIntToString(s.exerciseMin);
    OptionalTimeEmpty(s.sleepStart, iso8601);
    OptionalTimeEmpty(s.sleepEnd, iso8601);
  }

  /** The "stand_minutes" event. */
  function StandItem(date: Time, minutes: int): BatchItem {
    NewItem(Event, date, eventLabel := Some("stand_minutes"), valText := Some(IntToString(minutes)))
  }

  /** The daily stage's outcome and whether HealthKit was asked at all. */
  datatype DailyStep = DailyStep(device: Device, queried: bool)

  /** Whether the daily stage already ran for `today`. */
  predicate DoneToday(defaults: Defaults, today: Time) {
    LastDailyKey in defaults && defaults[LastDailyKey] == today
  }

  /** The events a completed daily fetch stores, in order: the summary, then
      the stand event when the stand time is positive. */
  function DailyItems(a: DailyAggregates, iso8601: Time -> string): (r: seq<BatchItem>)
    ensures 1 <= |r| <= 2
    ensures r[0].eventLabel == Some("daily_summary")
    ensures |r| == 2 <==> a.standMinutes > 0
    ensures |r| == 2 ==> r[1].eventLabel == Some("stand_minutes") && r[1].valText.Some? && ParseInt(r[1].valText.value) == Some(a.standMinutes)
  {
    var summary := SummaryItem(a.summary, iso8601);
    if a.standMinutes > 0 then
      ParseIntToString(a.standMinutes);
      [summary, StandItem(a.summary.date, a.standMinutes)]
    else [summary]
  }

  /** How many of the daily events reach the file: the summary unless its
      append failed before writing, then the stand event (when there is
      one) only if the summary's append went through, and unless its own
      append failed before writing. */
  function DailyWritten(n: nat, summaryFault: Option<LineFault>, standFault: Option<LineFault>): nat {
    if !Kept(summaryFault) then 0
    else if summaryFault.Some? || n == 1 then 1
    else if Kept(standFault) then 2
    else 1
  }

  /** The file after the daily stage's appends: the summary, then the stand
      event if there is one, stopping at the first append that throws. */
  function DailyContent(codec: Codec, content: string, items: seq<BatchItem>,
                        summaryFault: Option<LineFault>, standFault: Option<LineFault>): (r: string)
    requires 1 <= |items| <= 2
    ensures Framed(content) && summaryFault != Some(Unterminated) && standFault != Some(Unterminated) ==>
      Framed(r)
    ensures FramedCodec(codec) && Framed(content) ==>
      Lines(r) == Lines(content) + Encoded(codec, items[..DailyWritten(|items|, summaryFault, standFault)])
  {
    var first := AppendItem(codec, content, items[0], summaryFault);
    assert items[..1] == [items[0]];
    assert items[..0] == [];
    if first.threw || |items| == 1 then first.content
    else
      var second := AppendItem(codec, first.content, items[1], standFault);
      assert items[..2] == items;
      second.content
  }

  /** The store steps of the daily stage once the aggregates arrived: the
      summary, then the stand event if there is one; the watermark is set to
      `today` only when every write went through. */
  function StoreDaily(codec: Codec, d: Device, today: Time, items: seq<BatchItem>,
                      summaryFault: Option<LineFault>, standFault: Option<LineFault>): (r: Device)
    requires 1 <= |items| <= 2
    ensures OthersKept(d.defaults, r.defaults, LastDailyKey)
    ensures r.defaults == d.defaults || r.defaults == d.defaults[LastDailyKey := today]
    ensures DoneToday(r.defaults, today) <==>
      DoneToday(d.defaults, today) || (summaryFault.None? && (standFault.None? || |items| == 1))
    ensures Framed(d.content) && summaryFault != Some(Unterminated) && standFault != Some(Unterminated) ==>
      Framed(r.content)
    ensures FramedCodec(codec) && Framed(d.content) ==>
      Lines(r.content) == Lines(d.content) + Encoded(codec, items[..DailyWritten(|items|, summaryFault, standFault)])
  {
    var content := DailyContent(codec, d.content, items, summaryFault, standFault);
    if summaryFault.None? && (standFault.None? || |items| == 1) then
      Device(content, d.defaults[LastDailyKey := today])
    else
      Device(content, d.defaults)
  }

  /** The records the daily stage adds to the file. */
  function DailyRecords(codec: Codec, defaults: Defaults, today: Time, deviceId: string, answers: DailyAnswers,
                        iso8601: Time -> string, summaryFault: Option<LineFault>, standFault: Option<LineFault>): seq<string>
  {
    var fetched := FetchDailyAggregates(today, deviceId, answers);
    if DoneToday(defaults, today) || fetched.FetchError? then []
    else
      var items := DailyItems(fetched.value, iso8601);
      Encoded(codec, items[..DailyWritten(|items|, summaryFault, standFault)])
  }

  /** `collectDailyAggregatesIfNeeded` for the day starting at `today`:
      nothing when the watermark already equals today; otherwise fetch, append
      the summary, then the stand event, and only when both went through set
      the watermark to today.  A failure anywhere stops the stage and is
      swallowed. */
  function CollectDaily(codec: Codec, d: Device, today: Time, deviceId: string, answers: DailyAnswers,
                        iso8601: Time -> string, summaryFault: Option<LineFault>, standFault: Option<LineFault>): (r: DailyStep)
    ensures r.queried <==> !DoneToday(d.defaults, today)
    ensures !r.queried ==> r.device == d
    ensures OthersKept(d.defaults, r.device.defaults, LastDailyKey)
    ensures r.device.defaults == d.defaults || r.device.defaults == d.defaults[LastDailyKey := today]
    ensures DoneToday(r.device.defaults, today) <==>
      DoneToday(d.defaults, today) ||
      (FetchDailyAggregates(today, deviceId, answers).Fetched? && summaryFault.None? &&
       (standFault.None? || FetchDailyAggregates(today, deviceId, answers).value.standMinutes <= 0))
    ensures Framed(d.content) && summaryFault != Some(Unterminated) && standFault != Some(Unterminated) ==>
      Framed(r.device.content)
    ensures FramedCodec(codec) && Framed(d.content) ==>
      Lines(r.device.content) == Lines(d.content) +
        DailyRecords(codec, d.defaults, today, deviceId, answers, iso8601, summaryFault, standFault)
  {
    if DoneToday(d.defaults, today) then DailyStep(d, false)
    else
      match FetchDailyAggregates(today, deviceId, answers)
      case FetchError => DailyStep(d, true)
      case Fetched(a) => DailyStep(StoreDaily(codec, d, today, DailyItems(a, iso8601), summaryFault, standFault), true)
  }

  /** A failed stand append after a stored summary leaves the watermark
      unset, so a second pass on the same day stores the summary again: the
      file ends up with two "daily_summary" records for the day. */
  lemma StandFaultRepeatsSummary(codec: Codec, d: Device, today: Time, deviceId: string, answers: DailyAnswers,
                                 iso8601: Time -> string)
    requires FramedCodec(codec) && RoundTrips(codec) && Framed(d.content)
    requires !DoneToday(d.defaults, today)
    requires FetchDailyAggregates(today, deviceId, answers).Fetched?
    requires FetchDailyAggregates(today, deviceId, answers).value.standMinutes > 0
    ensures var first := CollectDaily(codec, d, today, deviceId, answers, iso8601, None, Some(Unwritten));
      var second := CollectDaily(codec, first.device, today, deviceId, answers, iso8601, None, None);
      var summary := codec.encode(SummaryItem(FetchDailyAggregates(today, deviceId, answers).value.summary, iso8601));
      && !DoneToday(first.device.defaults, today)
      && second.queried
      && DoneToday(second.device.defaults, today)
      && multiset(Lines(second.device.content))[summary] == multiset(Lines(d.content))[summary] + 2
  {
    var a := FetchDailyAggregates(today, deviceId, answers).value;
    var items := DailyItems(a, iso8601);
    assert items[0] == SummaryItem(a.summary, iso8601);
    var first := CollectDaily(codec, d, today, deviceId, answers, iso8601, None, Some(Unwritten));
    DailyStandFault(codec, d, today, deviceId, answers, iso8601);
    var second := CollectDaily(codec, first.device, today, deviceId, answers, iso8601, None, None);
    DailyStoresBoth(codec, first.device, today, deviceId, answers, iso8601);
    SummaryTwice(codec, Lines(d.content), Lines(first.device.content), Lines(second.device.content), items);
  }

  /** The summary record written once by a pass and again, with the stand
      record, by the next one is counted twice more than before. */
  lemma SummaryTwice(codec: Codec, before: seq<string>, mid: seq<string>, after: seq<string>, items: seq<BatchItem>)
    requires RoundTrips(codec) && |items| == 2 && items[0].eventLabel != items[1].eventLabel
    requires mid == before + [codec.encode(items[0])]
    requires after == mid + Encoded(codec, items)
    ensures multiset(after)[codec.encode(items[0])] == multiset(before)[codec.encode(items[0])] + 2
  {
    var summary := codec.encode(items[0]);
    var stand := codec.encode(items[1]);
    assert Encoded(codec, items) == [summary, stand];
    assert stand != summary by {
      DistinctEncodings(codec, items[1], items[0]);
    }
    CountTwoMore(before, summary, stand);
  }

  /** A daily pass whose stand append fails before writing stores the
      summary alone and leaves the watermark unset. */
  lemma DailyStandFault(codec: Codec, d: Device, today: Time, deviceId: string, answers: DailyAnswers,
                        iso8601: Time -> string)
    requires FramedCodec(codec) && Framed(d.content)
    requires !DoneToday(d.defaults, today)
    requires FetchDailyAggregates(today, deviceId, answers).Fetched?
    requires FetchDailyAggregates(today, deviceId, answers).value.standMinutes > 0
    ensures var r := CollectDaily(codec, d, today, deviceId, answers, iso8601, None, Some(Unwritten));
      var items := DailyItems(FetchDailyAggregates(today, deviceId, answers).value, iso8601);
      && !DoneToday(r.device.defaults, today) && Framed(r.device.content)
      && Lines(r.device.content) == Lines(d.content) + [codec.encode(items[0])]
  {
    var items := DailyItems(FetchDailyAggregates(today, deviceId, answers).value, iso8601);
    assert items[..1] == [items[0]];
  }

  /** A daily pass whose appends all go through stores both events and sets
      the watermark. */
  lemma DailyStoresBoth(codec: Codec, d: Device, today: Time, deviceId: string, answers: DailyAnswers,
                        iso8601: Time -> string)
    requires FramedCodec(codec) && Framed(d.content)
    requires !DoneToday(d.defaults, today)
    requires FetchDailyAggregates(today, deviceId, answers).Fetched?
    ensures var r := CollectDaily(codec, d, today, deviceId, answers, iso8601, None, None);
      var items := DailyItems(FetchDailyAggregates(today, deviceId, answers).value, iso8601);
      && r.queried && DoneToday(r.device.defaults, today)
      && Lines(r.device.content) == Lines(d.content) + Encoded(codec, items)
  {
    var items := DailyItems(FetchDailyAggregates(today, deviceId, answers).value, iso8601);
    assert items[..|items|] == items;
  }

  /** Distinct items have distinct encodings under a codec that round-trips. */
  lemma DistinctEncodings(codec: Codec, x: BatchItem, y: BatchItem)
    requires RoundTrips(codec) && x != y
    ensures codec.encode(x) != codec.encode(y)
  {
    assert codec.decode(codec.encode(x)) == Some(x);
    assert codec.decode(codec.encode(y)) == Some(y);
  }

  lemma CountTwoMore(lines: seq<string>, a: string, b: string)
    requires a != b
    ensures multiset(lines + [a] + [a, b])[a] == multiset(lines)[a] + 2
  {
    assert multiset(lines + [a] + [a, b]) == multiset(lines) + multiset{a, a, b};
  }

  // ---------------------------------------------------------------------
  // Noise and the whole pass.

  /** `collectInstantNoise`: the current level as a vital under code 10,
      appended with its error ignored. */
  function NoiseItem(now: Time, db: Float): (x: BatchItem)
    ensures x.kind == Vital && x.code.Some? && MetricOfCode(x.code.value) == Some(AudioExposure) && SingleVariant(x)
  {
    NewItem(Vital, now, code := Some(NoiseCode), val := Some(db))
  }

  /** Keys outside the three watermarks survive the three stages. */
  lemma OthersKeptChain(a: Defaults, b: Defaults, c: Defaults, d: Defaults)
    requires OthersKept(a, b, LastVitalsKey) && OthersKept(b, c, LastSleepKey) && OthersKept(c, d, LastDailyKey)
    ensures forall k :: k != LastVitalsKey && k != LastSleepKey && k != LastDailyKey ==>
      (k in d <==> k in a) && (k in a ==> d[k] == a[k])
  {
  }

  /** What one pass sees: clock readings, HealthKit's answers, the noise
      level and where each store write fails, if it does. */
  datatype Env = Env(
    vitalsStart: Time, vitalsAnswers: seq<MetricAnswer>, vitalsAppend: AppendOutcome, vitalsFinish: Time,
    sleepStart: Time, ios16: bool, sleepAnswer: Fetch<seq<CategorySample>>, sleepAppend: AppendOutcome, sleepFinish: Time,
    today: Time, deviceId: string, daily: DailyAnswers, iso8601: Time -> string,
    summaryFault: Option<LineFault>, standFault: Option<LineFault>,
    noiseAt: Time, noiseDb: Float, noiseFault: Option<LineFault>)

  /** The pass's outcome, with the start dates the two queries used. */
  datatype Pass = Pass(device: Device, vitalsSince: Time, sleepSince: Time)

  /** No write before the noise reading fails between its data and its line
      break. */
  predicate Untorn(env: Env) {
    && !(env.vitalsAppend.FaultAt? && env.vitalsAppend.fault == Unterminated)
    && !(env.sleepAppend.FaultAt? && env.sleepAppend.fault == Unterminated)
    && env.summaryFault != Some(Unterminated)
    && env.standFault != Some(Unterminated)
  }

  /** The vitals stage, then the sleep stage on the device it left. */
  function SyncedStages(codec: Codec, d: Device, env: Env): (r: (Synced, Synced))
    ensures r.0.since == Since(d.defaults, LastVitalsKey, env.vitalsStart, VitalsLookback)
    ensures r.1.since == Since(r.0.device.defaults, LastSleepKey, env.sleepStart, SleepLookback)
    ensures Framed(d.content) && Untorn(env) ==> Framed(r.1.device.content)
    ensures OthersKept(d.defaults, r.0.device.defaults, LastVitalsKey)
    ensures OthersKept(r.0.device.defaults, r.1.device.defaults, LastSleepKey)
  {
    var v := SyncStage(codec, d, LastVitalsKey, VitalsLookback, env.vitalsStart,
      FetchRecentVitals(env.vitalsAnswers), env.vitalsAppend, env.vitalsFinish);
    var s := SyncStage(codec, v.device, LastSleepKey, SleepLookback, env.sleepStart,
      FetchSleepStages(env.sleepAnswer, env.ios16), env.sleepAppend, env.sleepFinish);
    (v, s)
  }

  /** `collect()`: the four stages in order, each starting from the
      previous one's device. */
  function Collect(codec: Codec, d: Device, env: Env): (r: Pass)
    ensures r.vitalsSince == Since(d.defaults, LastVitalsKey, env.vitalsStart, VitalsLookback)
    ensures r.sleepSince == Since(d.defaults, LastSleepKey, env.sleepStart, SleepLookback)
    ensures Framed(d.content) && Untorn(env) && env.noiseFault != Some(Unterminated) ==> Framed(r.device.content)
  {
    var (v, s) := SyncedStages(codec, d, env);
    var daily := CollectDaily(codec, s.device, env.today, env.deviceId, env.daily, env.iso8601,
      env.summaryFault, env.standFault);
    var noise := AppendItem(codec, daily.device.content, NoiseItem(env.noiseAt, env.noiseDb), env.noiseFault);
    assert Since(v.device.defaults, LastSleepKey, env.sleepStart, SleepLookback)
        == Since(d.defaults, LastSleepKey, env.sleepStart, SleepLookback);
    Pass(Device(noise.content, daily.device.defaults), v.since, s.since)
  }

  /** A pass writes only the three watermarks: every other key of the
      user defaults keeps its value. */
  lemma CollectKeepsOtherKeys(codec: Codec, d: Device, env: Env)
    ensures var r := Collect(codec, d, env);
      forall k :: k != LastVitalsKey && k != LastSleepKey && k != LastDailyKey ==>
        (k in r.device.defaults <==> k in d.defaults) && (k in d.defaults ==> r.device.defaults[k] == d.defaults[k])
  {
    var (v, s) := SyncedStages(codec, d, env);
    var daily := CollectDaily(codec, s.device, env.today, env.deviceId, env.daily, env.iso8601,
      env.summaryFault, env.standFault);
    OthersKeptChain(d.defaults, v.device.defaults, s.device.defaults, daily.device.defaults);
  }

  /** The records one pass adds, in the order `collect()` runs its stages:
      vitals, sleep stages, the daily events, then the noise reading. */
  function PassRecords(codec: Codec, d: Device, env: Env): seq<string>
  {
    StageRecords(codec, FetchRecentVitals(env.vitalsAnswers), env.vitalsAppend)
    + StageRecords(codec, FetchSleepStages(env.sleepAnswer, env.ios16), env.sleepAppend)
    + DailyRecords(codec, d.defaults, env.today, env.deviceId, env.daily, env.iso8601, env.summaryFault, env.standFault)
    + (if Kept(env.noiseFault) then [codec.encode(NoiseItem(env.noiseAt, env.noiseDb))] else [])
  }

  lemma StageStep(codec: Codec, d: Device, key: string, lookback: int, start: Time,
                  fetched: Fetch<seq<BatchItem>>, outcome: AppendOutcome, finish: Time)
    requires FramedCodec(codec) && Framed(d.content)
    requires !(outcome.FaultAt? && outcome.fault == Unterminated)
    ensures var r := SyncStage(codec, d, key, lookback, start, fetched, outcome, finish);
      && Framed(r.device.content)
      && Lines(r.device.content) == Lines(d.content) + StageRecords(codec, fetched, outcome)
      && OthersKept(d.defaults, r.device.defaults, key)
  {
  }

  lemma DoneTodayKept(a: Defaults, b: Defaults, key: string, today: Time)
    requires key != LastDailyKey && OthersKept(a, b, key)
    ensures DoneToday(b, today) == DoneToday(a, today)
  {
  }

  lemma SyncedRecords(codec: Codec, d: Device, env: Env)
    requires FramedCodec(codec) && Framed(d.content)
    requires Untorn(env)
    ensures var s := SyncedStages(codec, d, env).1;
      && Framed(s.device.content)
      && Lines(s.device.content) == Lines(d.content)
           + StageRecords(codec, FetchRecentVitals(env.vitalsAnswers), env.vitalsAppend)
           + StageRecords(codec, FetchSleepStages(env.sleepAnswer, env.ios16), env.sleepAppend)
      && DoneToday(s.device.defaults, env.today) == DoneToday(d.defaults, env.today)
  {
    var f1 := FetchRecentVitals(env.vitalsAnswers);
    var f2 := FetchSleepStages(env.sleepAnswer, env.ios16);
    var v := SyncStage(codec, d, LastVitalsKey, VitalsLookback, env.vitalsStart, f1, env.vitalsAppend, env.vitalsFinish);
    var s := SyncStage(codec, v.device, LastSleepKey, SleepLookback, env.sleepStart, f2, env.sleepAppend, env.sleepFinish);
    assert SyncedStages(codec, d, env).1 == s;
    StageStep(codec, d, LastVitalsKey, VitalsLookback, env.vitalsStart, f1, env.vitalsAppend, env.vitalsFinish);
    StageStep(codec, v.device, LastSleepKey, SleepLookback, env.sleepStart, f2, env.sleepAppend, env.sleepFinish);
    DoneTodayKept(d.defaults, v.device.defaults, LastVitalsKey, env.today);
    DoneTodayKept(v.device.defaults, s.device.defaults, LastSleepKey, env.today);
  }

  /** The daily stage and the noise reading, on the device the first two
      stages left. */
  function Tail(codec: Codec, s: Device, env: Env): StoreStep {
    var daily := CollectDaily(codec, s, env.today, env.deviceId, env.daily, env.iso8601,
      env.summaryFault, env.standFault);
    AppendItem(codec, daily.device.content, NoiseItem(env.noiseAt, env.noiseDb), env.noiseFault)
  }

  lemma TailRecords(codec: Codec, s: Device, env: Env)
    requires FramedCodec(codec) && Framed(s.content) && Untorn(env)
    ensures Lines(Tail(codec, s, env).content) == Lines(s.content)
      + DailyRecords(codec, s.defaults, env.today, env.deviceId, env.daily, env.iso8601, env.summaryFault, env.standFault)
      + (if Kept(env.noiseFault) then [codec.encode(NoiseItem(env.noiseAt, env.noiseDb))] else [])
  {
  }

  lemma DailyRecordsOnDefaults(codec: Codec, a: Defaults, b: Defaults, env: Env)
    requires DoneToday(a, env.today) == DoneToday(b, env.today)
    ensures DailyRecords(codec, a, env.today, env.deviceId, env.daily, env.iso8601, env.summaryFault, env.standFault)
         == DailyRecords(codec, b, env.today, env.deviceId, env.daily, env.iso8601, env.summaryFault, env.standFault)
  {
  }

  /** The stages run in order and each adds its records behind the previous
      ones: after a pass the file holds its old records, then the vitals
      written, then the sleep events, then the daily events, then the noise
      reading, each stage's records as far as its own writes went. */
  lemma CollectRecords(codec: Codec, d: Device, env: Env)
    requires FramedCodec(codec) && Framed(d.content)
    requires Untorn(env)
    ensures Lines(Collect(codec, d, env).device.content) == Lines(d.content) + PassRecords(codec, d, env)
  {
    var s := SyncedStages(codec, d, env).1;
    var r1 := StageRecords(codec, FetchRecentVitals(env.vitalsAnswers), env.vitalsAppend);
    var r2 := StageRecords(codec, FetchSleepStages(env.sleepAnswer, env.ios16), env.sleepAppend);
    var r3 := DailyRecords(codec, d.defaults, env.today, env.deviceId, env.daily, env.iso8601,
      env.summaryFault, env.standFault);
    var r4 := if Kept(env.noiseFault) then [codec.encode(NoiseItem(env.noiseAt, env.noiseDb))] else [];
    assert PassRecords(codec, d, env) == r1 + r2 + r3 + r4;
    var l0 := Lines(d.content);
    SyncedRecords(codec, d, env);
    assert Lines(s.device.content) == l0 + r1 + r2;
    TailRecords(codec, s.device, env);
    DailyRecordsOnDefaults(codec, s.device.defaults, d.defaults, env);
    assert Lines(Tail(codec, s.device, env).content) == l0 + r1 + r2 + r3 + r4;
    CollectIsTail(codec, d, env);
    Regroup(l0, r1, r2, r3, r4);
  }

  lemma Regroup(l0: seq<string>, r1: seq<string>, r2: seq<string>, r3: seq<string>, r4: seq<string>)
    ensures l0 + r1 + r2 + r3 + r4 == l0 + (r1 + r2 + r3 + r4)
  {
  }

  lemma CollectIsTail(codec: Codec, d: Device, env: Env)
    ensures Collect(codec, d, env).device.content == Tail(codec, SyncedStages(codec, d, env).1.device, env).content
  {
  }

  /** Stages are independent: the noise reading is stored whenever its own
      write gets its data into the file, whatever failed before it, and it
      is the last record of the file. */
  lemma NoiseAlwaysAttempted(codec: Codec, d: Device, env: Env)
    requires FramedCodec(codec) && Framed(d.content)
    requires Untorn(env)
    requires Kept(env.noiseFault)
    ensures var ls := Lines(Collect(codec, d, env).device.content);
      ls != [] && ls[|ls| - 1] == codec.encode(NoiseItem(env.noiseAt, env.noiseDb))
  {
    CollectRecords(codec, d, env);
  }

  /** When HealthKit fails every query, the pass stores only the noise
      reading and leaves every watermark as it was. */
  lemma AllFetchesFail(codec: Codec, d: Device, env: Env)
    requires FramedCodec(codec) && Framed(d.content)
    requires !AllFetched(env.vitalsAnswers)
    requires env.sleepAnswer.FetchError? && !AllDailyFetched(env.daily)
    ensures var r := Collect(codec, d, env);
      && r.device.defaults == d.defaults
      && Lines(r.device.content) == Lines(d.content) + (if Kept(env.noiseFault) then [codec.encode(NoiseItem(env.noiseAt, env.noiseDb))] else [])
  {
  }
}
