/** The HealthKit side of collection: the metric-code table, turning quantity
    samples into vitals, sleep-stage recognition and sleep items, and the
    first/last rule for a day's sleep interval.  HealthKit's query answers
    are parameters. */
module HealthKit {
  import opened Common
  import opened Text
  import opened Models

  /** The quantity types polled for vitals. */
  datatype Metric = HeartRate | HeartRateVariability | RestingHeartRate | AudioExposure | StepCount

  /** The polled metrics, in table order. */
  const Metrics: seq<Metric> := [HeartRate, HeartRateVariability, RestingHeartRate, AudioExposure, StepCount]

  /** The metric code each quantity type is stored under. */
  function MetricCode(m: Metric): int {
    match m
    case HeartRate => 1
    case HeartRateVariability => 2
    case RestingHeartRate => 3
    case AudioExposure => 10
    case StepCount => 20
  }

  /** The metric a stored code stands for. */
  function MetricOfCode(code: int): (r: Option<Metric>)
    ensures r.Some? <==> code in {1, 2, 3, 10, 20}
  {
    if code == 1 then Some(HeartRate)
    else if code == 2 then Some(HeartRateVariability)
    else if code == 3 then Some(RestingHeartRate)
    else if code == 10 then Some(AudioExposure)
    else if code == 20 then Some(StepCount)
    else None
  }

  /** The code table is a bijection onto {1, 2, 3, 10, 20}: the codes are
      distinct and each decodes back to its metric. */
  lemma MetricCodesDistinct(m: Metric, n: Metric)
    ensures MetricOfCode(MetricCode(m)) == Some(m)
    ensures MetricCode(m) == MetricCode(n) ==> m == n
    ensures m in Metrics
  {
  }

  /** One quantity sample: its end date and its value in the metric's unit. */
  datatype QuantitySample = QuantitySample(endDate: Time, value: Float)

  function VitalOf(code: int, s: QuantitySample): BatchItem {
    NewItem(Vital, s.endDate, code := Some(code), val := Some(s.value))
  }

  /** `queryQuantitySamples`: negative values are dropped; every other
      sample becomes a vital with the metric's code, stamped with the
      sample's end date, in query order. */
  function QuantityItems(m: Metric, samples: seq<QuantitySample>): (r: seq<BatchItem>)
    ensures |r| <= |samples|
    ensures forall i :: 0 <= i < |r| ==>
      && r[i].kind == Vital && r[i].code == Some(MetricCode(m))
      && r[i].val.Some? && r[i].val.value >= 0
      && SingleVariant(r[i])
      && QuantitySample(r[i].t, r[i].val.value) in samples
  {
    if samples == [] then []
    else
      var rest := QuantityItems(m, samples[1..]);
      if samples[0].value < 0 then rest
      else [VitalOf(MetricCode(m), samples[0])] + rest
  }

  /** Only the negative samples are lost: each non-negative sample yields
      exactly its own vital, in the same order. */
  lemma {:induction false} QuantityItemsKeepNonNegative(m: Metric, samples: seq<QuantitySample>)
    ensures QuantityItems(m, samples)
      == Map((s: QuantitySample) => VitalOf(MetricCode(m), s), Filter((s: QuantitySample) => s.value >= 0, samples))
  {
    if samples != [] {
      QuantityItemsKeepNonNegative(m, samples[1..]);
    }
  }

  /** One metric's query as answered by HealthKit. */
  datatype MetricAnswer = MetricAnswer(metric: Metric, answer: Fetch<seq<QuantitySample>>)

  /** Every metric of the table is asked exactly once. */
  predicate CoversMetrics(answers: seq<MetricAnswer>) {
    multiset(Map((a: MetricAnswer) => a.metric, answers)) == multiset(Metrics)
  }

  predicate AllFetched(answers: seq<MetricAnswer>) {
    forall i :: 0 <= i < |answers| ==> answers[i].answer.Fetched?
  }

  /** The items one answered query contributes. */
  function AnswerItems(a: MetricAnswer): seq<BatchItem> {
    if a.answer.Fetched? then QuantityItems(a.metric, a.answer.value) else []
  }

  /** `fetchRecentVitals`: the five queries run as a task group whose
      results are concatenated in completion order (the order of
      `answers`); any failing query makes the whole fetch fail.  The task
      group asks each metric once (`CoversMetrics`); only the per-metric
      statement `VitalsOfMetric` depends on that. */
  function FetchRecentVitals(answers: seq<MetricAnswer>): (r: Fetch<seq<BatchItem>>)
    ensures r.Fetched? <==> AllFetched(answers)
    ensures r.Fetched? ==> r.value == Flatten(Map(AnswerItems, answers))
    ensures r.Fetched? ==> forall i :: 0 <= i < |r.value| ==>
      r.value[i].kind == Vital && r.value[i].code.Some? && MetricOfCode(r.value[i].code.value).Some?
  {
    ConcatAnswers(answers)
  }

  function ConcatAnswers(answers: seq<MetricAnswer>): (r: Fetch<seq<BatchItem>>)
    ensures r.Fetched? <==> AllFetched(answers)
    ensures r.Fetched? ==> r.value == Flatten(Map(AnswerItems, answers))
    ensures r.Fetched? ==> forall i :: 0 <= i < |r.value| ==>
      r.value[i].kind == Vital && r.value[i].code.Some? && MetricOfCode(r.value[i].code.value).Some?
  {
    if answers == [] then Fetched([])
    else
      var rest := ConcatAnswers(answers[1..]);
      match answers[0].answer
      case FetchError => FetchError
      case Fetched(samples) =>
        if rest.FetchError? then FetchError
        else
          MetricCodesDistinct(answers[0].metric, answers[0].metric);
          assert Map(AnswerItems, answers) == [AnswerItems(answers[0])] + Map(AnswerItems, answers[1..]);
          Fetched(QuantityItems(answers[0].metric, samples) + rest.value)
  }

  /** The vitals stored under metric `m`'s code. */
  function HasCode(m: Metric): BatchItem -> bool {
    (x: BatchItem) => x.code == Some(MetricCode(m))
  }

  function MetricsOf(answers: seq<MetricAnswer>): seq<Metric> {
    Map((a: MetricAnswer) => a.metric, answers)
  }

  /** The items a query for metric `n` contributes carry `m`'s code exactly
      when `n` is `m`. */
  lemma QuantityItemsOfMetric(m: Metric, n: Metric, samples: seq<QuantitySample>)
    ensures Filter(HasCode(m), QuantityItems(n, samples)) == if n == m then QuantityItems(n, samples) else []
  {
    var xs := QuantityItems(n, samples);
    if n == m {
      FilterAll(HasCode(m), xs);
    } else {
      forall i | 0 <= i < |xs|
        ensures !HasCode(m)(xs[i])
      {
        MetricCodesDistinct(m, n);
      }
      FilterNone(HasCode(m), xs);
    }
  }

  lemma ConcatCons(answers: seq<MetricAnswer>)
    requires AllFetched(answers) && answers != []
    ensures AllFetched(answers[1..])
    ensures ConcatAnswers(answers).value
      == QuantityItems(answers[0].metric, answers[0].answer.value) + ConcatAnswers(answers[1..]).value
  {
    assert forall i :: 0 <= i < |answers[1..]| ==> answers[1..][i] == answers[i + 1];
  }

  lemma {:induction false} NoItemsOfAbsentMetric(answers: seq<MetricAnswer>, m: Metric)
    requires AllFetched(answers) && m !in MetricsOf(answers)
    ensures Filter(HasCode(m), ConcatAnswers(answers).value) == []
  {
    if answers != [] {
      ConcatCons(answers);
      assert MetricsOf(answers) == [answers[0].metric] + MetricsOf(answers[1..]);
      NoItemsOfAbsentMetric(answers[1..], m);
      QuantityItemsOfMetric(m, answers[0].metric, answers[0].answer.value);
      FilterConcat(HasCode(m), QuantityItems(answers[0].metric, answers[0].answer.value),
        ConcatAnswers(answers[1..]).value);
    }
  }

  /** Uniqueness of the i-th metric passes to the tail of the answers. */
  lemma UniqueInTail(answers: seq<MetricAnswer>, i: nat)
    requires 0 < i < |answers|
    requires answers[i].metric !in MetricsOf(answers[..i]) + MetricsOf(answers[i + 1..])
    ensures answers[0].metric != answers[i].metric
    ensures answers[1..][i - 1].metric
      !in MetricsOf(answers[1..][..i - 1]) + MetricsOf(answers[1..][i - 1 + 1..])
  {
    assert answers[..i] == [answers[0]] + answers[1..][..i - 1];
    assert answers[1..][i - 1 + 1..] == answers[i + 1..];
    MapConcat((a: MetricAnswer) => a.metric, [answers[0]], answers[1..][..i - 1]);
  }

  /** The first answer's metric, absent from the rest, keeps exactly its own items. */
  lemma ItemsOfFirstMetric(answers: seq<MetricAnswer>)
    requires AllFetched(answers) && answers != []
    requires answers[0].metric !in MetricsOf(answers[1..])
    ensures Filter(HasCode(answers[0].metric), ConcatAnswers(answers).value)
      == QuantityItems(answers[0].metric, answers[0].answer.value)
  {
    var m := answers[0].metric;
    ConcatCons(answers);
    NoItemsOfAbsentMetric(answers[1..], m);
    QuantityItemsOfMetric(m, m, answers[0].answer.value);
    FilterConcat(HasCode(m), QuantityItems(m, answers[0].answer.value), ConcatAnswers(answers[1..]).value);
  }

  /** Items of a metric other than the first answer's come from the rest only. */
  lemma ItemsPastFirst(answers: seq<MetricAnswer>, m: Metric)
    requires AllFetched(answers) && answers != [] && answers[0].metric != m
    ensures AllFetched(answers[1..])
    ensures Filter(HasCode(m), ConcatAnswers(answers).value)
      == Filter(HasCode(m), ConcatAnswers(answers[1..]).value)
  {
    ConcatCons(answers);
    QuantityItemsOfMetric(m, answers[0].metric, answers[0].answer.value);
    FilterConcat(HasCode(m), QuantityItems(answers[0].metric, answers[0].answer.value),
      ConcatAnswers(answers[1..]).value);
  }

  lemma {:induction false} ItemsOfUniqueMetric(answers: seq<MetricAnswer>, i: nat)
    requires AllFetched(answers) && i < |answers|
    requires answers[i].metric !in MetricsOf(answers[..i]) + MetricsOf(answers[i + 1..])
    ensures Filter(HasCode(answers[i].metric), ConcatAnswers(answers).value)
      == QuantityItems(answers[i].metric, answers[i].answer.value)
  {
    if i == 0 {
      assert answers[1..] == answers[i + 1..];
      ItemsOfFirstMetric(answers);
    } else {
      UniqueInTail(answers, i);
      ItemsPastFirst(answers, answers[i].metric);
      ItemsOfUniqueMetric(answers[1..], i - 1);
    }
  }

  lemma MetricsSplit(answers: seq<MetricAnswer>, i: nat)
    requires i < |answers|
    ensures MetricsOf(answers) == MetricsOf(answers[..i]) + [answers[i].metric] + MetricsOf(answers[i + 1..])
  {
    assert answers == answers[..i] + [answers[i]] + answers[i + 1..];
    MapConcat((a: MetricAnswer) => a.metric, answers[..i] + [answers[i]], answers[i + 1..]);
    MapConcat((a: MetricAnswer) => a.metric, answers[..i], [answers[i]]);
  }

  /** Each metric appears once in the table. */
  lemma MetricOnce(m: Metric)
    ensures multiset(Metrics)[m] == 1
  {
    assert multiset(Metrics) == multiset{HeartRate} + multiset{HeartRateVariability} + multiset{RestingHeartRate}
      + multiset{AudioExposure} + multiset{StepCount};
  }

  lemma OnceOutside(a: seq<Metric>, m: Metric, b: seq<Metric>)
    requires multiset(a + [m] + b)[m] == 1
    ensures m !in a + b
  {
    assert multiset(a + [m] + b) == multiset(a) + multiset{m} + multiset(b);
  }

  /** Each metric's vitals in a fetch are exactly the non-negative samples of
      its own query, in query order: the task group neither loses nor mixes
      any metric's items. */
  lemma VitalsOfMetric(answers: seq<MetricAnswer>, i: nat)
    requires CoversMetrics(answers) && AllFetched(answers) && i < |answers|
    ensures var r := FetchRecentVitals(answers);
      && r.Fetched?
      && Filter(HasCode(answers[i].metric), r.value) == QuantityItems(answers[i].metric, answers[i].answer.value)
  {
    var m := answers[i].metric;
    MetricsSplit(answers, i);
    MetricOnce(m);
    OnceOutside(MetricsOf(answers[..i]), m, MetricsOf(answers[i + 1..]));
    ItemsOfUniqueMetric(answers, i);
  }

  // ---------------------------------------------------------------------
  // Sleep.

  /** Raw values of HealthKit's sleep-analysis categories (from HealthKit's
      own enumeration). */
  const SleepAwake: int := 2
  const SleepCore: int := 3
  const SleepDeep: int := 4
  const SleepRem: int := 5

  datatype SleepStage = SleepStage(stageLabel: string, code: int)

  /** `SleepStage.from`: on iOS 16 and later awake, REM, core and deep are
      recognised; earlier only awake.  The code is the raw value. */
  function StageFrom(value: int, ios16: bool): (r: Option<SleepStage>)
    ensures r.Some? ==> r.value.code == value
    ensures r.Some? <==> value == SleepAwake || (ios16 && value in {SleepRem, SleepCore, SleepDeep})
  {
    if ios16 then
      if value == SleepAwake then Some(SleepStage("awake", value))
      else if value == SleepRem then Some(SleepStage("rem", value))
      else if value == SleepCore then Some(SleepStage("core", value))
      else if value == SleepDeep then Some(SleepStage("deep", value))
      else None
    else
      if value == SleepAwake then Some(SleepStage("awake", value))
      else None
  }

  /** The raw value a stage label came from. */
  function StageValueOfLabel(name: string): Option<int> {
    if name == "awake" then Some(SleepAwake)
    else if name == "rem" then Some(SleepRem)
    else if name == "core" then Some(SleepCore)
    else if name == "deep" then Some(SleepDeep)
    else None
  }

  /** Labels are distinct: a recognised stage's label determines its raw
      value, and the pre-iOS-16 table is the iOS-16 table cut down to
      awake. */
  lemma StageLabelsInvert(value: int)
    ensures StageFrom(value, true).Some? ==> StageValueOfLabel(StageFrom(value, true).value.stageLabel) == Some(value)
    ensures StageFrom(value, false).Some? ==> StageFrom(value, false) == StageFrom(value, true)
  {
  }

  /** A sleep-analysis category sample. */
  datatype CategorySample = CategorySample(startDate: Time, endDate: Time, value: int)

  /** The "sleep_stage" event for a recognised stage. */
  function SleepItem(s: CategorySample, stage: SleepStage): BatchItem {
    NewItem(Event, s.startDate,
      eventLabel := Some("sleep_stage"),
      valText := Some(stage.stageLabel),
      metadata := Some(map["stage_code" := IntToString(stage.code), "duration_sec" := IntToString(s.endDate - s.startDate)]))
  }

  /** `fetchSleepStages` on a successful query: samples with no recognised
      stage are dropped, the rest become "sleep_stage" events in query
      order. */
  function SleepItems(samples: seq<CategorySample>, ios16: bool): (r: seq<BatchItem>)
    ensures |r| <= |samples|
    ensures forall i :: 0 <= i < |r| ==>
      && r[i].kind == Event && r[i].eventLabel == Some("sleep_stage")
      && r[i].valText.Some? && StageValueOfLabel(r[i].valText.value).Some?
      && r[i].metadata.Some? && "stage_code" in r[i].metadata.value
  {
    if samples == [] then []
    else
      var rest := SleepItems(samples[1..], ios16);
      match StageFrom(samples[0].value, ios16)
      case None => rest
      case Some(stage) => [SleepItem(samples[0], stage)] + rest
  }

  /** `x` is the sleep event of sample `s`, read back through its fields:
      `stage_code` parses to the sample's raw value, whose stage carries the
      event's label, and `duration_sec` parses to the sample's length. */
  predicate ReadsBackAs(x: BatchItem, s: CategorySample, ios16: bool) {
    && StageFrom(s.value, ios16).Some?
    && x.metadata.Some?
    && "stage_code" in x.metadata.value && "duration_sec" in x.metadata.value
    && ParseInt(x.metadata.value["stage_code"]) == Some(s.value)
    && ParseInt(x.metadata.value["duration_sec"]) == Some(s.endDate - s.startDate)
    && x.valText == Some(StageFrom(s.value, ios16).value.stageLabel)
    && x.t == s.startDate
  }

  lemma SleepItemReadsBack(s: CategorySample, ios16: bool)
    requires StageFrom(s.value, ios16).Some?
    ensures ReadsBackAs(SleepItem(s, StageFrom(s.value, ios16).value), s, ios16)
  {
    ParseIntToString(s.value);
    ParseIntToString(s.endDate - s.startDate);
  }

  /** Every sleep event can be read back to a recognised sample it came
      from. */
  lemma {:induction false} SleepItemsReadBack(samples: seq<CategorySample>, ios16: bool)
    ensures forall i :: 0 <= i < |SleepItems(samples, ios16)| ==>
      exists s :: s in samples && ReadsBackAs(SleepItems(samples, ios16)[i], s, ios16)
  {
    if samples != [] {
      SleepItemsReadBack(samples[1..], ios16);
      var s := samples[0];
      var r := SleepItems(samples, ios16);
      var rest := SleepItems(samples[1..], ios16);
      forall i | 0 <= i < |r|
        ensures exists s :: s in samples && ReadsBackAs(r[i], s, ios16)
      {
        if StageFrom(s.value, ios16).Some? && i == 0 {
          SleepItemReadsBack(s, ios16);
        } else {
          var j := if StageFrom(s.value, ios16).Some? then i - 1 else i;
          assert r[i] == rest[j];
          assert 0 <= j < |rest|;
          var s' :| s' in samples[1..] && ReadsBackAs(rest[j], s', ios16);
          assert s' in samples;
        }
      }
    } else {
      assert SleepItems(samples, ios16) == [];
    }
  }

  /** The samples `SleepStage.from` recognises. */
  function Recognised(ios16: bool): CategorySample -> bool {
    (s: CategorySample) => StageFrom(s.value, ios16).Some?
  }

  /** Every recognised sample yields its own sleep event, in query order,
      and nothing else does: the events read back, one for one, to the
      recognised samples. */
  lemma {:induction false} SleepItemsComplete(samples: seq<CategorySample>, ios16: bool)
    ensures var r := SleepItems(samples, ios16);
      var kept := Filter(Recognised(ios16), samples);
      && |r| == |kept|
      && forall i :: 0 <= i < |r| ==> ReadsBackAs(r[i], kept[i], ios16)
  {
    if samples != [] {
      SleepItemsComplete(samples[1..], ios16);
      var s := samples[0];
      var rest := SleepItems(samples[1..], ios16);
      var keptRest := Filter(Recognised(ios16), samples[1..]);
      if StageFrom(s.value, ios16).Some? {
        var x := SleepItem(s, StageFrom(s.value, ios16).value);
        SleepItemReadsBack(s, ios16);
        assert SleepItems(samples, ios16) == [x] + rest;
        assert Filter(Recognised(ios16), samples) == [s] + keptRest;
        ReadsBackCons(x, s, rest, keptRest, ios16);
      } else {
        assert SleepItems(samples, ios16) == rest;
        assert Filter(Recognised(ios16), samples) == keptRest;
      }
    }
  }

  lemma ReadsBackCons(x: BatchItem, s: CategorySample, xs: seq<BatchItem>, ss: seq<CategorySample>, ios16: bool)
    requires ReadsBackAs(x, s, ios16) && |xs| == |ss|
    requires forall i :: 0 <= i < |xs| ==> ReadsBackAs(xs[i], ss[i], ios16)
    ensures forall i :: 0 <= i < |xs| + 1 ==> ReadsBackAs(([x] + xs)[i], ([s] + ss)[i], ios16)
  {
    forall i | 0 <= i < |xs| + 1
      ensures ReadsBackAs(([x] + xs)[i], ([s] + ss)[i], ios16)
    {
      if i > 0 {
        assert ([x] + xs)[i] == xs[i - 1] && ([s] + ss)[i] == ss[i - 1];
      }
    }
  }

  /** `fetchSleepStages`: a failing query fails the fetch; a nil sample list
      counts as empty; otherwise the events are those of the recognised
      samples, one each, in query order. */
  function FetchSleepStages(answer: Fetch<seq<CategorySample>>, ios16: bool): (r: Fetch<seq<BatchItem>>)
    ensures r.Fetched? <==> answer.Fetched?
    ensures r.Fetched? ==> |r.value| == |Filter(Recognised(ios16), answer.value)|
    ensures r.Fetched? ==> forall i :: 0 <= i < |r.value| ==>
      ReadsBackAs(r.value[i], Filter(Recognised(ios16), answer.value)[i], ios16)
  {
    match answer
    case FetchError => FetchError
    case Fetched(samples) =>
      SleepItemsComplete(samples, ios16);
      Fetched(SleepItems(samples, ios16))
  }

  /** `sleepInterval`: nothing for a day with no sleep samples; otherwise
      from the first sample's start to the last sample's end (samples come
      sorted by start date). */
  function SleepInterval(samples: seq<CategorySample>): (r: Option<(Time, Time)>)
    ensures r.None? <==> samples == []
    ensures r.Some? ==> r.value.0 == samples[0].startDate && r.value.1 == samples[|samples| - 1].endDate
  {
    if samples == [] then None
    else Some((samples[0].startDate, samples[|samples| - 1].endDate))
  }

  /** The five statistics queries of one day as HealthKit answers them: the
      four sums (a missing sum already reads as 0) and the day's sleep
      samples sorted by start date. */
  datatype DailyAnswers = DailyAnswers(
    steps: Fetch<Float>, energy: Fetch<Float>, exercise: Fetch<Float>, stand: Fetch<Float>,
    sleep: Fetch<seq<CategorySample>>)

  predicate AllDailyFetched(a: DailyAnswers) {
    a.steps.Fetched? && a.energy.Fetched? && a.exercise.Fetched? && a.stand.Fetched? && a.sleep.Fetched?
  }

  /** `fetchDailyAggregates`: the five queries are awaited together, so any
      failure fails the whole fetch; otherwise the summary for `date` carries
      the sums and the sleep span of the first/last rule. */
  function FetchDailyAggregates(date: Time, deviceId: string, a: DailyAnswers): (r: Fetch<DailyAggregates>)
    ensures r.Fetched? <==> AllDailyFetched(a)
    ensures r.Fetched? ==>
      && r.value.summary.date == date && r.value.summary.deviceId == deviceId
      && r.value.summary.steps == a.steps.value
      && r.value.summary.activeEnergyKcal == a.energy.value
      && r.value.summary.exerciseMin == a.exercise.value
      && r.value.standMinutes == a.stand.value
      && (r.value.summary.sleepStart.None? <==> a.sleep.value == [])
      && (r.value.summary.sleepEnd.None? <==> a.sleep.value == [])
      && (a.sleep.value != [] ==>
            && r.value.summary.sleepStart == Some(a.sleep.value[0].startDate)
            && r.value.summary.sleepEnd == Some(a.sleep.value[|a.sleep.value| - 1].endDate))
  {
    if !AllDailyFetched(a) then FetchError
    else
      var span := SleepInterval(a.sleep.value);
      Fetched(DailyAggregates(
        DailySummary(date, deviceId, a.steps.value, a.energy.value, a.exercise.value,
          if span.Some? then Some(span.value.0) else None,
          if span.Some? then Some(span.value.1) else None),
        a.stand.value))
  }
}
