# Wellbeing sensing pipeline — a Dafny model

The system has two halves.

On the phone, an iOS app collects samples and queues them in a durable
JSON-lines buffer. The samples are:
- HealthKit vitals, sleep stages and daily aggregates;
- an instant noise reading;
- the motion context attached to location samples.

A scheduler periodically flushes the buffer. It drains at most 100 samples
and posts them as one envelope to the backend. If the post fails, it puts
them back at the tail of the buffer.

On the server, a FastAPI backend does the following:
- checks an API key;
- validates the batch against pydantic models and acknowledges it at once;
- in a background task, partitions the readings into three tables and
  inserts them in one transaction.

A dashboard route shows the latest rows. A stand-alone script does the same
partitioning on raw JSON, and its test driver reads a `.env` file.

The model is functional:
- the buffer file is its content, a `string`;
- every operation is a pure transition from content to content;
- the world (HealthKit, the network, the database, clocks, the JSON coder,
  store faults) is a parameter.

Modules follow the source files:

| module | file |
|---|---|
| `Common`, `Text` | shared vocabulary: options, filters, string splitting and stripping, integer text |
| `Models` | `Models.swift` |
| `LocalStore` | `LocalStore.swift` |
| `ApiClient` | `APIClient.swift` |
| `BatchScheduler` | `BatchScheduler.swift` |
| `Motion` | `MotionManager.swift` |
| `HealthKit` | `HealthKitManager.swift` |
| `SensorCollector` | `SensorCollector.swift` |
| `BackendModels` | `backend/app/models.py` |
| `Config` | `backend/app/config.py` |
| `Ingest` | `backend/app/ingest.py` |
| `MainApi` | `backend/app/main.py` |
| `Dashboard` | `backend/app/routes/dashboard.py` |
| `IngestScript` | `scripts/ingest_logic.py` |
| `EnvLoader` | `scripts/test_ingest.py` |

The headline result is `BatchScheduler.NoLoss`. Take any sequence of
producer appends and flushes whose upload fails, where every store write
goes through: each append completes, each flush's drain is fault-free and
its requeue append completes. The buffer then holds, as a multiset, exactly
the items it started with plus every item produced since.
`BatchScheduler.FailedFlushConserves` gives the finer per-flush picture,
under the same store hypothesis:
- the records after the batch stay in front, in order;
- the drained batch follows them, in its original order.

The store hypothesis cannot be dropped:
- `BatchScheduler.DrainFaultLosesBatch`: a drain that throws after its
  rewrite has already removed the batch, and the flush never sends it.
- `BatchScheduler.RequeueFaultLosesBatch`: a requeue whose first append
  throws leaves the batch neither stored nor delivered.

Store writes are modelled with their failure points. `appendLine` opens
the file, seeks, writes the data, writes a line break and closes. A
`LineFault` says where it stopped:
- `Unwritten`: nothing reached the file (encoding, open, seek or data write);
- `Unterminated`: the data is in the file without its line break;
- `Unclosed`: the record is complete but the close threw.

The JSON coder is abstract: `LocalStore.Codec` is a pair of functions. Two
hypotheses constrain it where a property needs them:
- `FramedCodec`: an encoding is a non-empty line without a line break.
- `RoundTrips`: decoding an encoding gives the item back.

The real encoder writes dates in ISO-8601 with whole-second precision. So
`RoundTrips` is true of the real coder only for items whose times are whole
seconds. Model times are integer seconds (`Common.Time`), so the hypothesis
is stated on that domain, and it is never assumed of sub-second `Date`s.
Floating-point values are integers (`Common.Float`). Their text form is the
integer followed by `.0`, as Python prints an integral float.

## Model

| member | source | states |
|---|---|---|
| Models.SampleTypeFromRaw | ios/WellbeingApp/Sources/Models.swift:4-8 | exactly the three raw tags "vital", "gps", "event" are recognised |
| Models.SampleTypeRawRoundTrip | ios/WellbeingApp/Sources/Models.swift:4-8 | the raw values are a bijection between the three cases and their tags |
| Models.NewItemDefaults | ios/WellbeingApp/Sources/Models.swift:32-56 | the initialiser stores kind and time unchanged and leaves every omitted optional field nil |
| Models.NewItemAllowsMixedVariants | ios/WellbeingApp/Sources/Models.swift:35-43 | nothing restricts an item to its own variant's fields: a vital carrying a latitude can be built |
| Models.MotionContextFromRaw | ios/WellbeingApp/Sources/Models.swift:74-81 | exactly the six case names are recognised raw values |
| Models.MotionContextRawRoundTrip | ios/WellbeingApp/Sources/Models.swift:74-81 | each motion context's raw value is its own name, and the six are distinct |
| LocalStore.Lines | ios/WellbeingApp/Sources/LocalStore.swift:37 | the file read as records: every record is non-empty and free of line breaks, so blank lines are dropped |
| LocalStore.DecodeAll | ios/WellbeingApp/Sources/LocalStore.swift:44-48 | decoding keeps only the records that decode, so it never yields more items than records |
| LocalStore.HeadCount | ios/WellbeingApp/Sources/LocalStore.swift:43-44 | a drain takes min(limit, k) records for a positive limit and none for a non-positive one |
| LocalStore.LinesConcat | ios/WellbeingApp/Sources/LocalStore.swift:37 | after a framed prefix, the rest of the file contributes its own records unchanged |
| LocalStore.SplitJoinLines | ios/WellbeingApp/Sources/LocalStore.swift:54-58 | non-empty, break-free records joined with line breaks and terminated split back into the same records |
| LocalStore.LinesOfRender | ios/WellbeingApp/Sources/LocalStore.swift:70-78 | records written one per line read back as the same records |
| LocalStore.BlankLinesIgnored | ios/WellbeingApp/Sources/LocalStore.swift:37 | an extra blank line changes no reader's view of the file |
| LocalStore.NoLinesFramed | ios/WellbeingApp/Sources/LocalStore.swift:37-38 | a file without records holds only line breaks, so a drain may leave it untouched |
| LocalStore.AppendLine | ios/WellbeingApp/Sources/LocalStore.swift:70-78 | appending a line always leaves the file ending in a line break, one character longer than data plus file |
| LocalStore.AppendLineAddsRecord | ios/WellbeingApp/Sources/LocalStore.swift:70-78 | a record written after a framed file becomes its last record, the others unchanged |
| LocalStore.AppendItem | ios/WellbeingApp/Sources/LocalStore.swift:17-22 | throws iff some step of `appendLine` fails; the item's encoding becomes the last record unless nothing was written; a failed line-break write throws and leaves the file unterminated; a failed close throws with the record stored and the file framed |
| LocalStore.AppendItems | ios/WellbeingApp/Sources/LocalStore.swift:24-32 | empty list: no change and no throw; otherwise the items' encodings are added at the tail in list order up to the first throwing item, which is itself stored when only its close failed; it throws iff some item does, and is left unterminated iff that item's line-break write failed |
| LocalStore.Drain | ios/WellbeingApp/Sources/LocalStore.swift:34-61 | the first min(k, limit) records are removed and their decodable items returned in order; the rest stay in order and framed; an empty store is untouched; a throw returns nothing, and one at the final line break or close comes after the batch was already removed, leaving the rest unterminated or framed respectively |
| LocalStore.DrainLoop | ios/WellbeingApp/Sources/LocalStore.swift:40-52 | the indexed loop computes the same head items and remaining records as the functional drain |
| LocalStore.DecodeEncoded | ios/WellbeingApp/Sources/LocalStore.swift:44-48 | with a round-tripping coder, decoding encoded items gives the items back |
| LocalStore.Clear | ios/WellbeingApp/Sources/LocalStore.swift:80-84 | a clear that succeeds leaves an empty, framed file; a failed one changes nothing |
| LocalStore.DrainCount | ios/WellbeingApp/Sources/LocalStore.swift:43-52 | after a drain the count is max(0, k − limit) for limit ≥ 0; for limit ≤ 0 every record stays |
| LocalStore.DrainBound | ios/WellbeingApp/Sources/LocalStore.swift:44-48 | a drain returns at most min(k, limit) items, and exactly that many when every removed record decodes |
| LocalStore.UndecodableHeadDropped | ios/WellbeingApp/Sources/LocalStore.swift:45-48 | an undecodable head record is removed but not returned |
| LocalStore.DrainReturnsAppended | ios/WellbeingApp/Sources/LocalStore.swift:24-61 | draining what was appended to a fresh file returns the oldest items first and leaves the encodings of the rest |
| LocalStore.ClearThenDrain | ios/WellbeingApp/Sources/LocalStore.swift:80-84 | after a clear the count is 0 and any drain returns nothing and leaves the file as it is |
| LocalStore.FramedAlways | ios/WellbeingApp/Sources/LocalStore.swift:12-14 | from a framed file (as created), any sequence of operations keeps it empty or ending in a line break, unless some step's line-break write failed: an append's, or the drain's final one |
| LocalStore.TerminatorFaultMergesRecords | ios/WellbeingApp/Sources/LocalStore.swift:55-58 | a drain failing between its rewrite and its final line break leaves an unterminated record, and the next append is glued onto it |
| LocalStore.UnterminatedAppendMerges | ios/WellbeingApp/Sources/LocalStore.swift:73-77 | an append whose line-break write fails throws and leaves the file unframed, and the next record written is glued onto it, so two items read as one record |
| LocalStore.UnclosedAppendStored | ios/WellbeingApp/Sources/LocalStore.swift:76-77 | an append whose close fails throws although its record is stored and the file stays framed |
| LocalStore.LinesDropTerminator | ios/WellbeingApp/Sources/LocalStore.swift:37 | a trailing line break adds no record, so a file read with or without it gives the same records |
| ApiClient.Send | ios/WellbeingApp/Sources/APIClient.swift:8-33 | empty batch: true with no request; otherwise one POST with JSON content type and the API key, whose envelope carries the device id and exactly the items in order; true iff the answer is HTTP 2xx |
| BatchScheduler.Init | ios/WellbeingApp/Sources/BatchScheduler.swift:17-20 | a new scheduler is enabled, has no timer and an interval of minutes × 60 |
| BatchScheduler.InvalidateCurrent | ios/WellbeingApp/Sources/BatchScheduler.swift:23 | invalidating deactivates the referenced timer only |
| BatchScheduler.Resume | ios/WellbeingApp/Sources/BatchScheduler.swift:22-28 | the old timer is invalidated first; a new one is scheduled and referenced only if enabled |
| BatchScheduler.Stop | ios/WellbeingApp/Sources/BatchScheduler.swift:30-33 | no timer remains active and none is referenced |
| BatchScheduler.SetEnabled | ios/WellbeingApp/Sources/BatchScheduler.swift:6-11 | assigning the flag records the new value |
| BatchScheduler.ValidPreserved | ios/WellbeingApp/Sources/BatchScheduler.swift:6-33 | resume, stop and every assignment of the flag keep the timer invariant |
| BatchScheduler.AtMostOneTimer | ios/WellbeingApp/Sources/BatchScheduler.swift:22-33 | at most one timer is ever active, and it is the referenced one |
| BatchScheduler.SetEnabledTimers | ios/WellbeingApp/Sources/BatchScheduler.swift:6-11 | switching off leaves no active timer; switching on leaves exactly one, freshly scheduled |
| BatchScheduler.FlushIfNeeded | ios/WellbeingApp/Sources/BatchScheduler.swift:35-51 | disabled and not manual: false with no store change; at most 100 items drained; true only past the guard with a successful drain; the envelope carries the drained batch |
| BatchScheduler.ManualIgnoresEnabled | ios/WellbeingApp/Sources/BatchScheduler.swift:37 | a manual flush behaves the same whether or not the scheduler is enabled |
| BatchScheduler.FlushDrainsHead | ios/WellbeingApp/Sources/BatchScheduler.swift:38-41 | the flush uploads the decoded first min(k, 100) records present after collection |
| BatchScheduler.SuccessfulFlushRemovesBatch | ios/WellbeingApp/Sources/BatchScheduler.swift:42-46 | a successful send returns true and leaves only the records after the batch |
| BatchScheduler.CollectedQueue | ios/WellbeingApp/Sources/BatchScheduler.swift:38 | collection appends the collected items' records behind the queue |
| BatchScheduler.DrainQueue | ios/WellbeingApp/Sources/BatchScheduler.swift:41 | draining well-formed records returns the head items and leaves the tail's records, framed |
| BatchScheduler.FailedFlushConserves | ios/WellbeingApp/Sources/BatchScheduler.swift:42-45 | after a failed send the store holds the records after the batch, then the drained batch re-encoded in its original order |
| BatchScheduler.FailedFlushKeepsItems | ios/WellbeingApp/Sources/BatchScheduler.swift:42-45 | after a failed flush the queued items are, as a multiset, the items before plus the collected ones |
| BatchScheduler.FlushStepQueue | ios/WellbeingApp/Sources/BatchScheduler.swift:35-51 | one flush maps a well-formed queue to a well-formed queue: a permutation of queue plus collected items on failure, the tail after the batch on success |
| BatchScheduler.Requeued | ios/WellbeingApp/Sources/BatchScheduler.swift:44 | appending the drained head behind the tail leaves the rotated queue |
| BatchScheduler.PerformKeepsItems | ios/WellbeingApp/Sources/BatchScheduler.swift:35-51 | a producer append or a failing flush keeps every queued item and adds exactly the contributed ones |
| BatchScheduler.NoLoss | ios/WellbeingApp/Sources/BatchScheduler.swift:35-51 | across any sequence of completed producer appends and flushes whose send fails while their drain is fault-free and their requeue completes, the queue stays framed and holds, as a multiset, the initial items plus everything produced or collected |
| BatchScheduler.RequeueRoundTrip | ios/WellbeingApp/Sources/BatchScheduler.swift:35-51 | three items survive a failed flush in order, and the next successful flush uploads exactly them and empties the store |
| BatchScheduler.SmallFlushFails | ios/WellbeingApp/Sources/BatchScheduler.swift:38-46 | a timer flush of at most 100 queued items whose send fails puts the whole queue back in its order |
| BatchScheduler.SmallFlushSucceeds | ios/WellbeingApp/Sources/BatchScheduler.swift:38-46 | a timer flush of at most 100 queued items whose send succeeds uploads exactly them and empties the store |
| BatchScheduler.DrainFaultLosesBatch | ios/WellbeingApp/Sources/BatchScheduler.swift:38-49 | with more than 100 records, a drain that throws at its final line break or close returns false, sends nothing, and leaves only the records after the first 100 |
| BatchScheduler.RequeueFaultLosesBatch | ios/WellbeingApp/Sources/BatchScheduler.swift:42-49 | when the send fails and the requeue's first append writes nothing, the store keeps only the records after the batch, so it decodes to fewer items than were queued and collected |
| Motion.Classify | ios/WellbeingApp/Sources/MotionManager.swift:24-33 | automotive always gives driving; no flag gives unknown; stationary wins only when every other flag is clear |
| Motion.FirstFlagged | ios/WellbeingApp/Sources/MotionManager.swift:25-31 | the chosen context is unknown or one in the order whose flag is set |
| Motion.ClassifyIsPriority | ios/WellbeingApp/Sources/MotionManager.swift:25-31 | classification is the first flagged context of the order driving > cycling > running > walking > stationary, all earlier flags clear |
| Motion.ClassifyIgnoresLowerFlags | ios/WellbeingApp/Sources/MotionManager.swift:25-31 | flags below the winning context never change the classification |
| Motion.OnUpdate | ios/WellbeingApp/Sources/MotionManager.swift:16-20 | a nil activity keeps the context; any other becomes its classification |
| Motion.SilentStreamKeeps | ios/WellbeingApp/Sources/MotionManager.swift:7-17 | a stream of nil deliveries leaves the context as it was, initially unknown |
| Motion.LastUpdateWins | ios/WellbeingApp/Sources/MotionManager.swift:16-20 | the last non-nil activity decides the context, whatever came before |
| HealthKit.MetricOfCode | ios/WellbeingApp/Sources/HealthKitManager.swift:27-33 | the stored codes are exactly 1, 2, 3, 10 and 20 |
| HealthKit.MetricCodesDistinct | ios/WellbeingApp/Sources/HealthKitManager.swift:27-33 | the metric-code table is injective and every code decodes back to its metric |
| HealthKit.QuantityItems | ios/WellbeingApp/Sources/HealthKitManager.swift:96-108 | every produced item is a single-variant vital with the metric's code and a non-negative value taken from a sample, stamped with its end date |
| HealthKit.QuantityItemsKeepNonNegative | ios/WellbeingApp/Sources/HealthKitManager.swift:98-106 | exactly the non-negative samples become vitals, one each, in query order |
| HealthKit.FetchRecentVitals | ios/WellbeingApp/Sources/HealthKitManager.swift:25-39 | the fetch succeeds iff every metric query does, and then yields the concatenation, in answer order, of each query's non-negative samples as vitals of its metric |
| HealthKit.ConcatAnswers | ios/WellbeingApp/Sources/HealthKitManager.swift:37 | concatenating the answers fails iff one of them failed; otherwise it is each answer's vitals in turn, every one with a known metric code |
| HealthKit.VitalsOfMetric | ios/WellbeingApp/Sources/HealthKitManager.swift:25-39 | when every query succeeds, the vitals of a fetch carrying one metric's code are exactly that query's non-negative samples, in query order |
| HealthKit.QuantityItemsOfMetric | ios/WellbeingApp/Sources/HealthKitManager.swift:96-108 | a query contributes items with a metric's code iff it is that metric's query |
| HealthKit.StageFrom | ios/WellbeingApp/Sources/HealthKitManager.swift:156-184 | a stage is recognised iff it is awake, or on iOS 16 REM, core or deep; its code is the raw value |
| HealthKit.StageLabelsInvert | ios/WellbeingApp/Sources/HealthKitManager.swift:162-181 | a recognised stage's label determines its raw value; the pre-16 table is the iOS 16 table cut down to awake |
| HealthKit.SleepItems | ios/WellbeingApp/Sources/HealthKitManager.swift:48-57 | each produced item is a "sleep_stage" event labelled with a known stage and carrying a stage code; no more items than samples |
| HealthKit.SleepItemsComplete | ios/WellbeingApp/Sources/HealthKitManager.swift:48-57 | the sleep events are one per recognised sample, in query order, each reading back to its sample |
| HealthKit.SleepItemReadsBack | ios/WellbeingApp/Sources/HealthKitManager.swift:50-56 | a sleep event's stage code, duration, label and time read back to its sample |
| HealthKit.SleepItemsReadBack | ios/WellbeingApp/Sources/HealthKitManager.swift:48-57 | every sleep event reads back to a recognised sample of the query |
| HealthKit.FetchSleepStages | ios/WellbeingApp/Sources/HealthKitManager.swift:41-62 | the fetch fails iff the query fails; otherwise it yields one event per recognised sample, in query order, each reading back to its sample |
| HealthKit.SleepInterval | ios/WellbeingApp/Sources/HealthKitManager.swift:138-153 | none for no samples; otherwise the first sample's start and the last sample's end |
| HealthKit.FetchDailyAggregates | ios/WellbeingApp/Sources/HealthKitManager.swift:64-85 | any failing query fails the fetch; otherwise the summary for the date carries the sums, and the sleep bounds are present exactly when there were sleep samples: the first sample's start and the last sample's end |
| SensorCollector.SyncStage | ios/WellbeingApp/Sources/SensorCollector.swift:29-49 | the query starts at the watermark or lookback before now; the watermark advances iff the fetch and the whole append succeed; a failed fetch changes nothing; other keys are kept; the records added are the fetched items' up to the failing append |
| SensorCollector.WatermarkAfterStore | ios/WellbeingApp/Sources/SensorCollector.swift:31-37 | a written watermark means every fetched item is already stored; an unwritten one means the next pass queries from the same start |
| SensorCollector.PartialAppendRefetches | ios/WellbeingApp/Sources/SensorCollector.swift:31-37 | an append failing part-way is not rolled back: the items before the failure, and the failing one if only its close failed, stay; the next pass queries the same window and stores them a second time |
| SensorCollector.OptionalTimeEmpty | ios/WellbeingApp/Sources/SensorCollector.swift:68-69 | with a formatter that never yields "", a sleep bound renders as "" exactly when it is missing |
| SensorCollector.SummaryItemReadBack | ios/WellbeingApp/Sources/SensorCollector.swift:59-71 | the summary event is dated at the day, labelled "daily_summary"; its integer sums parse back, and sleep bounds are "" iff missing |
| SensorCollector.DailyItems | ios/WellbeingApp/Sources/SensorCollector.swift:59-83 | the summary first, then a "stand_minutes" event exactly when the stand time is positive, its text parsing back to the minutes |
| SensorCollector.StoreDaily | ios/WellbeingApp/Sources/SensorCollector.swift:72-85 | the summary is appended, then the stand event, stopping at the first throw; the daily watermark is set to today iff every append went through |
| SensorCollector.CollectDaily | ios/WellbeingApp/Sources/SensorCollector.swift:51-89 | skipped iff the watermark equals today; otherwise fetch, append summary then stand event, and mark today only when all succeeded; failures are swallowed |
| SensorCollector.DailyContent | ios/WellbeingApp/Sources/SensorCollector.swift:72-83 | the records added are the summary unless its append wrote nothing, then the stand event unless the summary's append threw or its own wrote nothing |
| SensorCollector.StandFaultRepeatsSummary | ios/WellbeingApp/Sources/SensorCollector.swift:72-85 | a failed stand append leaves today unmarked, so a second pass the same day stores a second summary record |
| SensorCollector.DailyStandFault | ios/WellbeingApp/Sources/SensorCollector.swift:72-83 | a failed stand append stores the summary alone and leaves the watermark unset |
| SensorCollector.DailyStoresBoth | ios/WellbeingApp/Sources/SensorCollector.swift:72-85 | when every append succeeds, both events are stored and today is marked |
| SensorCollector.NoiseItem | ios/WellbeingApp/Sources/SensorCollector.swift:18-27 | the noise sample is a single-variant vital with code 10, the audio-exposure code |
| SensorCollector.SyncedStages | ios/WellbeingApp/Sources/SensorCollector.swift:11-13 | vitals run first, then sleep on the device vitals left; each only writes its own watermark |
| SensorCollector.Collect | ios/WellbeingApp/Sources/SensorCollector.swift:11-16 | each query starts from its stored watermark or default window; the file stays framed when no write of the pass leaves a record unterminated |
| SensorCollector.CollectRecords | ios/WellbeingApp/Sources/SensorCollector.swift:11-16 | a pass adds, after the old records, the vitals written, then the sleep events, then the daily events, then the noise reading, each as far as its own writes went |
| SensorCollector.CollectKeepsOtherKeys | ios/WellbeingApp/Sources/SensorCollector.swift:11-16 | a pass changes no user-defaults key other than the three watermarks |
| SensorCollector.NoiseAlwaysAttempted | ios/WellbeingApp/Sources/SensorCollector.swift:15 | the noise reading is the last record whenever its own write gets its data in, whatever failed before |
| SensorCollector.AllFetchesFail | ios/WellbeingApp/Sources/SensorCollector.swift:11-49 | when every HealthKit query fails, only the noise reading is stored and no watermark moves |
| BackendModels.ParseMetadata | backend/app/models.py:6-10 | metadata validates only from an object holding a string `device_id`, which it keeps |
| BackendModels.ParseReading | backend/app/models.py:13-36 | a reading validates only with a string `type` whose literal matches the variant it becomes |
| BackendModels.ParseReadings | backend/app/models.py:39-41 | a list validates iff every element does, each to its own reading, in order |
| BackendModels.ParseBatch | backend/app/models.py:39-41 | a batch validates only from an object with a `data` list, keeping one reading per element |
| BackendModels.ParseReadingValid | backend/app/models.py:13-36 | validation accepts exactly the readings whose declared required fields are present and typed and whose optional fields are absent, null or typed |
| BackendModels.MetadataDefaults | backend/app/models.py:6-10 | `device_id` alone validates, with the other fields None; without it, validation fails |
| BackendModels.BatchJsonRoundTrip | backend/app/models.py:36-41 | every typed batch serialises to JSON that validates back to the same batch |
| BackendModels.ReadingRoundTrip | backend/app/models.py:13-36 | every typed reading serialises to JSON that validates back to it |
| Config.CorsOrigins | backend/app/config.py:21-24 | empty setting: no origins; every origin returned is non-empty, stripped and comma-free |
| Config.CorsOriginsRoundTrip | backend/app/config.py:24 | well-formed origins joined by "," parse back to the same list in the same order |
| Config.CorsOriginsSpacedRoundTrip | backend/app/config.py:24 | well-formed origins joined by ", " parse back to the same list in the same order |
| Config.ParsesAs | backend/app/config.py:22-24 | a non-empty setting whose pieces strip to non-empty origins yields exactly those origins |
| MainApi.RequireApiKey | backend/app/main.py:34-39 | empty configured key: 500 whatever the header; otherwise the request passes iff the header equals the key, and 401 otherwise |
| MainApi.IngestEndpoint | backend/app/main.py:42-45 | key check first; accepted iff the key passes and the body validates, with the batch handed on and `records` equal to its length |
| MainApi.AcceptedCountMatchesIngest | backend/app/main.py:44-45 | the acknowledged count equals the total the background ingestion logs when it commits |
| MainApi.ValidBatchAccepted | backend/app/main.py:42-45 | any serialised batch sent with the right key is accepted with its own length |
| MainApi.DefaultsRejectEverything | backend/app/config.py:4-11 | under the default settings every ingest is a 500 and no CORS middleware is installed |
| MainApi.CorsConfig | backend/app/main.py:23-31 | the middleware is installed iff the origin list is non-empty, with exactly that list |
| MainApi.Health | backend/app/main.py:48-58 | ok iff the database answers; otherwise 503 |
| Ingest.PointTextRoundTrip | backend/app/ingest.py:57 | the point text reads back as (longitude, latitude), longitude first |
| Ingest.Partition | backend/app/ingest.py:53-68 | every reading yields exactly one row |
| Ingest.PartitionByType | backend/app/ingest.py:53-68 | the buckets are the batch filtered by type, one row per reading, each in batch order |
| Ingest.PartitionConcat | backend/app/ingest.py:53-68 | partitioning two halves and joining bucket by bucket equals partitioning the whole |
| Ingest.UserIdOf | backend/app/ingest.py:39 | a missing or empty user id falls back to the device id; otherwise it is kept |
| Ingest.Statements | backend/app/ingest.py:42-90 | the device upsert first, then only non-empty inserts, their rows totalling the batch length |
| Ingest.TotalRowsAllocation | backend/app/ingest.py:70-93 | the inserted rows total the three bucket sizes |
| Ingest.InsertsPresent | backend/app/ingest.py:70-90 | a bucket's insert is issued iff the bucket is non-empty |
| Ingest.IngestBatch | backend/app/ingest.py:31-103 | all statements commit with the total logged as the batch length, or a failing call commits nothing and logs no total; the error is logged unless the rollback raises; the cursor is closed and the connection released when they exist, and the task raises iff the rollback, the close or the release does |
| Ingest.QuietCleanupNeverRaises | backend/app/ingest.py:95-103 | when the clean-up calls succeed the task never raises, logs exactly one of total and error, and releases the connection iff one was obtained |
| Ingest.CommittedThenRaises | backend/app/ingest.py:92-101 | a batch can be committed and its total logged while the cursor close still raises and the connection is never released |
| Ingest.CommittedRows | backend/app/ingest.py:38-90 | a committed batch stores the upsert with the user-id fallback and each type's rows, in batch order, exactly when that type occurs |
| Ingest.AbsentMetadataIsEmptyObject | backend/app/ingest.py:66 | an event without metadata is stored with the empty object |
| IngestScript.Index | scripts/ingest_logic.py:7 | indexing succeeds iff the value is a dict holding the key; a dict without it raises KeyError |
| IngestScript.Route | scripts/ingest_logic.py:14-27 | one reading adds one row exactly when its type is known; a non-dict reading raises |
| IngestScript.RouteAll | scripts/ingest_logic.py:14-27 | a run that does not raise adds one row per known-type reading |
| IngestScript.Inserts | scripts/ingest_logic.py:29-43 | one insert per non-empty bucket, and none for an empty one |
| IngestScript.IngestBatch | scripts/ingest_logic.py:5-47 | a run that does not raise had `metadata` and `data`, and prints the number of known-type readings |
| IngestScript.UnknownTypeIgnored | scripts/ingest_logic.py:14-27 | a reading of unknown type changes neither the buckets nor the count |
| IngestScript.MetadataDefault | scripts/ingest_logic.py:26-27 | a missing `metadata` key is stored as the empty object, while an explicit null stays null |
| IngestScript.AccRequiredOnlyInScript | scripts/ingest_logic.py:24 | a gps reading without `acc` validates for the backend but raises KeyError in the script |
| IngestScript.ScriptAcceptsSerialisedBatch | scripts/ingest_logic.py:5-47 | on a serialised valid batch the script never raises and counts every reading |
| IngestScript.SamePoint | scripts/ingest_logic.py:23 | the script's point text equals the backend's, longitude first |
| Dashboard.Authorize | backend/app/routes/dashboard.py:15-19 | empty key: 500; otherwise access iff the header or the token equals the key, and 401 otherwise |
| Dashboard.TokenOnlyWidens | backend/app/routes/dashboard.py:15-19 | without a token the dashboard decides as the ingest key check does; a token only admits more |
| Dashboard.RenderRowsRoundTrip | backend/app/routes/dashboard.py:45-48 | for cells without markup, the rendered rows parse back to the same rows and cells, in order |
| Dashboard.CellsAreNotEscaped | backend/app/routes/dashboard.py:47 | cell text is not escaped, so one cell holding markup renders like two cells |
| Dashboard.DashboardRoute | backend/app/routes/dashboard.py:10-92 | the page is served iff access passes and the database answers; a refused request with a reachable database gets 401 or 500 |
| Dashboard.AuthBeforeDatabase | backend/app/routes/dashboard.py:15-23 | a refused request gets the same answer whatever the database does, and never 503 |
| EnvLoader.SplitLines | scripts/test_ingest.py:11 | the lines hold no line-break characters |
| EnvLoader.SplitLinesTerminated | scripts/test_ingest.py:11 | break-free lines written with `\n` split back into exactly those lines |
| EnvLoader.ParseStripped | scripts/test_ingest.py:13-16 | an entry exists iff the stripped line is non-empty, not a comment and contains `=`; its key has no `=` and both sides are stripped |
| EnvLoader.ParseEntry | scripts/test_ingest.py:12-16 | the same rule for a raw line, judged after stripping |
| EnvLoader.ParseStrippedSplit | scripts/test_ingest.py:15 | the line is split at the first `=`, so the value may itself contain `=` |
| EnvLoader.ParseEntryPadded | scripts/test_ingest.py:12-16 | whitespace around the line, the key, the `=` and the value is stripped away |
| EnvLoader.Apply | scripts/test_ingest.py:16 | every variable already set keeps its value |
| EnvLoader.LoadEnv | scripts/test_ingest.py:8-16 | a missing file changes nothing; existing variables are never overwritten |
| EnvLoader.FirstEntryWins | scripts/test_ingest.py:16 | afterwards the environment holds the old variables plus each new key with its first entry's value, nothing else |
| EnvLoader.RaisesIffFreshIllegal | scripts/test_ingest.py:16 | setting fails exactly when some new key's first entry is illegal for the environment |
| EnvLoader.GetEnv | scripts/test_ingest.py:24-28 | a set variable wins even when empty; otherwise the default |
| EnvLoader.DbDefaultsMatchBackend | scripts/test_ingest.py:23-29 | with nothing set, the script's defaults agree with the backend settings, the port "5433" parsing to 5433 |
| EnvLoader.EnvironmentBeatsFile | scripts/test_ingest.py:16-28 | a port already in the environment is used whatever the env file says |
| Text.Strip | scripts/test_ingest.py:12 | the result is stripped, empty iff the input is all whitespace, and drawn from the input |
| Text.StripPadded | backend/app/config.py:24 | stripping removes exactly the surrounding whitespace of a stripped core |
| Text.Split | backend/app/config.py:24 | at least one piece, none containing the separator |
| Text.SplitJoin | backend/app/config.py:24 | separator-free pieces joined and split again give the pieces back |
| Text.JoinSplit | backend/app/config.py:24 | joining the pieces of a split gives the text back |
| Text.ParseIntToString | ios/WellbeingApp/Sources/SensorCollector.swift:65-67 | an integer's decimal text parses back to it |
| Text.FloatTextRoundTrip | backend/app/ingest.py:57 | a value's text parses back to it and contains no space or `)` |

## Left out

- File mechanics: file handles, seeking, atomic writes and file creation. The file is its content and each operation is one transition.
- The serial queues and locks of the store and the motion manager. Each call is atomic.
- LocalStore.Lines splits on the `\n` code point. Swift splits on the `\n` character, and `\r\n` is one character there. Encoded records contain no raw line break, so this does not arise for stored items.
- The JSON encoder and decoder. They are the abstract `Codec`, constrained only by `FramedCodec` and `RoundTrips` as described above.
- Sub-second timestamps. `Date` is integer seconds, so the whole-second ISO-8601 loss is outside the model.
- Floating-point values are integers: sample values, coordinates, decibels and `intervalMinutes * 60`. So is the `Int(duration)` truncation; `FloatText` prints them with a `.0` suffix.
- Timers firing, `Task`, async/await and URLSession. Responses and faults are parameters.
- HealthKitManager.requestAuthorization and `unit(for:)`. Values arrive already in the metric's unit.
- The Calendar start-of-day computation. `today` is a parameter.
- CoreMotion availability and delivery. Activity updates are a parameter.
- The noise manager. The level is a parameter.
- How `DeviceId.value` is derived. The client carries a device id string.
- HealthKit's sleep raw values are taken from HealthKit's own enumeration (awake 2, core 3, deep 4, REM 5), which is not part of this model.
- Pydantic coercion beyond accepting a JSON integer where a float is declared. Unknown fields are ignored, as pydantic's default does.
- IngestScript.PyStr: `str()` of a list or dict is not rendered, so a point built from such coordinates is `None` in the model.
- PostgreSQL, PostGIS, `execute_values`, the connection pool and the startup/shutdown hooks. The database is an oracle that either answers or fails at a given call.
- The inserts' column naming. The events insert lists `(event_type, label, metadata)` but supplies (reading label, `val_text`, metadata JSON), so `event_type` receives the label. The model records the values in that order.
- The dashboard queries (`ORDER BY time DESC LIMIT 20`). Their results are a parameter. They read a `duration_sec` column that no insert writes.
- The dashboard's styling and static text. `Dashboard.Page` keeps only the headings, the header rows and the rendered rows.
- Settings loading from the environment and the `.env` file. Settings are a value.
- Logging, `print` and the log formats.
- The test script's `run_test` driver and the mock generator, which are random data and I/O.
- The UI and the app wiring.
- SensorCollector.Collect: its contract states watermark starts and framing. The records a pass adds are stated in `CollectRecords`, and what it changes in the user defaults in `CollectKeepsOtherKeys` and `SyncStage`.
- SensorCollector.CollectRecords: stated only for passes in which no vitals, sleep or daily write leaves its record unterminated. A torn record merges with the next one, as `LocalStore.UnterminatedAppendMerges` shows, so the records of such a pass are not those listed. `NoiseAlwaysAttempted` carries the same hypothesis.
- HealthKit.FetchRecentVitals: the answers arrive in completion order, which is a parameter, so the contract fixes each metric's items and their order but not the interleaving across metrics.
- BatchScheduler.FailedFlushConserves: its exact record order assumes no producer appends while the flush is suspended in `await api.send` (BatchScheduler.swift:42). An append there lands between the remaining records and the requeued batch. The multiset statement of `NoLoss` is unaffected, since producers are separate activities.
- Partial writes within one `write` call are not modelled. The data write either reaches the file whole or not at all (`LineFault`).
- The dashboard cell text is `str(col)` of the database value (dashboard.py:47). Python's rendering of `None`, numbers and timestamps is not modelled; cells are strings already.
