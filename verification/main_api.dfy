/** The ingestion API: the API-key dependency, the `/ingest` handler that
    hands the batch to a background task, `/health`, and whether CORS is
    switched on.  The database probe is a parameter. */
module MainApi {
  import opened Common
  import opened BackendModels
  import opened Config
  import Ingest

  /** An HTTP error raised by a handler or dependency. */
  datatype HttpError = HttpError(status: int, detail: string)

  const NotConfigured: HttpError := HttpError(500, "Server API key not configured")
  const Unauthorized: HttpError := HttpError(401, "Unauthorized")

  /** `require_api_key`: an empty configured key is a server error whatever
      the header; otherwise the header must equal the key.  `None` means the
      request passes. */
  function RequireApiKey(expected: string, header: Option<string>): (r: Option<HttpError>)
    ensures expected == "" ==> r == Some(NotConfigured)
    ensures expected != "" ==> (r.None? <==> header == Some(expected))
    ensures expected != "" && r.Some? ==> r == Some(Unauthorized)
  {
    if expected == "" then Some(NotConfigured)
    else if header != Some(expected) then Some(Unauthorized)
    else None
  }

  /** The `/ingest` reply: accepted with the record count and the batch
      handed to the background task, an HTTP error from the key check, or a
      validation failure of the body. */
  datatype IngestReply =
    | Accepted(records: nat, task: Batch)
    | Failed(error: HttpError)
    | Unprocessable

  /** `POST /ingest`: the key dependency runs first, then the body is
      validated; a valid batch is accepted at once and ingested later. */
  function IngestEndpoint(settings: Settings, header: Option<string>, body: Json): (r: IngestReply)
    ensures r.Accepted? <==> RequireApiKey(settings.ingestApiKey, header).None? && ParseBatch(body).Some?
    ensures r.Accepted? ==> r.task == ParseBatch(body).value && r.records == |r.task.data|
    ensures RequireApiKey(settings.ingestApiKey, header).Some? ==> r == Failed(RequireApiKey(settings.ingestApiKey, header).value)
  {
    match RequireApiKey(settings.ingestApiKey, header)
    case Some(e) => Failed(e)
    case None =>
      match ParseBatch(body)
      case None => Unprocessable
      case Some(batch) => Accepted(|batch.data|, batch)
  }

  /** The count in the reply is the count the background task logs when
      its transaction commits, and nothing is committed when it fails. */
  lemma AcceptedCountMatchesIngest(settings: Settings, header: Option<string>, body: Json, db: Ingest.DbOutcome, cleanup: Ingest.Cleanup)
    requires IngestEndpoint(settings, header, body).Accepted?
    ensures var reply := IngestEndpoint(settings, header, body);
      var done := Ingest.IngestBatch(reply.task, db, cleanup);
      done.loggedTotal.Some? ==> done.loggedTotal.value == reply.records
  {
  }

  /** A serialised batch sent with the right key is always accepted, with
      its own length as the count. */
  lemma ValidBatchAccepted(settings: Settings, b: Batch)
    requires settings.ingestApiKey != ""
    ensures IngestEndpoint(settings, Some(settings.ingestApiKey), BatchJson(b)) == Accepted(|b.data|, b)
  {
    BatchJsonRoundTrip(b);
  }

  /** With the default settings no key is configured, so every ingest
      request is a server error, and CORS stays off. */
  lemma DefaultsRejectEverything(header: Option<string>, body: Json)
    ensures IngestEndpoint(DefaultSettings, header, body) == Failed(NotConfigured)
    ensures CorsConfig(DefaultSettings).None?
  {
  }

  /** The CORS middleware is installed only when the origin list is
      non-empty, and then with exactly that list. */
  function CorsConfig(settings: Settings): (r: Option<seq<string>>)
    ensures r.None? <==> GetCorsOrigins(settings) == []
    ensures r.Some? ==> r.value == GetCorsOrigins(settings)
  {
    var origins := GetCorsOrigins(settings);
    if origins == [] then None else Some(origins)
  }

  /** `/health`: ok when the probe query succeeds; any database exception
      becomes 503. */
  datatype HealthReply = HealthOk | HealthFailed(error: HttpError)

  function Health(dbAnswers: bool): (r: HealthReply)
    ensures r.HealthOk? <==> dbAnswers
    ensures r.HealthFailed? ==> r.error.status == 503
  {
    if dbAnswers then HealthOk else HealthFailed(HttpError(503, "Database unavailable"))
  }
}
