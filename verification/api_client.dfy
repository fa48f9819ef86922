/** The uploader: one POST of one envelope per non-empty batch.  The network
    is an oracle; its answer is a parameter. */
module ApiClient {
  import opened Common
  import opened Models

  /** The client's fields are all immutable, so a send depends only on its
      arguments. */
  datatype Client = Client(baseUrl: string, deviceId: string)

  datatype Header = Header(name: string, value: string)

  /** The request handed to the URL session.  `body` is absent when the
      envelope failed to encode (the request is sent anyway, without a
      body). */
  datatype Request = Request(url: string, httpMethod: string, headers: seq<Header>, body: Option<BatchEnvelope>)

  /** What the URL session produced: an HTTP response with a status code,
      some other kind of response, or a thrown transport error. */
  datatype Response = HttpResponse(status: int) | OtherResponse | TransportError

  /** The outcome of `send(items:)`: the boolean it returns and the request
      it issued, if any. */
  datatype SendResult = SendResult(ok: bool, request: Option<Request>)

  /** The API key the client sends. */
  const ApiKey: string := "dev_key"

  function IsSuccess(response: Response): bool {
    response.HttpResponse? && 200 <= response.status < 300
  }

  function HasHeader(r: Request, name: string, value: string): bool {
    Header(name, value) in r.headers
  }

  /** `send(items:)`.  An empty batch succeeds without any request.
      Otherwise one POST carrying the device id and exactly the items, in
      order; the result is true iff the answer is an HTTP status in
      200..<300.  No failure escapes as an error. */
  function Send(client: Client, items: seq<BatchItem>, encodes: bool, response: Response): (r: SendResult)
    ensures items == [] ==> r.ok && r.request.None?
    ensures items != [] ==> r.request.Some?
    ensures items != [] ==> (r.ok <==> response.HttpResponse? && 200 <= response.status < 300)
    ensures r.request.Some? ==>
      var req := r.request.value;
      && req.url == client.baseUrl
      && req.httpMethod == "POST"
      && HasHeader(req, "Content-Type", "application/json")
      && HasHeader(req, "X-API-Key", ApiKey)
      && (encodes ==> req.body == Some(BatchEnvelope(client.deviceId, items)))
      && (!encodes ==> req.body.None?)
  {
    if items == [] then SendResult(true, None)
    else
      var envelope := BatchEnvelope(client.deviceId, items);
      var headers := [Header("Content-Type", "application/json"), Header("X-API-Key", ApiKey)];
      var request := Request(client.baseUrl, "POST", headers, if encodes then Some(envelope) else None);
      SendResult(IsSuccess(response), Some(request))
  }
}
