/** The method switch of main.go `handleData`, the `/data` endpoint of the
    HTTP server: what it replies, and with which status, for each method.

    The caller descriptor is the one `extractCallerInfo` computes for the
    request's headers. Decoding the body (`json.NewDecoder(r.Body).Decode`)
    is an oracle passed in as a function; writing the reply is not modelled. */
module LocalServer {
  import opened Wrappers
  import opened Json
  import opened Headers
  import opened CallerIdentity
  import opened Messages

  /** main.go `DataResponse` with its `Caller` field. */
  datatype DataReply = DataReply(message: string, data: Option<JsonValue>, httpMethod: string, path: string, caller: CallerInfo)

  /** A reply and the status code it is written with. */
  datatype Reply = Reply(status: int, body: DataReply)

  /** `http.StatusOK`, `StatusCreated`, `StatusBadRequest`, `StatusMethodNotAllowed`. */
  const StatusOK := 200
  const StatusCreated := 201
  const StatusBadRequest := 400
  const StatusMethodNotAllowed := 405

  /** The status codes `handleData` can choose. */
  predicate IsDataStatus(code: int) {
    code == StatusOK || code == StatusCreated || code == StatusBadRequest || code == StatusMethodNotAllowed
  }

  /** `handleData` for a request with method `httpMethod`, URL path `path`,
      body `body`, headers `h` and AWS_EXECUTION_ROLE_ARN `env`; `decode`
      yields the JSON object the body starts with, if any. */
  function HandleData(httpMethod: string, path: string, body: string, h: HeaderMap, env: Option<string>,
                      decode: string -> Option<JsonObject>): (r: Reply)
    ensures r.body.httpMethod == httpMethod && r.body.path == path && r.body.caller == CallerInfoOf(h, env)
    ensures IsDataStatus(r.status)
    ensures r.status == StatusOK <==> httpMethod == "GET"
    ensures r.status == StatusCreated <==> httpMethod == "POST" && decode(body).Some?
    ensures r.status == StatusBadRequest <==> httpMethod == "POST" && decode(body).None?
    ensures r.body.data.Some? <==> r.status == StatusOK || r.status == StatusCreated
  {
    var caller := CallerInfoOf(h, env);
    match httpMethod
    case "GET" =>
      Reply(StatusOK, DataReply(RetrievedMessage, Some(SampleData), httpMethod, path, caller))
    case "POST" =>
      (match decode(body)
       case None =>
         Reply(StatusBadRequest, DataReply(InvalidJsonMessage, None, httpMethod, path, caller))
       case Some(obj) =>
         Reply(StatusCreated, DataReply(ReceivedMessage, Some(Object(obj)), httpMethod, path, caller)))
    case _ =>
      Reply(StatusMethodNotAllowed, DataReply(NotAllowedMessage(httpMethod), None, httpMethod, path, caller))
  }
}
