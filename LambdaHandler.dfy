/** The API Gateway proxy handler of cmd/api/main.go: a CORS preflight
    short-circuit, a routing table on the path and method, one fixed set of
    response headers, and a 500 reply when the payload cannot be serialised.

    JSON decoding of the request body (`json.Unmarshal`) and encoding of the
    payload (`json.Marshal`) are oracles passed in as functions; the clock
    reading of the health endpoint is passed in as already formatted text. */
module LambdaHandler {
  import opened Wrappers
  import opened Json
  import opened Messages

  /** The fields of `events.APIGatewayProxyRequest` that the handler reads. */
  datatype ProxyRequest = ProxyRequest(httpMethod: string, path: string, body: string)

  /** `events.APIGatewayProxyResponse`. */
  datatype ProxyResponse = ProxyResponse(statusCode: int, headers: map<string, string>, body: string)

  /** The two payload shapes: `DataResponse` (its `data` field is omitted
      when absent) and `HealthResponse`. */
  datatype Payload =
    | DataPayload(message: string, data: Option<JsonValue>, httpMethod: string, path: string)
    | HealthPayload(status: string, timestamp: string, message: string)

  /** The payload chosen by the routing table and its status code. */
  datatype Routed = Routed(payload: Payload, statusCode: int)

  /** The headers every response carries. */
  const CorsHeaders: map<string, string> := map[
    "Content-Type" := "application/json",
    "Access-Control-Allow-Origin" := "*",
    "Access-Control-Allow-Methods" := "GET,POST,PUT,DELETE,OPTIONS",
    "Access-Control-Allow-Headers" := "Content-Type,X-Amz-Date,Authorization,X-Api-Key,X-Amz-Security-Token"]

  /** The body sent when the payload cannot be serialised. */
  const InternalErrorBody := "{\"message\":\"Internal server error\"}"

  /** The status codes that the routing table can choose. */
  predicate IsRoutedStatus(code: int) {
    code == 200 || code == 201 || code == 400 || code == 404 || code == 405
  }

  /** The routing table for a request that is not a preflight; `now` is the
      RFC 3339 text of the current time and `unmarshal` decodes a body. */
  function Route(req: ProxyRequest, now: string, unmarshal: string -> Option<JsonObject>): (r: Routed)
    ensures IsRoutedStatus(r.statusCode)
    ensures r.payload.HealthPayload? <==> req.path == "/health"
    ensures r.payload.DataPayload? ==> r.payload.httpMethod == req.httpMethod && r.payload.path == req.path
    ensures (r.payload.DataPayload? && r.payload.data.Some?) <==> (r.statusCode == 200 && req.path == "/data") || r.statusCode == 201
    ensures r.statusCode == 404 <==> req.path != "/" && req.path != "/health" && req.path != "/data"
    ensures r.statusCode != 200 ==> req.path == "/data" || r.statusCode == 404
  {
    match req.path
    case "/" =>
      Routed(DataPayload(WelcomeMessage, None, req.httpMethod, req.path), 200)
    case "/health" =>
      Routed(HealthPayload(HealthyStatus, now, HealthyMessage), 200)
    case "/data" =>
      RouteData(req, unmarshal)
    case _ =>
      Routed(DataPayload(NotFoundMessage, None, req.httpMethod, req.path), 404)
  }

  /** The method switch of the "/data" endpoint. */
  function RouteData(req: ProxyRequest, unmarshal: string -> Option<JsonObject>): (r: Routed)
    ensures r.payload.DataPayload? && r.payload.httpMethod == req.httpMethod && r.payload.path == req.path
    ensures r.statusCode == 200 <==> req.httpMethod == "GET"
    ensures r.statusCode == 201 <==> req.httpMethod == "POST" && req.body != "" && unmarshal(req.body).Some?
    ensures r.statusCode == 400 <==> req.httpMethod == "POST" && (req.body == "" || unmarshal(req.body).None?)
    ensures r.statusCode == 405 <==> req.httpMethod != "GET" && req.httpMethod != "POST"
    ensures r.payload.data.Some? <==> r.statusCode == 200 || r.statusCode == 201
  {
    match req.httpMethod
    case "GET" =>
      Routed(DataPayload(RetrievedMessage, Some(SampleData), req.httpMethod, req.path), 200)
    case "POST" =>
      if req.body != "" then
        match unmarshal(req.body)
        case None => Routed(DataPayload(InvalidJsonMessage, None, req.httpMethod, req.path), 400)
        case Some(obj) => Routed(DataPayload(ReceivedMessage, Some(Object(obj)), req.httpMethod, req.path), 201)
      else
        Routed(DataPayload(NoDataMessage, None, req.httpMethod, req.path), 400)
    case _ =>
      Routed(DataPayload(NotAllowedMessage(req.httpMethod), None, req.httpMethod, req.path), 405)
  }

  /** cmd/api/main.go `handler`: `marshal` serialises a payload, or fails. */
  function Handler(req: ProxyRequest, now: string, unmarshal: string -> Option<JsonObject>,
                   marshal: Payload -> Option<string>): (r: ProxyResponse)
    ensures r.headers == CorsHeaders
    ensures req.httpMethod == "OPTIONS" ==> r.statusCode == 200 && r.body == ""
    ensures r.statusCode == 500 <==>
      req.httpMethod != "OPTIONS" && marshal(Route(req, now, unmarshal).payload).None?
    ensures r.statusCode == 500 ==> r.body == InternalErrorBody
    ensures req.httpMethod != "OPTIONS" && r.statusCode != 500 ==>
      r.statusCode == Route(req, now, unmarshal).statusCode &&
      Some(r.body) == marshal(Route(req, now, unmarshal).payload)
  {
    if req.httpMethod == "OPTIONS" then
      ProxyResponse(200, CorsHeaders, "")
    else
      var routed := Route(req, now, unmarshal);
      match marshal(routed.payload)
      case None => ProxyResponse(500, CorsHeaders, InternalErrorBody)
      case Some(body) => ProxyResponse(routed.statusCode, CorsHeaders, body)
  }
}
