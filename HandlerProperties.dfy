/** What the two request dispatchers promise: the routing table of the
    Lambda handler in cmd/api/main.go, the `/data` method switch of main.go,
    and how the two relate on the endpoint they share. */
module HandlerProperties {
  import opened Wrappers
  import opened Json
  import opened Messages
  import opened Headers
  import opened LambdaHandler
  import opened LocalServer

  // ---------------------------------------------------------------------
  // cmd/api/main.go handler
  // ---------------------------------------------------------------------

  /** A preflight request is answered with 200, the CORS headers and an
      empty body, whatever its path and body. */
  lemma OptionsPreflight(req: ProxyRequest, now: string, unmarshal: string -> Option<JsonObject>,
                         marshal: Payload -> Option<string>)
    requires req.httpMethod == "OPTIONS"
    ensures Handler(req, now, unmarshal, marshal) == ProxyResponse(200, CorsHeaders, "")
  {
  }

  /** The response is never 500 unless serialisation fails, and every
      status is one of the six the handler can produce. */
  lemma HandlerStatusCodes(req: ProxyRequest, now: string, unmarshal: string -> Option<JsonObject>,
                           marshal: Payload -> Option<string>)
    ensures var code := Handler(req, now, unmarshal, marshal).statusCode;
      IsRoutedStatus(code) || code == 500
    ensures (forall p :: marshal(p).Some?) ==> Handler(req, now, unmarshal, marshal).statusCode != 500
  {
  }

  /** "/" and "/health" answer 200 to every method but OPTIONS. */
  lemma RootAndHealthOk(req: ProxyRequest, now: string, unmarshal: string -> Option<JsonObject>)
    requires req.httpMethod != "OPTIONS" && (req.path == "/" || req.path == "/health")
    ensures Route(req, now, unmarshal).statusCode == 200
    ensures req.path == "/" ==>
      Route(req, now, unmarshal).payload == DataPayload(WelcomeMessage, None, req.httpMethod, "/")
    ensures req.path == "/health" ==>
      Route(req, now, unmarshal).payload == HealthPayload(HealthyStatus, now, HealthyMessage)
  {
  }

  /** Every other path but "/data" answers 404 "Endpoint not found" and
      echoes the method and the path. */
  lemma UnknownPathNotFound(req: ProxyRequest, now: string, unmarshal: string -> Option<JsonObject>)
    requires req.path != "/" && req.path != "/health" && req.path != "/data"
    ensures Route(req, now, unmarshal) ==
      Routed(DataPayload(NotFoundMessage, None, req.httpMethod, req.path), 404)
  {
  }

  /** GET /data answers 200 with the fixed items and count. */
  lemma DataGet(req: ProxyRequest, now: string, unmarshal: string -> Option<JsonObject>)
    requires req.path == "/data" && req.httpMethod == "GET"
    ensures Route(req, now, unmarshal) ==
      Routed(DataPayload(RetrievedMessage, Some(SampleData), "GET", "/data"), 200)
  {
  }

  /** POST /data: 400 "No data provided" for an empty body, 400 "Invalid
      JSON in request body" for a body that does not decode, and 201 with
      the decoded object otherwise. */
  lemma DataPost(req: ProxyRequest, now: string, unmarshal: string -> Option<JsonObject>)
    requires req.path == "/data" && req.httpMethod == "POST"
    ensures req.body == "" ==>
      Route(req, now, unmarshal) == Routed(DataPayload(NoDataMessage, None, "POST", "/data"), 400)
    ensures req.body != "" && unmarshal(req.body).None? ==>
      Route(req, now, unmarshal) == Routed(DataPayload(InvalidJsonMessage, None, "POST", "/data"), 400)
    ensures req.body != "" && unmarshal(req.body).Some? ==>
      Route(req, now, unmarshal) ==
        Routed(DataPayload(ReceivedMessage, Some(Object(unmarshal(req.body).value)), "POST", "/data"), 201)
  {
  }

  /** Any other method on /data answers 405 "Method <m> not allowed". */
  lemma DataOtherMethod(req: ProxyRequest, now: string, unmarshal: string -> Option<JsonObject>)
    requires req.path == "/data" && req.httpMethod != "GET" && req.httpMethod != "POST"
    ensures Route(req, now, unmarshal) ==
      Routed(DataPayload(NotAllowedMessage(req.httpMethod), None, req.httpMethod, "/data"), 405)
  {
  }

  /** The five requests of the handler's test table get the statuses it
      expects, when serialisation succeeds and the test body decodes. */
  lemma HandlerTestTable(now: string, unmarshal: string -> Option<JsonObject>, marshal: Payload -> Option<string>)
    requires forall p :: marshal(p).Some?
    requires unmarshal("{\"message\":\"test\"}").Some?
    ensures Handler(ProxyRequest("GET", "/", ""), now, unmarshal, marshal).statusCode == 200
    ensures Handler(ProxyRequest("GET", "/health", ""), now, unmarshal, marshal).statusCode == 200
    ensures Handler(ProxyRequest("GET", "/data", ""), now, unmarshal, marshal).statusCode == 200
    ensures Handler(ProxyRequest("POST", "/data", "{\"message\":\"test\"}"), now, unmarshal, marshal).statusCode == 201
    ensures Handler(ProxyRequest("GET", "/unknown", ""), now, unmarshal, marshal).statusCode == 404
  {
  }

  // ---------------------------------------------------------------------
  // main.go handleData
  // ---------------------------------------------------------------------

  /** GET answers the fixed items, POST the decoded object or "Invalid JSON
      in request body", and any other method "Method <m> not allowed". */
  lemma HandleDataReplies(httpMethod: string, path: string, body: string, h: HeaderMap, env: Option<string>,
                          decode: string -> Option<JsonObject>)
    ensures var r := HandleData(httpMethod, path, body, h, env, decode);
      (httpMethod == "GET" ==> r.body.message == RetrievedMessage && r.body.data == Some(SampleData)) &&
      (httpMethod == "POST" && decode(body).Some? ==>
        r.body.message == ReceivedMessage && r.body.data == Some(Object(decode(body).value))) &&
      (httpMethod == "POST" && decode(body).None? ==> r.body.message == InvalidJsonMessage) &&
      (httpMethod != "GET" && httpMethod != "POST" ==> r.body.message == NotAllowedMessage(httpMethod))
  {
  }

  // ---------------------------------------------------------------------
  // The two dispatchers on /data
  // ---------------------------------------------------------------------

  /** When the two decoders agree on non-empty bodies and main.go's rejects
      the empty body, both servers give /data the same status, message and
      data for every method but OPTIONS; the one difference in the reply is
      the message for an empty POST body. */
  lemma DataEndpointsAgree(httpMethod: string, body: string, h: HeaderMap, env: Option<string>,
                           decode: string -> Option<JsonObject>, unmarshal: string -> Option<JsonObject>,
                           now: string)
    requires httpMethod != "OPTIONS"
    requires decode("").None?
    requires body != "" ==> decode(body) == unmarshal(body)
    ensures var local := HandleData(httpMethod, "/data", body, h, env, decode);
      var lambda := Route(ProxyRequest(httpMethod, "/data", body), now, unmarshal);
      local.status == lambda.statusCode &&
      local.body.data == lambda.payload.data &&
      (local.body.message == lambda.payload.message <==> !(httpMethod == "POST" && body == ""))
  {
    if httpMethod == "POST" && body == "" {
      assert InvalidJsonMessage != NoDataMessage by {
        assert InvalidJsonMessage[0] != NoDataMessage[0];
      }
    }
  }

  /** A preflight request to /data gets 405 from main.go, which has no
      preflight branch, but 200 from the Lambda handler. */
  lemma DataPreflightDiffers(body: string, h: HeaderMap, env: Option<string>,
                             decode: string -> Option<JsonObject>, now: string,
                             unmarshal: string -> Option<JsonObject>, marshal: Payload -> Option<string>)
    ensures HandleData("OPTIONS", "/data", body, h, env, decode).status == StatusMethodNotAllowed
    ensures Handler(ProxyRequest("OPTIONS", "/data", body), now, unmarshal, marshal).statusCode == 200
  {
  }
}
