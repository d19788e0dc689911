/** The reply texts that main.go and cmd/api/main.go share, and the fixed
    texts of cmd/api/main.go's other branches. */
module Messages {

  const RetrievedMessage := "Data retrieved successfully"
  const ReceivedMessage := "Data received successfully"
  const InvalidJsonMessage := "Invalid JSON in request body"

  const WelcomeMessage := "Welcome to AWS Lambda REST API with IAM Authentication"
  const HealthyStatus := "healthy"
  const HealthyMessage := "API is running successfully"
  const NoDataMessage := "No data provided"
  const NotFoundMessage := "Endpoint not found"

  /** `fmt.Sprintf("Method %s not allowed", httpMethod)`. */
  function NotAllowedMessage(httpMethod: string): (m: string)
    ensures |m| == |httpMethod| + 19
    ensures m[..7] == "Method " && m[7..7 + |httpMethod|] == httpMethod && m[7 + |httpMethod|..] == " not allowed"
  {
    "Method " + httpMethod + " not allowed"
  }

  /** The method can be read back from the message, so distinct methods
      get distinct messages. */
  lemma NotAllowedMessageInjective(a: string, b: string)
    requires NotAllowedMessage(a) == NotAllowedMessage(b)
    ensures a == b
  {
    var m := NotAllowedMessage(a);
    assert a == m[7..7 + |a|] && b == m[7..7 + |b|];
  }
}
