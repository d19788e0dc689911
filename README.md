# Caller identity and request dispatch of the AWS Lambda REST API

This project models two parts of a small Go service that runs behind
API Gateway with IAM authentication.

**Caller-identity inference** (`main.go`: `extractRoleInfo`, `extractCallerInfo`, `min`)
- Every request is mapped to an advisory `CallerInfo` record of six strings.
- The inputs are the request headers and the optional `AWS_EXECUTION_ROLE_ARN` value.
- The inference is fixed-priority string matching:
  - the execution-role ARN comes first;
  - then an ordered scan of six headers for an `assumed-role` segment or a `role/` path;
  - then an STS-token prefix check;
  - a Host-fragment table picks the gateway label;
  - secrets are reported as 20-byte previews;
  - when a security token is present and the gateway label contains "API B", a hard override sets the restricted role. The test is on the label text, so an unknown host whose name contains "API B" triggers it too.
- Both Go functions are `method`s that follow the Go code step by step:
  - `ExtractRoleInfo` keeps the header loop and its early returns;
  - `ExtractCallerInfo` and `AddCredentials` keep the overriding field assignments.
- Each method is proved equal to a function, `RoleInfo` or `CallerInfoOf`, that states the result field by field.
- The properties of the inference are lemmas about those functions.

**Request dispatch** (`cmd/api/main.go`: `handler`, and the method switch of `main.go`: `handleData`)
- Both are pure decision tables. They map method, path and body to a status code and a payload.
- The Lambda handler adds a CORS preflight short-circuit, a fixed set of four response headers, and a 500 reply when serialisation fails.
- JSON decoding and encoding are oracle functions passed in as parameters.
- The health endpoint's timestamp is an input.

Supporting modules:
- `GoStrings` models the parts of Go's `strings` package the code relies on (`Index`, `Contains`, `IndexAny`, `HasPrefix`, `Split`). It also defines `Join`, which the code never calls, as the inverse that specifies `Split`. A Go string is a byte sequence, so each `char` stands for one byte.
- `Headers` models `http.Header.Get` and the header-name canonicalisation it applies. Every header name the model looks up is proved to be the canonical form of the name as main.go spells it.
- `Json` holds the JSON values the handlers echo.
- `Messages` holds the reply texts.

## Model

| member | source | states |
|---|---|---|
| GoStrings.Index | main.go:90 | strings.Index: -1 or the index of an occurrence of `sub`, and no occurrence starts earlier |
| GoStrings.Contains | main.go:50 | strings.Contains holds exactly when `sub` occurs somewhere in `s` |
| GoStrings.IndexAny | main.go:92 | strings.IndexAny: -1 or the index of a byte of `chars`, and no earlier byte is one of `chars` |
| GoStrings.PrefixBeforeAny | main.go:92-96 | the text before the first delimiter is a delimiter-free prefix, ended by a delimiter or by the end of the string |
| GoStrings.TextFrom | main.go:91-96 | the text from an offset up to the next delimiter lies in the string, is delimiter-free, and is followed by a delimiter or the end |
| GoStrings.IndexAnyAfterFree | main.go:92 | after a delimiter-free prefix, the first delimiter is the first byte of what follows |
| GoStrings.HasPrefix | main.go:105 | reference definition (no contract): strings.HasPrefix, `prefix` is the first bytes of `s` |
| GoStrings.Join | main.go:51 | reference definition (no contract): the parts with the separator between them; main.go never calls strings.Join, it is the inverse that specifies Split |
| GoStrings.Split | main.go:51 | strings.Split with a one-byte separator: at least one part, no part holds the separator, and joining the parts gives back the string |
| GoStrings.SplitOfJoin | main.go:76 | splitting the join of separator-free parts gives the parts back |
| GoStrings.SplitAtSeparator | main.go:52 | a string holding the separator splits into more than one part |
| GoStrings.JoinLastPart | main.go:53 | the last of several joined parts is the text after the final separator |
| GoStrings.SplitLastPart | main.go:53 | the last part of Split is exactly the text after the last separator |
| GoStrings.Min | main.go:194-199 | the result is at most both arguments and equal to one of them |
| GoStrings.Truncate | main.go:169 | `s[:min(len(s), n)]` is a prefix of `s`, at most `n` bytes, all of `s` when it is short enough and exactly `n` bytes otherwise |
| Headers.CaseMapsFixDash | main.go:153 | ASCII upper and lower casing fix '-' and are idempotent and absorbing on each other |
| Headers.CanonicalFrom | main.go:153 | each byte becomes upper case when it starts a word, lower case otherwise, and the length is kept |
| Headers.CanonicalKey | main.go:153 | the canonical header name upcases the first byte and each byte after '-', and downcases the rest |
| Headers.CanonicalKeyOf | main.go:153 | a name whose every byte follows the canonical rule (CanonicalOf) is the canonical form: the converse of CanonicalKey's contract |
| Headers.CanonicalOfDashed | main.go:63-66 | canonicalisation works word by word: two canonical words joined by '-' give the canonical form of the joined name |
| Headers.Get | main.go:70 | reference definition (no contract): `Header.Get` for a canonical name, its value or "" when absent |
| Headers.CanonicalKeyIdempotent | main.go:153 | canonicalising a canonical name changes nothing, so lookups by canonical name are consistent |
| CallerIdentity.AssumedRoleMatch | main.go:75-86 | reference definition (no contract) that MatchRoleHeader is proved to follow; AssumedRolePattern states what it yields |
| CallerIdentity.RolePathMatch | main.go:89-99 | reference definition (no contract) that MatchRoleHeader is proved to follow; RolePathPattern states what it yields |
| CallerIdentity.HeaderMatch | main.go:70-100 | reference definition (no contract) of one loop iteration that MatchRoleHeader is proved equal to; ShortValuesSkipped, AssumedRolePattern and RolePathPattern characterise it |
| CallerIdentity.ScanHeaders | main.go:69-101 | reference definition (no contract) of the header loop that ExtractRoleInfo is proved to compute; ScanHeadersFirstMatch characterises it |
| CallerIdentity.EnvRoleMatch | main.go:49-57 | reference definition (no contract) of the env-ARN step; EnvArnLastSegment, EnvArnRole and EnvArnIgnored characterise it |
| CallerIdentity.StsFallback | main.go:104-117 | reference definition (no contract) of the STS step; StsFallbackRole characterises it |
| CallerIdentity.RoleInfo | main.go:47-120 | reference definition (no contract) that ExtractRoleInfo is proved equal to: the env ARN, else the header scan, else the STS fallback |
| CallerIdentity.GatewayOf | main.go:142-159 | reference definition (no contract) of the Host table; GatewayFromHost characterises it |
| CallerIdentity.PrincipalIdOf | main.go:127-134 | reference definition (no contract); PrincipalIdPriority characterises it |
| CallerIdentity.AccountIdOf | main.go:137-139 | reference definition (no contract); StageInAccountId characterises it |
| CallerIdentity.UserArnOf | main.go:142-188 | reference definition (no contract): the gateway label, or the unauthenticated label when there is no Host, token or Authorization header; NoHeadersUnauthenticated and GatewayFromHost characterise it |
| CallerIdentity.Restricted | main.go:162-177 | reference definition (no contract): a security token is present and the label contains "API B" |
| CallerIdentity.UserIdOf | main.go:162-188 | reference definition (no contract); RestrictedRoleOverride, AuthorizationPreview and TokenPreview characterise it |
| CallerIdentity.RoleNameOf | main.go:162-180 | reference definition (no contract); RestrictedRoleOverride and TokenPreview characterise it |
| CallerIdentity.SessionNameOf | main.go:162-174 | reference definition (no contract); SessionFromRoleInfo characterises it |
| CallerIdentity.CallerInfoFrom | main.go:123-192 | reference definition (no contract): each field given by its last assignment in extractCallerInfo; AddCredentials is proved to follow it |
| CallerIdentity.CallerInfoOf | main.go:123-192 | reference definition (no contract) that ExtractCallerInfo is proved equal to |
| CallerIdentity.FirstAssumedRole | main.go:77-85 | the first index of a whole "assumed-role" segment with a successor, and no earlier index qualifies |
| CallerIdentity.ExtractRoleInfo | main.go:47-120 | the step-by-step role inference (env ARN, header loop with early return, STS fallback) returns exactly RoleInfo |
| CallerIdentity.MatchRoleHeader | main.go:69-100 | one iteration of the header loop returns exactly when the header value matches, with the role and session of HeaderMatch |
| CallerIdentity.ExtractCallerInfo | main.go:123-192 | the field-by-field construction of the caller descriptor, later assignments overriding earlier ones, is exactly CallerInfoOf |
| CallerIdentity.AddCredentials | main.go:161-188 | the security-token, Authorization and unauthenticated branches set user id, role, session and label as CallerInfoFrom says, and keep account id and principal id |
| CallerIdentityProperties.ApiKeyNameCanonical | main.go:153 | "X-API-Key" as spelled in the code canonicalises to the key "X-Api-Key" that Get looks up, which is canonical |
| CallerIdentityProperties.AuthorizationCanonical | main.go:61 | "Authorization" is canonical, so Get finds it as spelled |
| CallerIdentityProperties.AmzUserAgentCanonical | main.go:62 | "X-Amz-User-Agent" is canonical |
| CallerIdentityProperties.SecurityTokenHeaderCanonical | main.go:104 | "X-Amz-Security-Token" is canonical |
| CallerIdentityProperties.RequestIdHeaderCanonical | main.go:127 | "X-Request-Id" is canonical |
| CallerIdentityProperties.TraceIdHeaderCanonical | main.go:132 | "X-Amzn-Trace-Id" is canonical |
| CallerIdentityProperties.StageHeaderCanonical | main.go:137 | "X-Stage" is canonical |
| CallerIdentityProperties.HostHeaderCanonical | main.go:142 | "Host" is canonical |
| CallerIdentityProperties.RequestContextOf | main.go:63-66 | "X-Amzn-RequestContext" canonicalises byte by byte to "X-Amzn-Requestcontext" |
| CallerIdentityProperties.IdentityPrefixOf | main.go:63-66 | "X-Amzn-RequestContext-Identity" canonicalises byte by byte to "X-Amzn-Requestcontext-Identity" |
| CallerIdentityProperties.IdentityArnCanonical | main.go:63 | "X-Amzn-RequestContext-Identity-Arn" canonicalises to the name looked up, which is canonical |
| CallerIdentityProperties.IdentityUserArnCanonical | main.go:64 | "X-Amzn-RequestContext-Identity-UserArn" canonicalises to "X-Amzn-Requestcontext-Identity-Userarn", which is canonical |
| CallerIdentityProperties.IdentityUserCanonical | main.go:65 | "X-Amzn-RequestContext-Identity-User" canonicalises to the name looked up, which is canonical |
| CallerIdentityProperties.IdentityPrincipalIdCanonical | main.go:66 | "X-Amzn-RequestContext-Identity-PrincipalId" canonicalises to "X-Amzn-Requestcontext-Identity-Principalid", which is canonical |
| CallerIdentityProperties.ScanHeadersFirstMatch | main.go:69-101 | the header scan finds nothing exactly when no header value matches, else it returns the match of the first header that does |
| CallerIdentityProperties.ShortValuesSkipped | main.go:71 | header values of ten bytes or fewer never match |
| CallerIdentityProperties.AssumedRolePattern | main.go:75-86 | the assumed-role pattern matches exactly when some whole "assumed-role" segment has a successor; the role is the segment after the first one, and the session is the segment after that or empty |
| CallerIdentityProperties.RolePathPattern | main.go:89-99 | the role/ pattern matches exactly when "role/" occurs; the role starts right after the first "role/", holds no delimiter, and is ended by a delimiter or the end; the session is empty |
| CallerIdentityProperties.RoleArnHasSegments | main.go:50-52 | an ARN containing "role/" has at least two "/"-segments |
| CallerIdentityProperties.EnvArnLastSegment | main.go:49-56 | an env ARN containing "role/" yields its last "/"-segment, which follows the last '/' |
| CallerIdentityProperties.EnvArnRole | main.go:49-56 | such an ARN decides the role whatever the headers, with an empty session |
| CallerIdentityProperties.EnvArnIgnored | main.go:49-57 | an absent ARN, or one without "role/", leaves the result as if there were none |
| CallerIdentityProperties.StsFallbackRole | main.go:104-117 | when nothing matched, an IQoJ token gives STS-AssumedRole, with a session of "session-" and token bytes 50..60 (18 bytes) only for tokens over 100 bytes; any other token gives empty results |
| CallerIdentityProperties.AssumedRoleArnSegments | main.go:75-86 | a value "<prefix>assumed-role/<role>/<session>" with a non-empty prefix free of '/' has no whole "assumed-role" segment, so that pattern does not match |
| CallerIdentityProperties.AssumedRoleArnRoleIndex | main.go:90 | in such a value the first "role/" is the one inside "assumed-role/" |
| CallerIdentityProperties.AssumedRoleArnLosesSession | main.go:75-99 | a real assumed-role ARN falls through to the role/ branch and yields the role with an empty session |
| CallerIdentityProperties.RealAssumedRoleArn | main.go:75-99 | "arn:aws:sts::1:assumed-role/R/S" yields role "R" and no session |
| CallerIdentityProperties.NoHeadersUnauthenticated | main.go:124-139 | without headers the descriptor is "Unauthenticated Request" with every other field empty, whatever the env ARN |
| CallerIdentityProperties.PrincipalIdPriority | main.go:127-134 | the principal id is "Request: " and the request id if present, else "Trace: " and the trace id if present, else empty |
| CallerIdentityProperties.StageInAccountId | main.go:137-139 | the account id is "Stage: " and the stage header, or empty without it |
| CallerIdentityProperties.GatewayFromHost | main.go:142-159 | the Host fragments map to the A, B and C labels in that order; another host gives C with an API key and "API Gateway: " and the host without; without Host the label is untouched |
| CallerIdentityProperties.ContainsAfterPrefix | main.go:177 | a substring of `s` is a substring of any `p + s` |
| CallerIdentityProperties.RestrictedRoleOverride | main.go:176-180 | with a token and an API B label, role and user id are the restricted role whatever the env ARN and the role inference give |
| CallerIdentityProperties.RestrictedRoleForHostNamingApiB | main.go:156-180 | an unknown host whose name contains "API B" also triggers the override, because the override tests the label text |
| CallerIdentityProperties.RestrictedGatewayScenario | main.go:145-180 | a host of gateway B with a token always reports the restricted role |
| CallerIdentityProperties.AuthorizationPreview | main.go:182-183 | without a token, an Authorization header gives "Auth: ", a prefix of min(len, 20) bytes of the header, and "..." |
| CallerIdentityProperties.TokenPreview | main.go:165-170 | with a token, no role found and no API B label, the user id is "Token: ", a 20-byte-bounded prefix of the token, and "...", and the role is empty |
| CallerIdentityProperties.SessionFromRoleInfo | main.go:172-174 | the session is the one the role inference found when a token is present, else empty |
| Messages.NotAllowedMessage | cmd/api/main.go:116 | the message is "Method ", then the method, then " not allowed" |
| Messages.NotAllowedMessageInjective | cmd/api/main.go:116 | the method can be read back from the message |
| LambdaHandler.Route | cmd/api/main.go:55-130 | every status is one of 200/201/400/404/405; a health payload exactly for "/health"; data payloads echo method and path; data present exactly for GET /data (200) or 201; 404 exactly for unknown paths |
| LambdaHandler.RouteData | cmd/api/main.go:72-121 | 200 exactly for GET; 201 exactly for POST with a non-empty body that decodes; 400 exactly for POST with an empty or undecodable body; 405 exactly for other methods; data present exactly with 200 or 201 |
| LambdaHandler.Handler | cmd/api/main.go:33-147 | the four CORS headers on every response; OPTIONS gives 200 and an empty body; 500 exactly when serialisation fails, with the fixed error body; otherwise the routed status and the serialised payload |
| LocalServer.HandleData | main.go:256-305 | echoes method, path and the caller descriptor; 200 exactly for GET; 201 exactly for POST when the body decodes; 400 exactly for POST when it does not; 405 otherwise; data present exactly with 200 or 201 |
| HandlerProperties.OptionsPreflight | cmd/api/main.go:44-50 | an OPTIONS request gets 200, the CORS headers and an empty body, for any path |
| HandlerProperties.HandlerStatusCodes | cmd/api/main.go:132-146 | the status is a routed one or 500, and never 500 when serialisation always succeeds |
| HandlerProperties.RootAndHealthOk | cmd/api/main.go:56-70 | "/" and "/health" answer 200 to every method but OPTIONS, with the welcome and health payloads |
| HandlerProperties.UnknownPathNotFound | cmd/api/main.go:123-129 | any other path answers 404 "Endpoint not found", echoing method and path |
| HandlerProperties.DataGet | cmd/api/main.go:74-84 | GET /data answers 200 with items item1..item3 and count 3 |
| HandlerProperties.DataPost | cmd/api/main.go:86-112 | POST /data: 400 "No data provided" for an empty body, 400 "Invalid JSON in request body" when it does not decode, 201 with the decoded object otherwise |
| HandlerProperties.DataOtherMethod | cmd/api/main.go:114-120 | any other method on /data answers 405 "Method m not allowed" |
| HandlerProperties.HandlerTestTable | cmd/api/main_test.go:11-58 | the five requests of the handler's test table get 200, 200, 200, 201 and 404 |
| HandlerProperties.HandleDataReplies | main.go:260-304 | GET replies with the fixed items, POST with the decoded object or "Invalid JSON in request body", any other method with "Method m not allowed" |
| HandlerProperties.DataEndpointsAgree | main.go:260-304 | when the decoders agree, both servers give /data the same status and data for every method but OPTIONS, and the same message except for an empty POST body |
| HandlerProperties.DataPreflightDiffers | main.go:296-303 | OPTIONS /data gets 405 from main.go but 200 from the Lambda handler |

## Left out

- Both `main()` functions are not modelled: the listener, the gateway adapter, `lambda.Start` and the `PORT`/`AWS_LAMBDA_FUNCTION_NAME` selection are transport plumbing.
- The `slog`/`log` calls are not modelled, including the 100-byte log truncation of a header value. They are logging only.
- `json.Marshal`, `json.Unmarshal` and the `json.NewDecoder` decoding are oracle parameters. So the model does not fix how trailing data after the first object or the `omitempty` of the `data` field are treated; the oracle decides. A `null` body cannot be expressed: Go decodes it without error into a nil map and answers 201 with `"data":null`, while the oracle's result type `Option<JsonObject>` can give at most `Some(map[])`, which is `{}`.
- The `valid JSON body` check of the handler's test table is left to the serialisation oracle. HandlerTestTable states only the statuses.
- `time.Now().UTC().Format(time.RFC3339)` is an input (`now`), not a clock reading.
- `writeJSONResponse` and its I/O are not modelled. Its `http.Error` comes after `WriteHeader`, so it cannot change the status, and main.go has no modelled 500.
- `http.ServeMux` routing of main.go is library behaviour. Its "/" pattern is a catch-all, so main.go has no 404; only the `handleData` switch is modelled.
- `handleRoot` and `handleHealth` of main.go are not modelled: they have no decision logic beyond calling `extractCallerInfo`.
- `STSTokenPayload` is never used, and is not modelled.
- `Headers.Get` looks up names that are already canonical, so it does not canonicalise again. The lemmas ending in `Canonical` prove, name by name, that main.go's spelling canonicalises to the name looked up.
- The early return of Go's canonicalisation for names with non-token bytes is not modelled.
- Multi-valued headers are not modelled: a header map holds one value per name, as `Header.Get` returns only the first.
- `Host` is an ordinary key of the header map; Go moves it to `Request.Host`.
- Strings are byte sequences with one `char` per byte. `IndexAny` scans bytes where Go scans runes, which gives the same index because every delimiter set used is ASCII.
- JSON numbers are `real`s; the fixed count 3 is `3.0`.
- CallerIdentity.ExtractCallerInfo: the Go function allocates a `*CallerInfo` and mutates it; the model builds the record as a value, with the same sequence of overriding updates. The credential half of the steps is an extra method, AddCredentials.
