/** The caller-identity inference of main.go: `extractRoleInfo` and
    `extractCallerInfo`. Both are total: every combination of headers, and
    of the optional AWS_EXECUTION_ROLE_ARN value, yields a result.

    Each Go function is modelled twice: a method that runs the Go code's
    steps (its loops, early returns and overriding assignments), and a
    function that states the result field by field. The methods are proved
    equal to the functions, and the properties of the inference are lemmas
    about the functions. */
module CallerIdentity {
  import opened Wrappers
  import opened GoStrings
  import opened Headers

  /** The advisory descriptor of the caller (main.go `CallerInfo`). */
  datatype CallerInfo = CallerInfo(
    userArn: string,
    userId: string,
    accountId: string,
    principalId: string,
    roleName: string,
    sessionName: string)

  /** The two named results of `extractRoleInfo`. */
  datatype RoleSession = RoleSession(role: string, session: string)

  // The header names main.go asks `Header.Get` for, in the canonical form
  // that Get looks up. Seven of them main.go spells in that form; the
  // other five are spelled differently (see the Spelled constants below),
  // and CallerIdentityProperties proves each spelling canonicalises to the
  // name here.
  const Authorization := "Authorization"
  const AmzUserAgent := "X-Amz-User-Agent"
  const IdentityArn := "X-Amzn-Requestcontext-Identity-Arn"
  const IdentityUserArn := "X-Amzn-Requestcontext-Identity-Userarn"
  const IdentityUser := "X-Amzn-Requestcontext-Identity-User"
  const IdentityPrincipalId := "X-Amzn-Requestcontext-Identity-Principalid"
  const SecurityTokenHeader := "X-Amz-Security-Token"
  const RequestIdHeader := "X-Request-Id"
  const TraceIdHeader := "X-Amzn-Trace-Id"
  const StageHeader := "X-Stage"
  const HostHeader := "Host"
  const ApiKeyHeader := "X-Api-Key"

  /** How main.go spells the names whose canonical form differs. */
  const SpelledIdentityArn := "X-Amzn-RequestContext-Identity-Arn"
  const SpelledIdentityUserArn := "X-Amzn-RequestContext-Identity-UserArn"
  const SpelledIdentityUser := "X-Amzn-RequestContext-Identity-User"
  const SpelledIdentityPrincipalId := "X-Amzn-RequestContext-Identity-PrincipalId"
  const SpelledApiKey := "X-API-Key"

  /** The headers scanned for role text, in the order they are scanned. */
  const RoleHeaderNames: seq<string> :=
    [Authorization, AmzUserAgent, IdentityArn, IdentityUserArn, IdentityUser, IdentityPrincipalId]

  /** The bytes that end a role name found after "role/". */
  const RoleDelimiters := "/,; "

  /** The prefix of an STS temporary-credential token. */
  const StsTokenPrefix := "IQoJ"

  const StsRoleName := "STS-AssumedRole"

  const ApiALabel := "API A (Open Access)"
  const ApiBLabel := "API B (Restricted Access)"
  const ApiCLabel := "API C (IAM + API Key)"
  const UnauthenticatedLabel := "Unauthenticated Request"

  /** The role that the gateway for API B lets callers use. */
  const RestrictedRoleName := "aws-lambda-rest-iam-api-api-b-restricted-role"

  /** The length of the token and header previews. */
  const PreviewLength: nat := 20

  // ---------------------------------------------------------------------
  // extractRoleInfo, stated as functions
  // ---------------------------------------------------------------------

  /** Segment `k` of `parts` is exactly "assumed-role" and another segment
      follows it. */
  predicate AssumedRoleAt(parts: seq<string>, k: int) {
    0 <= k && k + 1 < |parts| && parts[k] == "assumed-role"
  }

  /** The first index at or after `from` where AssumedRoleAt holds. */
  function FirstAssumedRole(parts: seq<string>, from: nat): (r: Option<nat>)
    requires from <= |parts|
    ensures r.Some? ==> from <= r.value && AssumedRoleAt(parts, r.value)
    ensures forall j :: from <= j < |parts| && (r.None? || j < r.value) ==> !AssumedRoleAt(parts, j)
    decreases |parts| - from
  {
    if from == |parts| then None
    else if AssumedRoleAt(parts, from) then Some(from)
    else FirstAssumedRole(parts, from + 1)
  }

  /** The "assumed-role" pattern of one header value: the segments after the
      first whole "/"-segment "assumed-role" that has a successor. */
  function AssumedRoleMatch(value: string): Option<RoleSession> {
    if !Contains(value, "assumed-role") then None
    else
      var parts := Split(value, '/');
      match FirstAssumedRole(parts, 0)
      case None => None
      case Some(k) => Some(RoleSession(parts[k + 1], if k + 2 < |parts| then parts[k + 2] else ""))
  }

  /** The "role/" pattern of one header value: the text after the first
      "role/", up to the first delimiter or the end. */
  function RolePathMatch(value: string): Option<RoleSession> {
    if !Contains(value, "role/") then None
    else
      var remaining := value[Index(value, "role/") + 5..];
      var end := IndexAny(remaining, RoleDelimiters);
      Some(RoleSession(if end == -1 then remaining else remaining[..end], ""))
  }

  /** What one scanned header value yields: nothing for a value of ten bytes
      or fewer, else the assumed-role pattern, else the role/ pattern. */
  function HeaderMatch(value: string): Option<RoleSession> {
    if |value| <= 10 then None
    else
      match AssumedRoleMatch(value)
      case Some(m) => Some(m)
      case None => RolePathMatch(value)
  }

  /** The first header of `names` whose value matches. */
  function ScanHeaders(h: HeaderMap, names: seq<string>): Option<RoleSession>
    decreases |names|
  {
    if names == [] then None
    else
      match HeaderMatch(Get(h, names[0]))
      case Some(m) => Some(m)
      case None => ScanHeaders(h, names[1..])
  }

  /** The role taken from AWS_EXECUTION_ROLE_ARN, when that ARN is set and
      contains "role/": its last "/"-segment. */
  function EnvRoleMatch(env: Option<string>): Option<string> {
    match env
    case None => None
    case Some(arn) =>
      if arn != "" && Contains(arn, "role/") then
        var parts := Split(arn, '/');
        if |parts| > 1 then Some(parts[|parts| - 1]) else None
      else None
  }

  /** The STS labelling heuristic applied to the security token. */
  function StsFallback(token: string): RoleSession {
    if token != "" && HasPrefix(token, StsTokenPrefix) then
      RoleSession(StsRoleName, if |token| > 100 then "session-" + token[50..60] else "")
    else
      RoleSession("", "")
  }

  /** The result of `extractRoleInfo`: the environment ARN first, then the
      header scan, then the STS token. */
  function RoleInfo(h: HeaderMap, env: Option<string>): RoleSession {
    match EnvRoleMatch(env)
    case Some(role) => RoleSession(role, "")
    case None =>
      match ScanHeaders(h, RoleHeaderNames)
      case Some(m) => m
      case None => StsFallback(Get(h, SecurityTokenHeader))
  }

  // ---------------------------------------------------------------------
  // extractCallerInfo, stated as functions
  // ---------------------------------------------------------------------

  /** The gateway label that the Host header selects, "" when Host is absent. */
  function GatewayOf(h: HeaderMap): string {
    var host := Get(h, HostHeader);
    if host == "" then ""
    else if Contains(host, "7pxbysogui") then ApiALabel
    else if Contains(host, "cqst45pam7") then ApiBLabel
    else if Contains(host, "vo9f4c6gj4") then ApiCLabel
    else if Get(h, ApiKeyHeader) != "" then ApiCLabel
    else "API Gateway: " + host
  }

  /** "Request: " and the request id, else "Trace: " and the trace id. */
  function PrincipalIdOf(h: HeaderMap): string {
    var requestId := Get(h, RequestIdHeader);
    var traceId := Get(h, TraceIdHeader);
    if requestId != "" then "Request: " + requestId
    else if traceId != "" then "Trace: " + traceId
    else ""
  }

  function AccountIdOf(h: HeaderMap): string {
    var stage := Get(h, StageHeader);
    if stage != "" then "Stage: " + stage else ""
  }

  /** The gateway label, or the unauthenticated label when there is neither
      a Host, a security token nor an Authorization header. */
  function UserArnOf(h: HeaderMap): string {
    if GatewayOf(h) == "" && Get(h, SecurityTokenHeader) == "" && Get(h, Authorization) == "" then
      UnauthenticatedLabel
    else
      GatewayOf(h)
  }

  /** A security token is present and the gateway label names API B. */
  predicate Restricted(h: HeaderMap) {
    Get(h, SecurityTokenHeader) != "" && Contains(GatewayOf(h), "API B")
  }

  function UserIdOf(h: HeaderMap, info: RoleSession): string {
    var token := Get(h, SecurityTokenHeader);
    var auth := Get(h, Authorization);
    var role := info.role;
    if Restricted(h) then "Role: " + RestrictedRoleName
    else if token != "" then
      (if role != "" then "Role: " + role else "Token: " + Truncate(token, PreviewLength) + "...")
    else if auth != "" then "Auth: " + Truncate(auth, PreviewLength) + "..."
    else ""
  }

  function RoleNameOf(h: HeaderMap, info: RoleSession): string {
    if Restricted(h) then RestrictedRoleName
    else if Get(h, SecurityTokenHeader) != "" then info.role
    else ""
  }

  function SessionNameOf(h: HeaderMap, info: RoleSession): string {
    if Get(h, SecurityTokenHeader) != "" then info.session else ""
  }

  /** The caller descriptor for the role information `info`, each field
      given by the last assignment that `extractCallerInfo` makes to it. */
  function CallerInfoFrom(h: HeaderMap, info: RoleSession): CallerInfo {
    CallerInfo(
      userArn := UserArnOf(h),
      userId := UserIdOf(h, info),
      accountId := AccountIdOf(h),
      principalId := PrincipalIdOf(h),
      roleName := RoleNameOf(h, info),
      sessionName := SessionNameOf(h, info))
  }

  /** The result of `extractCallerInfo`. */
  function CallerInfoOf(h: HeaderMap, env: Option<string>): CallerInfo {
    CallerInfoFrom(h, RoleInfo(h, env))
  }

  // ---------------------------------------------------------------------
  // The Go code, step by step
  // ---------------------------------------------------------------------

  /** main.go `extractRoleInfo`. */
  method ExtractRoleInfo(h: HeaderMap, env: Option<string>) returns (roleName: string, sessionName: string)
    ensures RoleSession(roleName, sessionName) == RoleInfo(h, env)
  {
    roleName, sessionName := "", "";
    if env.Some? && env.value != "" {
      var awsRoleArn := env.value;
      if Contains(awsRoleArn, "role/") {
        var parts := Split(awsRoleArn, '/');
        if |parts| > 1 {
          roleName := parts[|parts| - 1];
          assert EnvRoleMatch(env) == Some(roleName);
          return;
        }
      }
    }
    assert EnvRoleMatch(env).None?;

    var headers := RoleHeaderNames;
    var i := 0;
    while i < |headers|
      invariant 0 <= i <= |headers|
      invariant roleName == "" && sessionName == ""
      invariant ScanHeaders(h, headers) == ScanHeaders(h, headers[i..])
    {
      var value := Get(h, headers[i]);
      assert ScanHeaders(h, headers[i..]) ==
        match HeaderMatch(value)
        case Some(m) => Some(m)
        case None => ScanHeaders(h, headers[i + 1..]);
      var found, role, session := MatchRoleHeader(value);
      if found {
        roleName, sessionName := role, session;
        return;
      }
      i := i + 1;
    }
    assert ScanHeaders(h, headers) == None by {
      assert headers[i..] == [];
    }

    var securityToken := Get(h, SecurityTokenHeader);
    if securityToken != "" {
      if HasPrefix(securityToken, StsTokenPrefix) {
        roleName := StsRoleName;
        if |securityToken| > 100 {
          sessionName := "session-" + securityToken[50..60];
        }
      }
    }
  }

  /** The body of the header loop of `extractRoleInfo`: whether the value
      of one scanned header makes the function return, and with which role
      and session. */
  method MatchRoleHeader(value: string) returns (found: bool, roleName: string, sessionName: string)
    ensures found <==> HeaderMatch(value).Some?
    ensures found ==> HeaderMatch(value) == Some(RoleSession(roleName, sessionName))
  {
    found, roleName, sessionName := false, "", "";
    if value != "" && |value| > 10 {
      if Contains(value, "assumed-role") {
        var parts := Split(value, '/');
        var j := 0;
        while j < |parts|
          invariant 0 <= j <= |parts|
          invariant FirstAssumedRole(parts, 0) == FirstAssumedRole(parts, j)
        {
          if parts[j] == "assumed-role" && j + 1 < |parts| {
            roleName := parts[j + 1];
            if j + 2 < |parts| {
              sessionName := parts[j + 2];
            }
            found := true;
            assert AssumedRoleMatch(value) == Some(RoleSession(roleName, sessionName));
            return;
          }
          j := j + 1;
        }
      }
      assert AssumedRoleMatch(value).None?;
      // Contains(value, "role/") already makes Index(value, "role/") >= 0,
      // so Go's second test `idx != -1` always holds here.
      if Contains(value, "role/") {
        var idx := Index(value, "role/");
        var remaining := value[idx + 5..];
        var endIdx := IndexAny(remaining, RoleDelimiters);
        if endIdx != -1 {
          roleName := remaining[..endIdx];
        } else {
          roleName := remaining;
        }
        found := true;
      }
    }
  }

  /** main.go `extractCallerInfo`: fills a fresh descriptor field by field,
      later assignments overriding earlier ones. */
  method ExtractCallerInfo(h: HeaderMap, env: Option<string>) returns (caller: CallerInfo)
    ensures caller == CallerInfoOf(h, env)
  {
    caller := CallerInfo("", "", "", "", "", "");

    var requestId := Get(h, RequestIdHeader);
    if requestId != "" {
      caller := caller.(principalId := "Request: " + requestId);
    }

    var traceId := Get(h, TraceIdHeader);
    if traceId != "" && caller.principalId == "" {
      caller := caller.(principalId := "Trace: " + traceId);
    }

    var stage := Get(h, StageHeader);
    if stage != "" {
      caller := caller.(accountId := "Stage: " + stage);
    }

    var host := Get(h, HostHeader);
    if host != "" {
      if Contains(host, "7pxbysogui") {
        caller := caller.(userArn := ApiALabel);
      } else if Contains(host, "cqst45pam7") {
        caller := caller.(userArn := ApiBLabel);
      } else if Contains(host, "vo9f4c6gj4") {
        caller := caller.(userArn := ApiCLabel);
      } else {
        var apiKey := Get(h, ApiKeyHeader);
        if apiKey != "" {
          caller := caller.(userArn := ApiCLabel);
        } else {
          caller := caller.(userArn := "API Gateway: " + host);
        }
      }
    }

    caller := AddCredentials(h, env, caller);
  }

  /** The second half of `extractCallerInfo`: what the security token, or
      else the Authorization header, adds to the descriptor that the
      request-id, trace-id, stage and Host steps built. */
  method AddCredentials(h: HeaderMap, env: Option<string>, caller0: CallerInfo) returns (caller: CallerInfo)
    requires caller0.userArn == GatewayOf(h)
    requires caller0.userId == "" && caller0.roleName == "" && caller0.sessionName == ""
    ensures caller == CallerInfoFrom(h, RoleInfo(h, env)).(accountId := caller0.accountId, principalId := caller0.principalId)
  {
    caller := caller0;
    var securityToken := Get(h, SecurityTokenHeader);
    if securityToken != "" {
      var roleName, sessionName := ExtractRoleInfo(h, env);
      if roleName != "" {
        caller := caller.(roleName := roleName, userId := "Role: " + roleName);
      } else {
        caller := caller.(userId := "Token: " + securityToken[..Min(|securityToken|, PreviewLength)] + "...");
      }
      if sessionName != "" {
        caller := caller.(sessionName := sessionName);
      }
      if Contains(caller.userArn, "API B") {
        caller := caller.(roleName := RestrictedRoleName, userId := "Role: " + RestrictedRoleName);
      }
    } else {
      var authHeader := Get(h, Authorization);
      if authHeader != "" {
        caller := caller.(userId := "Auth: " + authHeader[..Min(|authHeader|, PreviewLength)] + "...");
      } else if caller.userArn == "" {
        caller := caller.(userArn := UnauthenticatedLabel);
      }
    }
  }
}
