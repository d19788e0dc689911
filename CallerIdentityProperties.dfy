/** What the caller-identity inference of main.go promises, proved about
    the functions RoleInfo and CallerInfoOf that ExtractRoleInfo and
    ExtractCallerInfo are proved to compute. */
module CallerIdentityProperties {
  import opened Wrappers
  import opened GoStrings
  import opened Headers
  import opened CallerIdentity

  // ---------------------------------------------------------------------
  // Header names
  // ---------------------------------------------------------------------

  /** "X-API-Key", as main.go spells it, canonicalises to the key the
      model looks up. */
  lemma ApiKeyNameCanonical()
    ensures CanonicalKey(SpelledApiKey) == ApiKeyHeader
    ensures IsCanonical(ApiKeyHeader)
  {
    assert CanonicalOf(SpelledApiKey, ApiKeyHeader);
    CanonicalKeyOf(SpelledApiKey, ApiKeyHeader);
    CanonicalKeyIdempotent(SpelledApiKey);
  }

  // The seven names main.go spells in canonical form are looked up as
  // they are written.

  lemma AuthorizationCanonical()
    ensures IsCanonical(Authorization)
  {
    assert CanonicalOf(Authorization, Authorization);
    CanonicalKeyOf(Authorization, Authorization);
  }

  lemma AmzUserAgentCanonical()
    ensures IsCanonical(AmzUserAgent)
  {
    assert CanonicalOf(AmzUserAgent, AmzUserAgent);
    CanonicalKeyOf(AmzUserAgent, AmzUserAgent);
  }

  lemma SecurityTokenHeaderCanonical()
    ensures IsCanonical(SecurityTokenHeader)
  {
    assert CanonicalOf(SecurityTokenHeader, SecurityTokenHeader);
    CanonicalKeyOf(SecurityTokenHeader, SecurityTokenHeader);
  }

  lemma RequestIdHeaderCanonical()
    ensures IsCanonical(RequestIdHeader)
  {
    assert CanonicalOf(RequestIdHeader, RequestIdHeader);
    CanonicalKeyOf(RequestIdHeader, RequestIdHeader);
  }

  lemma TraceIdHeaderCanonical()
    ensures IsCanonical(TraceIdHeader)
  {
    assert CanonicalOf(TraceIdHeader, TraceIdHeader);
    CanonicalKeyOf(TraceIdHeader, TraceIdHeader);
  }

  lemma StageHeaderCanonical()
    ensures IsCanonical(StageHeader)
  {
    assert CanonicalOf(StageHeader, StageHeader);
    CanonicalKeyOf(StageHeader, StageHeader);
  }

  lemma HostHeaderCanonical()
    ensures IsCanonical(HostHeader)
  {
    assert CanonicalOf(HostHeader, HostHeader);
    CanonicalKeyOf(HostHeader, HostHeader);
  }

  /** The prefix of the four request-context names, as main.go spells it
      and in canonical form, where its second "C" is lower case. */
  const SpelledIdentityPrefix := "X-Amzn-RequestContext-Identity"
  const IdentityPrefix := "X-Amzn-Requestcontext-Identity"

  lemma RequestContextOf()
    ensures CanonicalOf("X-Amzn-RequestContext", "X-Amzn-Requestcontext")
  {
  }

  lemma IdentityPrefixOf()
    ensures CanonicalOf(SpelledIdentityPrefix, IdentityPrefix)
  {
    var spelled, canonical := "X-Amzn-RequestContext", "X-Amzn-Requestcontext";
    RequestContextOf();
    assert CanonicalOf("Identity", "Identity");
    CanonicalOfDashed(spelled, canonical, "Identity", "Identity");
    assert SpelledIdentityPrefix == spelled + "-" + "Identity";
    assert IdentityPrefix == canonical + "-" + "Identity";
  }

  // The four request-context names, as main.go spells them, canonicalise
  // to the names the model looks up, which are canonical.

  lemma IdentityArnCanonical()
    ensures CanonicalKey(SpelledIdentityArn) == IdentityArn
    ensures IsCanonical(IdentityArn)
  {
    IdentityPrefixOf();
    assert CanonicalOf("Arn", "Arn");
    CanonicalOfDashed(SpelledIdentityPrefix, IdentityPrefix, "Arn", "Arn");
    assert SpelledIdentityArn == SpelledIdentityPrefix + "-" + "Arn";
    assert IdentityArn == IdentityPrefix + "-" + "Arn";
    CanonicalKeyOf(SpelledIdentityArn, IdentityArn);
    CanonicalKeyIdempotent(SpelledIdentityArn);
  }

  lemma IdentityUserArnCanonical()
    ensures CanonicalKey(SpelledIdentityUserArn) == IdentityUserArn
    ensures IsCanonical(IdentityUserArn)
  {
    IdentityPrefixOf();
    assert CanonicalOf("UserArn", "Userarn");
    CanonicalOfDashed(SpelledIdentityPrefix, IdentityPrefix, "UserArn", "Userarn");
    assert SpelledIdentityUserArn == SpelledIdentityPrefix + "-" + "UserArn";
    assert IdentityUserArn == IdentityPrefix + "-" + "Userarn";
    CanonicalKeyOf(SpelledIdentityUserArn, IdentityUserArn);
    CanonicalKeyIdempotent(SpelledIdentityUserArn);
  }

  lemma IdentityUserCanonical()
    ensures CanonicalKey(SpelledIdentityUser) == IdentityUser
    ensures IsCanonical(IdentityUser)
  {
    IdentityPrefixOf();
    assert CanonicalOf("User", "User");
    CanonicalOfDashed(SpelledIdentityPrefix, IdentityPrefix, "User", "User");
    assert SpelledIdentityUser == SpelledIdentityPrefix + "-" + "User";
    assert IdentityUser == IdentityPrefix + "-" + "User";
    CanonicalKeyOf(SpelledIdentityUser, IdentityUser);
    CanonicalKeyIdempotent(SpelledIdentityUser);
  }

  lemma IdentityPrincipalIdCanonical()
    ensures CanonicalKey(SpelledIdentityPrincipalId) == IdentityPrincipalId
    ensures IsCanonical(IdentityPrincipalId)
  {
    IdentityPrefixOf();
    assert CanonicalOf("PrincipalId", "Principalid");
    CanonicalOfDashed(SpelledIdentityPrefix, IdentityPrefix, "PrincipalId", "Principalid");
    assert SpelledIdentityPrincipalId == SpelledIdentityPrefix + "-" + "PrincipalId";
    assert IdentityPrincipalId == IdentityPrefix + "-" + "Principalid";
    CanonicalKeyOf(SpelledIdentityPrincipalId, IdentityPrincipalId);
    CanonicalKeyIdempotent(SpelledIdentityPrincipalId);
  }

  // ---------------------------------------------------------------------
  // extractRoleInfo
  // ---------------------------------------------------------------------

  /** The header scan returns the match of the first header whose value
      matches, and nothing exactly when no value matches. */
  lemma {:induction false} ScanHeadersFirstMatch(h: HeaderMap, names: seq<string>)
    ensures ScanHeaders(h, names).None? <==>
      forall k :: 0 <= k < |names| ==> HeaderMatch(Get(h, names[k])).None?
    ensures ScanHeaders(h, names).Some? ==>
      exists k :: 0 <= k < |names| && ScanHeaders(h, names) == HeaderMatch(Get(h, names[k])) &&
        forall j :: 0 <= j < k ==> HeaderMatch(Get(h, names[j])).None?
    decreases |names|
  {
    if names != [] {
      ScanHeadersFirstMatch(h, names[1..]);
      if HeaderMatch(Get(h, names[0])).None? {
        assert forall k :: 1 <= k < |names| ==> names[k] == names[1..][k - 1];
        if ScanHeaders(h, names).Some? {
          var k :| 0 <= k < |names[1..]| && ScanHeaders(h, names[1..]) == HeaderMatch(Get(h, names[1..][k])) &&
            forall j :: 0 <= j < k ==> HeaderMatch(Get(h, names[1..][j])).None?;
          assert ScanHeaders(h, names) == HeaderMatch(Get(h, names[k + 1]));
        }
      } else {
        assert ScanHeaders(h, names) == HeaderMatch(Get(h, names[0]));
      }
    }
  }

  /** Values of ten bytes or fewer are skipped by the scan. */
  lemma ShortValuesSkipped(value: string)
    requires |value| <= 10
    ensures HeaderMatch(value) == None
  {
  }

  /** Segment `k` is the first at which AssumedRoleAt holds. */
  predicate FirstAssumedRoleAt(parts: seq<string>, k: int) {
    AssumedRoleAt(parts, k) && forall j :: 0 <= j < k ==> !AssumedRoleAt(parts, j)
  }

  /** `m` holds the one or two segments after the first "assumed-role"
      segment that has a successor. */
  ghost predicate SegmentsAfterFirst(parts: seq<string>, m: RoleSession) {
    exists k :: FirstAssumedRoleAt(parts, k) &&
      m.role == parts[k + 1] && m.session == (if k + 2 < |parts| then parts[k + 2] else "")
  }

  /** The assumed-role pattern: the role is the segment after the first
      whole segment "assumed-role" that has a successor, and the session the
      segment after that when there is one. */
  lemma AssumedRolePattern(value: string)
    requires Contains(value, "assumed-role")
    ensures AssumedRoleMatch(value).Some? ==> exists k :: AssumedRoleAt(Split(value, '/'), k)
    ensures (exists k :: AssumedRoleAt(Split(value, '/'), k)) ==> AssumedRoleMatch(value).Some?
    ensures AssumedRoleMatch(value).Some? ==> SegmentsAfterFirst(Split(value, '/'), AssumedRoleMatch(value).value)
  {
    var parts := Split(value, '/');
    var first := FirstAssumedRole(parts, 0);
    if first.Some? {
      var k: int := first.value;
      assert AssumedRoleAt(parts, k);
      assert AssumedRoleMatch(value) ==
        Some(RoleSession(parts[k + 1], if k + 2 < |parts| then parts[k + 2] else ""));
      assert FirstAssumedRoleAt(parts, k);
      assert SegmentsAfterFirst(parts, AssumedRoleMatch(value).value);
    } else {
      assert AssumedRoleMatch(value).None?;
      forall k ensures !AssumedRoleAt(parts, k) {
        if 0 <= k < |parts| {
          assert !AssumedRoleAt(parts, k);
        }
      }
    }
  }

  /** The role/ pattern applies exactly when "role/" occurs; the role is the
      field after the first "role/": the longest text there holding none of
      "/,; ". No session is set. */
  lemma RolePathPattern(value: string)
    ensures RolePathMatch(value).Some? <==> Contains(value, "role/")
    ensures RolePathMatch(value).Some? ==>
      RolePathMatch(value).value.session == "" &&
      FieldAt(value, Index(value, "role/") + 5, RolePathMatch(value).value.role, RoleDelimiters)
  {
    if Contains(value, "role/") {
      var start := Index(value, "role/") + 5;
      TextFrom(value, start, RoleDelimiters);
      assert RolePathMatch(value) == Some(RoleSession(UpToAny(value[start..], RoleDelimiters), ""));
    }
  }

  /** An ARN that contains "role/" has at least two "/"-segments. */
  lemma RoleArnHasSegments(arn: string)
    requires Contains(arn, "role/")
    ensures |Split(arn, '/')| > 1
  {
    var i :| OccursAt(arn, "role/", i);
    assert arn[i + 4] == '/';
    SplitAtSeparator(arn, '/', i + 4);
  }

  /** An execution-role ARN that contains "role/" yields its last
      "/"-segment, and a '/' precedes it. */
  lemma EnvArnLastSegment(arn: string)
    requires Contains(arn, "role/")
    ensures EnvRoleMatch(Some(arn)).Some?
    ensures var role := EnvRoleMatch(Some(arn)).value;
      '/' !in role && |role| < |arn| && arn[|arn| - |role| - 1] == '/' && arn[|arn| - |role|..] == role
  {
    RoleArnHasSegments(arn);
    SplitLastPart(arn, '/');
    var parts := Split(arn, '/');
    assert EnvRoleMatch(Some(arn)) == Some(parts[|parts| - 1]);
  }

  /** Such an ARN decides the result by itself: the role is its last
      "/"-segment, the session is empty, and no header is looked at. */
  lemma EnvArnRole(h: HeaderMap, h': HeaderMap, arn: string)
    requires Contains(arn, "role/")
    ensures RoleInfo(h, Some(arn)) == RoleInfo(h', Some(arn))
    ensures var role := RoleInfo(h, Some(arn)).role;
      RoleInfo(h, Some(arn)).session == "" &&
      '/' !in role && |role| < |arn| && arn[|arn| - |role| - 1] == '/' && arn[|arn| - |role|..] == role
  {
    EnvArnLastSegment(arn);
  }

  /** An ARN without "role/", an empty one or none at all leaves the result
      to the headers. */
  lemma EnvArnIgnored(h: HeaderMap, env: Option<string>)
    requires env.None? || !Contains(env.value, "role/")
    ensures RoleInfo(h, env) == RoleInfo(h, None)
  {
  }

  /** When neither the ARN nor any header matched, the security token
      decides: the STS sentinel role exactly for an "IQoJ" token, and a
      session of 18 bytes, "session-" and bytes 50 to 59 of the token,
      exactly when that token is longer than 100 bytes. */
  lemma StsFallbackRole(h: HeaderMap, env: Option<string>)
    requires EnvRoleMatch(env).None? && ScanHeaders(h, RoleHeaderNames).None?
    ensures var token := Get(h, SecurityTokenHeader);
      var info := RoleInfo(h, env);
      (info.role == StsRoleName <==> HasPrefix(token, StsTokenPrefix)) &&
      (info.role == "" <==> !HasPrefix(token, StsTokenPrefix)) &&
      (info.session != "" <==> HasPrefix(token, StsTokenPrefix) && |token| > 100) &&
      (info.session != "" ==>
        |info.session| == 18 && HasPrefix(info.session, "session-") && info.session[8..] == token[50..60])
  {
  }

  /** A value "<prefix>assumed-role/<role>/<session>" splits into three
      segments, the first of which is not "assumed-role". */
  lemma AssumedRoleArnSegments(prefix: string, role: string, session: string)
    requires prefix != "" && '/' !in prefix && '/' !in role && '/' !in session
    requires role != "assumed-role"
    ensures AssumedRoleMatch(prefix + "assumed-role/" + role + "/" + session).None?
  {
    var value := prefix + "assumed-role/" + role + "/" + session;
    var first := prefix + "assumed-role";
    var parts := [first, role, session];
    assert '/' !in first by {
      assert forall c :: c in first ==> c in prefix || c in "assumed-role";
    }
    assert value == Join(parts, '/') by {
      assert Join(parts, '/') == first + "/" + Join([role, session], '/');
      assert Join([role, session], '/') == role + "/" + session;
    }
    SplitOfJoin(parts, '/');
    assert |first| > |"assumed-role"|;
    assert FirstAssumedRole(parts, 0).None? by {
      assert !AssumedRoleAt(parts, 0);
      assert !AssumedRoleAt(parts, 1);
      assert !AssumedRoleAt(parts, 2);
    }
  }

  /** In such a value the first "role/" is the one inside "assumed-role/". */
  lemma AssumedRoleArnRoleIndex(prefix: string, rest: string)
    requires '/' !in prefix
    ensures Index(prefix + "assumed-role/" + rest, "role/") == |prefix| + 8
  {
    var value := prefix + "assumed-role/" + rest;
    var at := |prefix| + 8;
    assert value[at..at + 5] == "role/";
    assert OccursAt(value, "role/", at);
    forall j | 0 <= j < at ensures !OccursAt(value, "role/", j) {
      if j + 4 < |prefix| {
        assert value[j + 4] == prefix[j + 4];
      } else {
        assert value[j + 4] == "assumed-role"[j + 4 - |prefix|];
      }
      assert value[j + 4] != '/';
    }
  }

  /** For a real assumed-role ARN the segment before the role is
      "arn:aws:sts::<account>:assumed-role", not "assumed-role", so the
      assumed-role pattern does not apply; the role/ pattern then finds the
      role inside "assumed-role/<role>/..." and the session is lost. */
  lemma AssumedRoleArnLosesSession(prefix: string, role: string, session: string)
    requires prefix != "" && '/' !in prefix
    requires role != "assumed-role" && forall i :: 0 <= i < |role| ==> role[i] !in RoleDelimiters
    requires '/' !in session
    ensures HeaderMatch(prefix + "assumed-role/" + role + "/" + session) == Some(RoleSession(role, ""))
  {
    var value := prefix + "assumed-role/" + role + "/" + session;
    var tail := "/" + session;
    assert '/' !in role by {
      assert '/' in RoleDelimiters;
    }
    AssumedRoleArnSegments(prefix, role, session);
    assert value == prefix + "assumed-role/" + (role + tail);
    AssumedRoleArnRoleIndex(prefix, role + tail);
    var remaining := value[|prefix| + 13..];
    assert remaining == role + tail;
    IndexAnyAfterFree(role, tail, RoleDelimiters);
    assert remaining[..|role|] == role;
  }


  /** The ARN "arn:aws:sts::1:assumed-role/R/S" yields role "R" and no session. */
  lemma RealAssumedRoleArn()
    ensures HeaderMatch("arn:aws:sts::1:assumed-role/R/S") == Some(RoleSession("R", ""))
  {
    assert "arn:aws:sts::1:assumed-role/R/S" == "arn:aws:sts::1:" + "assumed-role/" + "R" + "/" + "S";
    AssumedRoleArnLosesSession("arn:aws:sts::1:", "R", "S");
  }

  // ---------------------------------------------------------------------
  // extractCallerInfo
  // ---------------------------------------------------------------------

  /** A request without headers is reported as unauthenticated, with every
      other field empty, whatever the execution-role ARN. */
  lemma NoHeadersUnauthenticated(env: Option<string>)
    ensures CallerInfoOf(map[], env) == CallerInfo(UnauthenticatedLabel, "", "", "", "", "")
  {
  }

  /** The principal id carries the request id when there is one, else the
      trace id, else nothing: it starts with "Request: " exactly when a
      request id is present. */
  lemma PrincipalIdPriority(h: HeaderMap, env: Option<string>)
    ensures var requestId := Get(h, RequestIdHeader);
      var traceId := Get(h, TraceIdHeader);
      var p := CallerInfoOf(h, env).principalId;
      (requestId != "" ==> p == "Request: " + requestId) &&
      (requestId == "" && traceId != "" ==> p == "Trace: " + traceId) &&
      (requestId == "" && traceId == "" ==> p == "") &&
      (HasPrefix(p, "Request: ") <==> requestId != "")
  {
    var p := CallerInfoOf(h, env).principalId;
    if Get(h, RequestIdHeader) == "" && Get(h, TraceIdHeader) != "" {
      assert p[0] == 'T';
    }
  }

  /** The stage header, when present, is reported in the account id field. */
  lemma StageInAccountId(h: HeaderMap, env: Option<string>)
    ensures Get(h, StageHeader) != "" ==> CallerInfoOf(h, env).accountId == "Stage: " + Get(h, StageHeader)
    ensures Get(h, StageHeader) == "" ==> CallerInfoOf(h, env).accountId == ""
  {
  }

  /** The gateway label follows the Host header: the three known id
      fragments in table order, then the API-key header, then the host
      itself; without Host the label is untouched (empty, or the
      unauthenticated label when there are no credentials either). */
  lemma GatewayFromHost(h: HeaderMap, env: Option<string>)
    ensures var host := Get(h, HostHeader);
      var arn := CallerInfoOf(h, env).userArn;
      (host != "" && Contains(host, "7pxbysogui") ==> arn == ApiALabel) &&
      (host != "" && !Contains(host, "7pxbysogui") && Contains(host, "cqst45pam7") ==> arn == ApiBLabel) &&
      ((host != "" && !Contains(host, "7pxbysogui") && !Contains(host, "cqst45pam7") &&
        Contains(host, "vo9f4c6gj4")) ==> arn == ApiCLabel) &&
      ((host != "" && !Contains(host, "7pxbysogui") && !Contains(host, "cqst45pam7") &&
        !Contains(host, "vo9f4c6gj4")) ==>
          arn == if Get(h, ApiKeyHeader) != "" then ApiCLabel else "API Gateway: " + host)
    ensures Get(h, HostHeader) == "" ==>
      CallerInfoOf(h, env).userArn ==
        if Get(h, SecurityTokenHeader) == "" && Get(h, Authorization) == "" then UnauthenticatedLabel else ""
  {
  }

  lemma ContainsAfterPrefix(p: string, s: string, sub: string)
    requires Contains(s, sub)
    ensures Contains(p + s, sub)
  {
    var i :| OccursAt(s, sub, i);
    assert (p + s)[|p| + i..|p| + i + |sub|] == s[i..i + |sub|];
    assert OccursAt(p + s, sub, |p| + i);
  }

  /** With a security token, a label naming API B replaces the role by the
      restricted role, whatever extractRoleInfo found and whatever the
      ARN; without that label the role is extractRoleInfo's. */
  lemma RestrictedRoleOverride(h: HeaderMap, env: Option<string>, env': Option<string>)
    requires Get(h, SecurityTokenHeader) != ""
    ensures var c := CallerInfoOf(h, env);
      Contains(c.userArn, "API B") ==>
        c.roleName == RestrictedRoleName && c.userId == "Role: " + RestrictedRoleName &&
        c.roleName == CallerInfoOf(h, env').roleName && c.userId == CallerInfoOf(h, env').userId
    ensures var c := CallerInfoOf(h, env);
      !Contains(c.userArn, "API B") ==> c.roleName == RoleInfo(h, env).role
  {
  }

  /** The override keys on the label text, so an unknown host whose name
      itself contains "API B" also gets the restricted role. */
  lemma RestrictedRoleForHostNamingApiB(h: HeaderMap, env: Option<string>)
    requires Get(h, SecurityTokenHeader) != "" && Get(h, ApiKeyHeader) == ""
    requires var host := Get(h, HostHeader);
      Contains(host, "API B") &&
      !Contains(host, "7pxbysogui") && !Contains(host, "cqst45pam7") && !Contains(host, "vo9f4c6gj4")
    ensures CallerInfoOf(h, env).roleName == RestrictedRoleName
  {
    ContainsAfterPrefix("API Gateway: ", Get(h, HostHeader), "API B");
  }

  /** A host of the restricted gateway with a security token always reports
      the restricted role. */
  lemma RestrictedGatewayScenario(h: HeaderMap, env: Option<string>)
    requires Get(h, SecurityTokenHeader) != ""
    requires Contains(Get(h, HostHeader), "cqst45pam7") && !Contains(Get(h, HostHeader), "7pxbysogui")
    ensures Contains(CallerInfoOf(h, env).userArn, "API B")
    ensures CallerInfoOf(h, env).roleName == RestrictedRoleName
  {
    assert OccursAt(ApiBLabel, "API B", 0);
  }

  /** A preview: `tag`, then a prefix of `secret` of min(len, 20) bytes,
      then "...". */
  predicate IsPreview(id: string, tag: string, secret: string) {
    |id| >= |tag| + 3 &&
    HasPrefix(id, tag) && id[|id| - 3..] == "..." &&
    HasPrefix(secret, id[|tag|..|id| - 3]) &&
    |id| - |tag| - 3 == Min(|secret|, PreviewLength)
  }

  /** Without a security token, an Authorization header is reported as a
      preview of at most 20 bytes of its value. */
  lemma AuthorizationPreview(h: HeaderMap, env: Option<string>)
    requires Get(h, SecurityTokenHeader) == "" && Get(h, Authorization) != ""
    ensures IsPreview(CallerInfoOf(h, env).userId, "Auth: ", Get(h, Authorization))
  {
    var auth := Get(h, Authorization);
    var id := CallerInfoOf(h, env).userId;
    var p := Truncate(auth, PreviewLength);
    assert id == "Auth: " + p + "...";
    assert id[6..|id| - 3] == p;
  }

  /** With a security token and no role found (and no API B label), the
      user id is a preview of at most 20 bytes of the token. */
  lemma TokenPreview(h: HeaderMap, env: Option<string>)
    requires Get(h, SecurityTokenHeader) != "" && RoleInfo(h, env).role == ""
    requires !Contains(CallerInfoOf(h, env).userArn, "API B")
    ensures IsPreview(CallerInfoOf(h, env).userId, "Token: ", Get(h, SecurityTokenHeader))
    ensures CallerInfoOf(h, env).roleName == ""
  {
    var token := Get(h, SecurityTokenHeader);
    var id := CallerInfoOf(h, env).userId;
    var p := Truncate(token, PreviewLength);
    assert id == "Token: " + p + "...";
    assert id[7..|id| - 3] == p;
  }

  /** With a security token, the session is the one extractRoleInfo found. */
  lemma SessionFromRoleInfo(h: HeaderMap, env: Option<string>)
    ensures CallerInfoOf(h, env).sessionName ==
      if Get(h, SecurityTokenHeader) != "" then RoleInfo(h, env).session else ""
  {
  }
}
