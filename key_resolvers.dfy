/**
 * The rate limiter's key resolvers: by client address, by user (falling back
 * to the address), by organisation (falling back to the user), by path with
 * record ids collapsed, and a user-plus-path composite.
 */
module KeyResolvers {
  import opened Wrappers
  import opened Text
  import opened Http
  import opened RequestLogging
  import opened RequestDuration

  /** The present, non-blank value of a header. */
  predicate HasValue(request: Request, name: string)
  {
    request.Header(name).Some? && !IsJavaBlank(request.Header(name).value)
  }

  /**
   * `ip:` and the client address, found the same way as for the request log:
   * the first forwarded hop, else the remote address, else "unknown". A
   * forwarded-for header made only of commas raises.
   */
  function IpKey(request: Request): (key: Result<string>)
    ensures HasValue(request, X_FORWARDED_FOR) ==>
      var x := request.Header(X_FORWARDED_FOR).value;
      (key.Err? <==> forall k :: 0 <= k < |x| ==> x[k] == ',')
      && (key.Ok? ==> key.value == "ip:" + JavaTrim(Before(x, ',')))
    ensures !HasValue(request, X_FORWARDED_FOR) ==>
      key == Ok("ip:" + if request.remoteAddress.Some? then request.remoteAddress.value else "unknown")
  {
    match ClientIp(request)
    case Ok(ip) => Ok("ip:" + ip)
    case Err(e) => Err(e)
  }

  /** `user:` and the authenticated user's id, or the address key for an anonymous request. */
  function UserKey(request: Request): (key: Result<string>)
    ensures HasValue(request, X_USER_ID) ==> key == Ok("user:" + request.Header(X_USER_ID).value)
    ensures !HasValue(request, X_USER_ID) ==> key == IpKey(request)
  {
    if HasValue(request, X_USER_ID) then Ok("user:" + request.Header(X_USER_ID).value) else IpKey(request)
  }

  /** `org:` and the tenant's id, or the user key for a request without tenant context. */
  function OrgKey(request: Request): (key: Result<string>)
    ensures HasValue(request, X_ORG_ID) ==> key == Ok("org:" + request.Header(X_ORG_ID).value)
    ensures !HasValue(request, X_ORG_ID) ==> key == UserKey(request)
  {
    if HasValue(request, X_ORG_ID) then Ok("org:" + request.Header(X_ORG_ID).value) else UserKey(request)
  }

  /** The namespace of a key: 'o', 'u' or 'i' for tenant, user and address keys. */
  lemma OrgKeyNamespace(request: Request)
    ensures OrgKey(request).Ok? ==> |OrgKey(request).value| >= 3
    ensures OrgKey(request).Ok? ==>
      (OrgKey(request).value[0] == 'o' <==> HasValue(request, X_ORG_ID))
      && (OrgKey(request).value[0] == 'u' <==> !HasValue(request, X_ORG_ID) && HasValue(request, X_USER_ID))
      && (OrgKey(request).value[0] == 'i' <==> !HasValue(request, X_ORG_ID) && !HasValue(request, X_USER_ID))
  {
  }

  /** Two tenants never share a counter, and a tenant never shares one with a user or an address. */
  lemma OrgKeySeparatesTenants(r1: Request, r2: Request)
    requires OrgKey(r1).Ok? && OrgKey(r1) == OrgKey(r2)
    ensures HasValue(r1, X_ORG_ID) <==> HasValue(r2, X_ORG_ID)
    ensures HasValue(r1, X_ORG_ID) ==> r1.Header(X_ORG_ID) == r2.Header(X_ORG_ID)
  {
    OrgKeyNamespace(r1);
    OrgKeyNamespace(r2);
    if HasValue(r1, X_ORG_ID) {
      var k := OrgKey(r1).value;
      assert r1.Header(X_ORG_ID).value == k[4..] == r2.Header(X_ORG_ID).value;
    }
  }

  /**
   * The path key as written: numeric segments are collapsed before UUIDs. Every numeric segment is still
   * collapsed; what goes wrong is the UUIDs (`DigitLeadingUuidEscapesPathKey`).
   */
  function PathKeyAsWritten(request: Request): (key: string)
    ensures StartsWith(key, "path:") && NoSlashDigit(key[5..])
  {
    var collapsed := ReplaceNumericIds(request.path);
    ReplaceNumericIdsNoSlashDigit(request.path);
    assert NoSlashDigit("{uuid}") && !IsDigit('{');
    ReplaceUuidsNoSlashDigit(collapsed, "{uuid}");
    assert ("path:" + ReplaceUuids(collapsed, "{uuid}"))[5..] == ReplaceUuids(collapsed, "{uuid}");
    "path:" + ReplaceUuids(collapsed, "{uuid}")
  }

  /** The path key with UUIDs collapsed first, the order the duration metric uses. */
  function PathKey(request: Request): (key: string)
    ensures StartsWith(key, "path:") && NoSlashDigit(key[5..])
  {
    ReplaceNumericIdsNoSlashDigit(ReplaceUuids(request.path, "{uuid}"));
    assert ("path:" + ReplaceNumericIds(ReplaceUuids(request.path, "{uuid}")))[5..]
      == ReplaceNumericIds(ReplaceUuids(request.path, "{uuid}"));
    "path:" + ReplaceNumericIds(ReplaceUuids(request.path, "{uuid}"))
  }

  /** Every record under the same prefix shares one path key. */
  lemma PathKeyCollapsesUuid(request: Request, pre: string, u: UuidText)
    requires pre != [] && pre[|pre| - 1] == '/' && HasNoUuid(pre) && NoSlashDigit(pre)
    requires request.path == pre + u
    ensures PathKey(request) == "path:" + pre + "{uuid}"
  {
    UuidSegmentCollapsed(pre, u, "{uuid}");
    ReplaceNumericIdsIdentity(pre + "{uuid}");
  }

  /** Numeric ids collapse in the path key just as in the metric's path. */
  lemma PathKeyCollapsesNumericId(request: Request, pre: string, digits: string, post: string)
    requires HasNoUuid(request.path)
    requires NoSlashDigit(pre) && NoSlashDigit(post) && (post == [] || post[0] == '/')
    requires digits != [] && forall k :: 0 <= k < |digits| ==> IsDigit(digits[k])
    requires request.path == pre + "/" + digits + post
    ensures PathKey(request) == "path:" + pre + "/{id}" + post
  {
    var seg := "/" + digits + post;
    assert request.path == pre + seg;
    NoUuidKept(pre + seg, "{uuid}");
    ReplaceNumericIdsSplit(pre, seg);
    NumericSegment(digits, post);
    ReplaceNumericIdsIdentity(pre);
    ReplaceNumericIdsIdentity(post);
  }

  /** A UUID's text holds no '/'. */
  lemma UuidHasNoSlash(u: UuidText, n: nat)
    requires n <= 36
    ensures forall i :: 0 <= i < |u[n..]| ==> u[n..][i] != '/'
  {
    forall i | 0 <= i < |u[n..]| ensures u[n..][i] != '/' {
      assert u[n..][i] == u[n + i];
    }
  }

  /** Text without a '/' is left alone by the numeric-id pass. */
  lemma NoSlashUntouched(t: string)
    requires forall i :: 0 <= i < |t| ==> t[i] != '/'
    ensures ReplaceNumericIds(t) == t
  {
    ReplaceNumericIdsIdentity(t);
  }

  /** After a '/', a run of digits followed by slash-free text loses the digits to `{id}`. */
  lemma NumericPassAfterSlash(dir: string, digits: string, post: string)
    requires NoSlashDigit(dir)
    requires digits != [] && forall k :: 0 <= k < |digits| ==> IsDigit(digits[k])
    requires post != [] && !IsDigit(post[0]) && NoSlashDigit(post)
    ensures ReplaceNumericIds(dir + ("/" + digits + post)) == dir + ("/{id}" + post)
  {
    var seg := "/" + digits + post;
    ReplaceNumericIdsSplit(dir, seg);
    ReplaceNumericIdsIdentity(dir);
    NumericSegment(digits, post);
    ReplaceNumericIdsIdentity(post);
  }

  lemma PrefixNoSlashDigit(s: string)
    requires s != [] && NoSlashDigit(s)
    ensures NoSlashDigit(s[..|s| - 1])
  {
    var p := s[..|s| - 1];
    forall i | 0 <= i < |p| - 1 && p[i] == '/' ensures !IsDigit(p[i + 1]) {
      assert s[i] == '/';
    }
  }

  /** As written, the numeric-id pass takes the leading digits of a UUID that starts a segment. */
  lemma NumericPassSplitsUuid(pre: string, u: UuidText)
    requires pre != [] && pre[|pre| - 1] == '/' && NoSlashDigit(pre) && IsDigit(u[0])
    ensures DigitRun(u) <= 8
    ensures ReplaceNumericIds(pre + u) == pre + "{id}" + u[DigitRun(u)..]
  {
    var n := DigitRun(u);
    UuidDigitRunBound(u);
    var dir := pre[..|pre| - 1];
    PrefixNoSlashDigit(pre);
    UuidHasNoSlash(u, n);
    var digits, post := u[..n], u[n..];
    LeadingDigits(u, n);
    SplitAtSlash(pre, dir, u, n);
    NumericPassAfterSlash(dir, digits, post);
    JoinAtSlash(pre, dir, post);
  }

  /** The leading digits of a UUID stop at its first dash at the latest. */
  lemma UuidDigitRunBound(u: UuidText)
    ensures 0 < |u| && DigitRun(u) <= 8
  {
    assert u[8] == '-';
  }

  lemma LeadingDigits(s: string, n: nat)
    requires n == DigitRun(s)
    ensures forall k :: 0 <= k < |s[..n]| ==> IsDigit(s[..n][k])
    ensures n < |s| ==> !IsDigit(s[n..][0])
  {
    assert forall k :: 0 <= k < n ==> s[..n][k] == s[k];
  }

  /** A path ending in '/' followed by a UUID, cut at the end of the UUID's leading digits. */
  lemma SplitAtSlash(pre: string, dir: string, u: string, n: nat)
    requires pre != [] && pre[|pre| - 1] == '/' && dir == pre[..|pre| - 1] && n <= |u|
    ensures pre + u == dir + ("/" + u[..n] + u[n..])
  {
    assert pre == dir + "/";
    assert u == u[..n] + u[n..];
  }

  lemma JoinAtSlash(pre: string, dir: string, post: string)
    requires pre != [] && pre[|pre| - 1] == '/' && dir == pre[..|pre| - 1]
    ensures dir + ("/{id}" + post) == pre + "{id}" + post
  {
    assert pre == dir + "/";
  }

  /** What the numeric-id pass leaves of such a UUID no longer matches the UUID pattern. */
  lemma RemnantKeepsNoUuid(pre: string, post: string)
    requires pre != [] && pre[|pre| - 1] == '/' && HasNoUuid(pre) && |post| < 36
    ensures ReplaceUuids(pre + "{id}" + post, "{uuid}") == pre + "{id}" + post
  {
    assert pre + "{id}" + post == pre + ("{id}" + post);
    NoUuidAcross(pre, "{id}" + post);
    ReplaceUuidsPrefix(pre, "{id}" + post, "{uuid}");
    NoUuidAcross("{id}", post);
    ReplaceUuidsPrefix("{id}", post, "{uuid}");
    ShortTextKeepsUuids(post, "{uuid}");
  }

  /**
   * As written, a UUID whose first character is a digit loses its leading
   * digits to `{id}` before the UUID pattern runs, so the pattern no longer
   * matches and the rest of the UUID stays in the key: every such record gets
   * a key of its own.
   */
  lemma DigitLeadingUuidEscapesPathKey(request: Request, pre: string, u: UuidText)
    requires pre != [] && pre[|pre| - 1] == '/' && HasNoUuid(pre) && NoSlashDigit(pre)
    requires IsDigit(u[0]) && request.path == pre + u
    ensures PathKeyAsWritten(request) == "path:" + pre + "{id}" + u[DigitRun(u)..]
    ensures PathKeyAsWritten(request) != "path:" + pre + "{uuid}"
  {
    NumericPassSplitsUuid(pre, u);
    RemnantKeepsNoUuid(pre, u[DigitRun(u)..]);
  }

  const EXAMPLE_UUID := "123e4567-e89b-12d3-a456-426614174000"
  const CLIENTS_PREFIX := "/api/clients/"

  lemma ExampleUuidIsUuid()
    ensures IsUuidText(EXAMPLE_UUID)
  {
    var u := EXAMPLE_UUID;
    forall i | 0 <= i < 36
      ensures if i in {8, 13, 18, 23} then u[i] == '-' else IsLowerHex(u[i])
    {
      assert u[i] in "0123456789abcdef-";
    }
  }

  lemma ExampleUuidDigits()
    ensures DigitRun(EXAMPLE_UUID) == 3
  {
    assert EXAMPLE_UUID[1..][1..][1..][0] == 'e';
  }

  lemma ClientsPrefixIsPlain()
    ensures NoSlashDigit(CLIENTS_PREFIX) && HasNoUuid(CLIENTS_PREFIX)
  {
  }

  /** The concrete case: a client id whose UUID starts with "123". */
  lemma DigitLeadingUuidExample(request: Request)
    requires request.path == CLIENTS_PREFIX + EXAMPLE_UUID
    ensures PathKeyAsWritten(request) == "path:" + CLIENTS_PREFIX + "{id}" + EXAMPLE_UUID[3..]
    ensures PathKeyAsWritten(request) != "path:" + CLIENTS_PREFIX + "{uuid}"
  {
    ExampleUuidIsUuid();
    ExampleUuidDigits();
    ClientsPrefixIsPlain();
    DigitLeadingUuidEscapesPathKey(request, CLIENTS_PREFIX, EXAMPLE_UUID);
  }

  /** The composite key: the user's key, or the anonymous address when no user id header is present, joined to the raw path. */
  function CompositeKey(request: Request): (key: string)
    ensures request.Header(X_USER_ID).Some? ==> key == "user:" + request.Header(X_USER_ID).value + ":path:" + request.path
    ensures request.Header(X_USER_ID).None? ==> key == "ip:unknown:path:" + request.path
  {
    (if request.Header(X_USER_ID).Some? then "user:" + request.Header(X_USER_ID).value else "ip:unknown") + ":path:" + request.path
  }
}
