/**
 * The authentication filter: public path prefixes pass untouched; every
 * other request must carry a bearer token (section 2.1 of RFC 6750) whose
 * claims the verifier accepts. The forwarded request then carries the user
 * and organisation ids taken from the token, replacing whatever the client
 * sent. The token verifier is an input: one function per claim, each giving
 * the claim's UUID or the exception the verifier raises.
 */
module Authentication {
  import opened Wrappers
  import opened Text
  import opened Http
  import TenantContext

  /** What reading one claim from a token gives: the id, or a raised exception. */
  datatype Claim = Valid(id: UuidText) | SecurityViolation(message: string) | Invalid(message: string)

  /** Whether the path starts with any configured public prefix, trimmed. */
  predicate IsPublicEndpoint(endpoints: seq<string>, path: string)
  {
    endpoints != [] && (StartsWith(path, JavaTrim(endpoints[0])) || IsPublicEndpoint(endpoints[1..], path))
  }

  /** The bearer token: what follows "Bearer " in the Authorization header. */
  function ExtractToken(request: Request): (token: Option<string>)
    ensures token.Some? <==> request.Header(AUTHORIZATION).Some? && StartsWith(request.Header(AUTHORIZATION).value, "Bearer ")
    ensures token.Some? ==> "Bearer " + token.value == request.Header(AUTHORIZATION).value
  {
    var h := request.Header(AUTHORIZATION);
    if h.Some? && StartsWith(h.value, "Bearer ") then Some(h.value[7..]) else None
  }

  /** The filter's decision: the request to pass on, or the status to answer with. */
  datatype Decision = Pass(request: Request) | Deny(status: int)

  function Authenticate(endpoints: seq<string>, request: Request, userIdOf: string -> Claim, orgIdOf: string -> Claim): (d: Decision)
    ensures IsPublicEndpoint(endpoints, request.path) ==> d == Pass(request)
    ensures !IsPublicEndpoint(endpoints, request.path) && ExtractToken(request).None? ==> d == Deny(UNAUTHORIZED)
    ensures d.Deny? ==> d.status in {UNAUTHORIZED, FORBIDDEN}
    ensures (!IsPublicEndpoint(endpoints, request.path) && ExtractToken(request).Some?
             && userIdOf(ExtractToken(request).value).Valid? && orgIdOf(ExtractToken(request).value).Valid?) ==> d.Pass?
  {
    if IsPublicEndpoint(endpoints, request.path) then Pass(request)
    else
      var token := ExtractToken(request);
      if token.None? then Deny(UNAUTHORIZED)
      else
        var user := userIdOf(token.value);
        if user.SecurityViolation? then Deny(FORBIDDEN)
        else if user.Invalid? then Deny(UNAUTHORIZED)
        else
          var org := orgIdOf(token.value);
          if org.SecurityViolation? then Deny(FORBIDDEN)
          else if org.Invalid? then Deny(UNAUTHORIZED)
          else Pass(request.WithHeader(X_USER_ID, user.id).WithHeader(X_ORG_ID, org.id).WithHeader(X_AUTH_TOKEN, token.value))
  }

  /**
   * A request that passes a protected path carries exactly the token's user
   * and organisation ids and the token itself; what the client sent under
   * those names is gone, and the other headers are as the client sent them.
   */
  lemma PassedRequestCarriesClaims(endpoints: seq<string>, request: Request, userIdOf: string -> Claim, orgIdOf: string -> Claim)
    requires !IsPublicEndpoint(endpoints, request.path)
    requires Authenticate(endpoints, request, userIdOf, orgIdOf).Pass?
    ensures var token := ExtractToken(request).value;
      var r := Authenticate(endpoints, request, userIdOf, orgIdOf).request;
      userIdOf(token).Valid? && orgIdOf(token).Valid?
      && r.headers[X_USER_ID] == [userIdOf(token).id]
      && r.headers[X_ORG_ID] == [orgIdOf(token).id]
      && r.headers[X_AUTH_TOKEN] == [token]
      && r.path == request.path && r.remoteAddress == request.remoteAddress
      && forall n :: n !in {X_USER_ID, X_ORG_ID, X_AUTH_TOKEN} ==> r.Header(n) == request.Header(n)
  {
    var token := ExtractToken(request).value;
    var u, o := userIdOf(token), orgIdOf(token);
    var r1 := request.WithHeader(X_USER_ID, u.id);
    var r2 := r1.WithHeader(X_ORG_ID, o.id);
    var r3 := r2.WithHeader(X_AUTH_TOKEN, token);
    assert Authenticate(endpoints, request, userIdOf, orgIdOf) == Pass(r3);
    ClaimHeadersSet(request.headers, u.id, o.id, token);
  }

  /** Setting the three claim headers in turn leaves each with its one value and every other header as it was. */
  lemma ClaimHeadersSet(h: Headers, user: string, org: string, token: string)
    ensures var r := SetHeader(SetHeader(SetHeader(h, X_USER_ID, user), X_ORG_ID, org), X_AUTH_TOKEN, token);
      r[X_USER_ID] == [user] && r[X_ORG_ID] == [org] && r[X_AUTH_TOKEN] == [token]
      && forall n :: n !in {X_USER_ID, X_ORG_ID, X_AUTH_TOKEN} ==> GetFirst(r, n) == GetFirst(h, n)
  {
    var r := SetHeader(SetHeader(SetHeader(h, X_USER_ID, user), X_ORG_ID, org), X_AUTH_TOKEN, token);
    assert r == h[X_USER_ID := [user]][X_ORG_ID := [org]][X_AUTH_TOKEN := [token]];
  }

  /** A verifier failure of either kind never lets a protected request through, and a security failure is answered with 403. */
  lemma FailedVerificationDenies(endpoints: seq<string>, request: Request, userIdOf: string -> Claim, orgIdOf: string -> Claim)
    requires !IsPublicEndpoint(endpoints, request.path) && ExtractToken(request).Some?
    requires !userIdOf(ExtractToken(request).value).Valid? || !orgIdOf(ExtractToken(request).value).Valid?
    ensures var d := Authenticate(endpoints, request, userIdOf, orgIdOf);
      d.Deny?
      && (d.status == FORBIDDEN <==>
            userIdOf(ExtractToken(request).value).SecurityViolation?
            || (userIdOf(ExtractToken(request).value).Valid? && orgIdOf(ExtractToken(request).value).SecurityViolation?))
  {
  }

  /**
   * Authentication runs before the tenant filter, and a request it lets
   * through a protected path always carries a non-blank organisation id, so
   * the tenant filter never refuses it.
   */
  lemma AuthenticatedRequestHasTenant(endpoints: seq<string>, request: Request, userIdOf: string -> Claim, orgIdOf: string -> Claim)
    requires !IsPublicEndpoint(endpoints, request.path)
    requires Authenticate(endpoints, request, userIdOf, orgIdOf).Pass?
    ensures !TenantContext.OrgIdMissing(Authenticate(endpoints, request, userIdOf, orgIdOf).request)
  {
    var token := ExtractToken(request).value;
    PassedRequestCarriesClaims(endpoints, request, userIdOf, orgIdOf);
    UuidNotBlank(orgIdOf(token).id);
  }

  /** The filter applies the decision to the exchange. */
  method Filter(endpoints: seq<string>, ex: Exchange, userIdOf: string -> Claim, orgIdOf: string -> Claim) returns (next: Next)
    modifies ex
    ensures var d := Authenticate(endpoints, ex.request, userIdOf, orgIdOf);
      (d.Pass? ==> next == Forward(d.request) && unchanged(ex))
      && (d.Deny? ==> next == Completed && ex.status == Some(d.status) && ex.completed)
    ensures ex.responseHeaders == old(ex.responseHeaders) && ex.attributes == old(ex.attributes)
  {
    var d := Authenticate(endpoints, ex.request, userIdOf, orgIdOf);
    if d.Deny? {
      ex.Reject(d.status);
      return Completed;
    }
    return Forward(d.request);
  }
}
