/**
 * The parts of a gateway exchange the filters read and write: request
 * headers, path and remote address; response status, response headers and
 * the exchange attributes. Requests are values (a filter that changes one
 * builds a mutated copy); the response side of the exchange is updated in
 * place, so it lives in a class.
 */
module Http {
  import opened Wrappers
  import opened Text

  /**
   * A header name in the form a header map keeps it: its own lower-case form.
   * Header names are compared without regard to case, so "Authorization" is
   * kept under "authorization", "X-User-Id" under "x-user-id", and so on.
   */
  type HeaderName = s: string | NoCapital(s) witness ""

  /**
   * A multi-valued header map: each name carries its values in order, and
   * every entry is kept under its name's lower-case form, so that no two
   * spellings of one name can sit side by side.
   */
  type Headers = h: map<string, seq<string>> | forall k :: k in h ==> NoCapital(k) witness map[]

  /** A name with no ASCII capital letter, which is exactly a name that is its own key (`KeptUnderItself`). */
  predicate NoCapital(s: string)
  {
    forall i :: 0 <= i < |s| ==> !IsUpper(s[i])
  }

  const UNAUTHORIZED := 401
  const FORBIDDEN := 403
  const TOO_MANY_REQUESTS := 429

  const AUTHORIZATION: HeaderName := "authorization"
  const X_USER_ID: HeaderName := "x-user-id"
  const X_ORG_ID: HeaderName := "x-org-id"
  const X_AUTH_TOKEN: HeaderName := "x-auth-token"
  const X_FORWARDED_FOR: HeaderName := "x-forwarded-for"

  /** The key a header name is kept under: the name with its ASCII letters lower-cased. */
  function HeaderKey(name: string): string
  {
    if name == [] then [] else [LowerChar(name[0])] + HeaderKey(name[1..])
  }

  /** A name is kept under itself exactly when it has no capital letter. */
  lemma {:induction false} KeptUnderItself(name: string)
    ensures HeaderKey(name) == name <==> NoCapital(name)
  {
    if name != [] {
      KeptUnderItself(name[1..]);
      assert name == [name[0]] + name[1..];
      if HeaderKey(name) == name {
        assert HeaderKey(name)[1..] == HeaderKey(name[1..]);
      }
    }
  }

  /** The key of any name has no capital letter, so it can always be stored. */
  lemma {:induction false} KeyHasNoCapital(name: string)
    ensures |HeaderKey(name)| == |name| && NoCapital(HeaderKey(name))
  {
    if name != [] {
      KeyHasNoCapital(name[1..]);
      assert HeaderKey(name)[1..] == HeaderKey(name[1..]);
    }
  }

  /** Two spellings of a name that differ only in the case of their letters are kept under the same key. */
  lemma {:induction false} KeyIgnoresCase(a: string, b: string)
    requires |a| == |b| && forall k :: 0 <= k < |a| ==> LowerChar(a[k]) == LowerChar(b[k])
    ensures HeaderKey(a) == HeaderKey(b)
  {
    if a != [] {
      KeyIgnoresCase(a[1..], b[1..]);
    }
  }

  /** `HttpHeaders.getFirst`: the first value under the header whose key is `key`, if any. */
  function GetFirst(h: Headers, key: string): (r: Option<string>)
    ensures r.Some? <==> key in h && h[key] != []
    ensures r.Some? ==> r.value == h[key][0]
  {
    if key in h && h[key] != [] then Some(h[key][0]) else None
  }

  /** `HttpHeaders.add`: appends a value after those already under `key`. */
  function AddHeader(h: Headers, key: HeaderName, value: string): (r: Headers)
    ensures r.Keys == h.Keys + {key}
    ensures r[key] == (if key in h then h[key] else []) + [value]
    ensures forall n :: n in h && n != key ==> r[n] == h[n]
  {
    h[key := (if key in h then h[key] else []) + [value]]
  }

  /** Appends each (key, value) pair in order. */
  function AddAll(h: Headers, pairs: seq<(HeaderName, string)>): Headers
    decreases |pairs|
  {
    if pairs == [] then h else AddAll(AddHeader(h, pairs[0].0, pairs[0].1), pairs[1..])
  }

  /** `ServerHttpRequest.Builder.header`: replaces every value under `key` by `value`. */
  function SetHeader(h: Headers, key: HeaderName, value: string): (r: Headers)
    ensures GetFirst(r, key) == Some(value) && r[key] == [value]
    ensures forall n :: n != key ==> GetFirst(r, n) == GetFirst(h, n)
  {
    h[key := [value]]
  }

  datatype Request = Request(httpMethod: string, path: string, headers: Headers, remoteAddress: Option<string>)
  {
    function Header(name: string): Option<string> { GetFirst(headers, name) }

    function WithHeader(name: HeaderName, value: string): Request
    {
      this.(headers := SetHeader(headers, name, value))
    }
  }

  /** What a filter hands on: the request it passes down the chain, a completed response, or an exception it raises. */
  datatype Next = Forward(request: Request) | Completed | Raised(error: string)

  /** The mutable side of a `ServerWebExchange`. */
  class Exchange {
    const request: Request
    var status: Option<int>
    var responseHeaders: Headers
    var completed: bool
    var attributes: map<string, int>

    constructor (request: Request)
      ensures this.request == request
      ensures status == None && responseHeaders == map[] && !completed && attributes == map[]
    {
      this.request := request;
      status := None;
      responseHeaders := map[];
      completed := false;
      attributes := map[];
    }

    /** Sets the status and completes the response, as `setStatusCode` then `setComplete` do. */
    method Reject(code: int)
      modifies this
      ensures status == Some(code) && completed
      ensures responseHeaders == old(responseHeaders) && attributes == old(attributes)
    {
      status := Some(code);
      completed := true;
    }
  }
}
