/**
 * The request-duration filter: it stores the start instant, adds an
 * X-Response-Time header just before the response is committed, and when the
 * exchange finishes records a timer tagged with the method, a simplified
 * path and the status. Path simplification collapses lowercase UUIDs
 * (section 4 of RFC 9562) and then numeric segments into `{id}`, so that
 * requests for different records share one metric.
 */
module RequestDuration {
  import opened Wrappers
  import opened Text
  import opened Http

  const REQUEST_START_INSTANT_ATTR := "request_start_instant"
  const RESPONSE_TIME_HEADER: HeaderName := "x-response-time"

  /** A UUID's text starts at index `i` of `s`. */
  predicate UuidAt(s: string, i: int)
  {
    0 <= i && i + 36 <= |s| && IsUuidText(s[i..i + 36])
  }

  predicate HasNoUuid(s: string)
  {
    forall i :: 0 <= i < |s| ==> !UuidAt(s, i)
  }

  /** `replaceAll` of the UUID pattern: scanning from the left, each UUID found becomes `repl`. */
  function ReplaceUuids(s: string, repl: string): string
    decreases |s|
  {
    if |s| >= 36 && IsUuidText(s[..36]) then repl + ReplaceUuids(s[36..], repl)
    else if s == [] then [] else [s[0]] + ReplaceUuids(s[1..], repl)
  }

  /** The length of the run of digits `s` starts with. */
  function DigitRun(s: string): (n: nat)
    ensures n <= |s|
    ensures forall k :: 0 <= k < n ==> IsDigit(s[k])
    ensures n < |s| ==> !IsDigit(s[n])
  {
    if s != [] && IsDigit(s[0]) then 1 + DigitRun(s[1..]) else 0
  }

  /** No '/' is immediately followed by a digit. */
  predicate NoSlashDigit(s: string)
  {
    forall i :: 0 <= i < |s| - 1 && s[i] == '/' ==> !IsDigit(s[i + 1])
  }

  /** `replaceAll("/\\d+", "/{id}")`: a slash and the whole run of digits after it become `/{id}`. */
  function ReplaceNumericIds(s: string): (r: string)
    ensures s == [] <==> r == []
    ensures s != [] ==> (IsDigit(r[0]) <==> IsDigit(s[0]))
    decreases |s|
  {
    if |s| >= 2 && s[0] == '/' && IsDigit(s[1]) then
      var n := DigitRun(s[1..]);
      "/{id}" + ReplaceNumericIds(s[1 + n..])
    else if s == [] then []
    else [s[0]] + ReplaceNumericIds(s[1..])
  }

  /** The path the metric is tagged with. */
  function SimplifyPath(path: string): string
  {
    ReplaceNumericIds(ReplaceUuids(path, "{id}"))
  }

  /** After the numeric-id pass no '/' is followed by a digit. */
  lemma {:induction false} ReplaceNumericIdsNoSlashDigit(s: string)
    ensures NoSlashDigit(ReplaceNumericIds(s))
    decreases |s|
  {
    if |s| >= 2 && s[0] == '/' && IsDigit(s[1]) {
      var n := DigitRun(s[1..]);
      var rest := ReplaceNumericIds(s[1 + n..]);
      DigitStep(s);
      ReplaceNumericIdsNoSlashDigit(s[1 + n..]);
      assert NoSlashDigit("/{id}") by { assert !IsDigit('{'); }
      PrefixKeepsNoSlashDigit("/{id}", rest);
    } else if s != [] {
      var rest := ReplaceNumericIds(s[1..]);
      PlainStep(s);
      ReplaceNumericIdsNoSlashDigit(s[1..]);
      assert rest != [] ==> (IsDigit(rest[0]) <==> IsDigit(s[1]));
      PrefixKeepsNoSlashDigit([s[0]], rest);
    }
  }

  /** Joining two texts with no slash before a digit keeps the property unless the join puts a digit after a slash. */
  lemma PrefixKeepsNoSlashDigit(p: string, rest: string)
    requires p != [] && NoSlashDigit(p) && NoSlashDigit(rest)
    requires rest != [] && p[|p| - 1] == '/' ==> !IsDigit(rest[0])
    ensures NoSlashDigit(p + rest)
  {
    var s := p + rest;
    forall i | 0 <= i < |s| - 1 && s[i] == '/'
      ensures !IsDigit(s[i + 1])
    {
      if i >= |p| {
        assert s[i] == rest[i - |p|] && s[i + 1] == rest[i + 1 - |p|];
      } else if i == |p| - 1 {
        assert s[i] == p[|p| - 1] && s[i + 1] == rest[0];
      } else {
        assert s[i] == p[i] && s[i + 1] == p[i + 1];
      }
    }
  }

  /** A suffix of a text with no slash before a digit has none either. */
  lemma SuffixKeepsNoSlashDigit(s: string, n: nat)
    requires n <= |s| && NoSlashDigit(s)
    ensures NoSlashDigit(s[n..])
  {
    var t := s[n..];
    forall i | 0 <= i < |t| - 1 && t[i] == '/'
      ensures !IsDigit(t[i + 1])
    {
      assert t[i] == s[i + n] && t[i + 1] == s[i + 1 + n];
    }
  }

  /**
   * The UUID pass never puts a digit after a slash when its replacement neither starts with a digit nor
   * ends with a slash: each slash is followed by what followed it before, or by the replacement.
   */
  lemma {:induction false} ReplaceUuidsNoSlashDigit(s: string, repl: string)
    requires NoSlashDigit(s) && repl != [] && NoSlashDigit(repl) && !IsDigit(repl[0]) && repl[|repl| - 1] != '/'
    ensures NoSlashDigit(ReplaceUuids(s, repl))
    ensures s != [] ==> ReplaceUuids(s, repl) != [] && (IsDigit(ReplaceUuids(s, repl)[0]) ==> IsDigit(s[0]))
    decreases |s|
  {
    if |s| >= 36 && IsUuidText(s[..36]) {
      SuffixKeepsNoSlashDigit(s, 36);
      ReplaceUuidsNoSlashDigit(s[36..], repl);
      PrefixKeepsNoSlashDigit(repl, ReplaceUuids(s[36..], repl));
    } else if s != [] {
      SuffixKeepsNoSlashDigit(s, 1);
      ReplaceUuidsNoSlashDigit(s[1..], repl);
      var rest := ReplaceUuids(s[1..], repl);
      assert s[0] == '/' && rest != [] ==> !IsDigit(s[1]) && s[1..][0] == s[1];
      PrefixKeepsNoSlashDigit([s[0]], rest);
      assert ReplaceUuids(s, repl) == [s[0]] + rest;
    }
  }

  /** After simplification no segment starts with a digit. */
  lemma SimplifiedHasNoNumericSegment(path: string)
    ensures NoSlashDigit(SimplifyPath(path))
  {
    ReplaceNumericIdsNoSlashDigit(ReplaceUuids(path, "{id}"));
  }

  /** Text with no slash before a digit is left alone, so replacing numeric ids twice is replacing them once. */
  lemma {:induction false} ReplaceNumericIdsIdentity(s: string)
    requires NoSlashDigit(s)
    ensures ReplaceNumericIds(s) == s
    decreases |s|
  {
    if s != [] {
      assert NoSlashDigit(s[1..]) by {
        forall i | 0 <= i < |s[1..]| - 1 && s[1..][i] == '/' ensures !IsDigit(s[1..][i + 1]) {
          assert s[i + 1] == '/';
        }
      }
      ReplaceNumericIdsIdentity(s[1..]);
    }
  }

  lemma ReplaceNumericIdsIdempotent(s: string)
    ensures ReplaceNumericIds(ReplaceNumericIds(s)) == ReplaceNumericIds(s)
  {
    ReplaceNumericIdsNoSlashDigit(s);
    ReplaceNumericIdsIdentity(ReplaceNumericIds(s));
  }

  /** Text with no UUID in it is left alone by the UUID replacement. */
  lemma {:induction false} ReplaceUuidsPrefix(a: string, rest: string, repl: string)
    requires forall i :: 0 <= i < |a| ==> !UuidAt(a + rest, i)
    ensures ReplaceUuids(a + rest, repl) == a + ReplaceUuids(rest, repl)
    decreases |a|
  {
    if a != [] {
      var s := a + rest;
      assert !UuidAt(s, 0);
      assert |s| >= 36 ==> !IsUuidText(s[..36]) by {
        if |s| >= 36 {
          assert s[0..36] == s[..36];
        }
      }
      assert ReplaceUuids(s, repl) == [s[0]] + ReplaceUuids(s[1..], repl);
      assert s[1..] == a[1..] + rest;
      forall i | 0 <= i < |a[1..]| ensures !UuidAt(a[1..] + rest, i) {
        assert !UuidAt(s, i + 1);
        if i + 36 <= |s| - 1 {
          assert s[1..][i..i + 36] == s[i + 1..i + 1 + 36];
        }
      }
      ReplaceUuidsPrefix(a[1..], rest, repl);
      calc {
        ReplaceUuids(s, repl);
        [s[0]] + ReplaceUuids(s[1..], repl);
        [a[0]] + (a[1..] + ReplaceUuids(rest, repl));
        { assert a == [a[0]] + a[1..]; }
        a + ReplaceUuids(rest, repl);
      }
    } else {
      assert a + rest == rest;
    }
  }

  /** A character that cannot occur in a UUID's text. */
  predicate NotUuidChar(c: char) { c != '-' && !IsLowerHex(c) }

  /** No UUID can straddle a character that cannot occur in one, such as the '/' that ends a path prefix. */
  lemma NoUuidAcross(a: string, rest: string)
    requires a != [] && NotUuidChar(a[|a| - 1]) && HasNoUuid(a)
    ensures forall i :: 0 <= i < |a| ==> !UuidAt(a + rest, i)
  {
    var s := a + rest;
    forall i | 0 <= i < |a| ensures !UuidAt(s, i) {
      if i + 36 <= |a| {
        assert s[i..i + 36] == a[i..i + 36];
        assert !UuidAt(a, i);
      } else if i + 36 <= |s| {
        var k := |a| - 1 - i;
        assert s[i..i + 36][k] == a[|a| - 1];
      }
    }
  }

  /** A UUID that forms the last segment of a path is collapsed to `repl`, whatever its first character. */
  lemma UuidSegmentCollapsed(pre: string, u: UuidText, repl: string)
    requires pre != [] && pre[|pre| - 1] == '/' && HasNoUuid(pre)
    ensures ReplaceUuids(pre + u, repl) == pre + repl
  {
    NoUuidAcross(pre, u);
    ReplaceUuidsPrefix(pre, u, repl);
    assert u[..36] == u && u[36..] == [];
  }

  /** `simplifyPath` turns every path that ends in a UUID segment into the same key. */
  lemma SimplifyCollapsesUuid(pre: string, u: UuidText)
    requires pre != [] && pre[|pre| - 1] == '/' && HasNoUuid(pre) && NoSlashDigit(pre)
    ensures SimplifyPath(pre + u) == pre + "{id}"
  {
    UuidSegmentCollapsed(pre, u, "{id}");
    ReplaceNumericIdsIdentity(pre + "{id}");
  }

  lemma {:induction false} DigitRunStops(a: string, b: string)
    requires b != [] && !IsDigit(b[0])
    ensures DigitRun(a + b) == DigitRun(a)
    decreases |a|
  {
    if a != [] && IsDigit(a[0]) {
      assert (a + b)[1..] == a[1..] + b;
      DigitRunStops(a[1..], b);
    }
  }

  /** Numeric ids are replaced segment by segment: a piece that starts with '/' is rewritten on its own. */
  lemma {:induction false} ReplaceNumericIdsSplit(a: string, b: string)
    requires b != [] && b[0] == '/'
    ensures ReplaceNumericIds(a + b) == ReplaceNumericIds(a) + ReplaceNumericIds(b)
    decreases |a|
  {
    var s := a + b;
    if a == [] {
      assert s == b;
    } else if |a| >= 2 && a[0] == '/' && IsDigit(a[1]) {
      var n := DigitRun(a[1..]);
      SplitAfterDigits(a, b, n);
      DigitStep(a);
      ReplaceNumericIdsSplit(a[1 + n..], b);
      Regroup("/{id}", ReplaceNumericIds(a[1 + n..]), ReplaceNumericIds(b));
    } else {
      SplitAfterPlain(a, b);
      PlainStep(a);
      ReplaceNumericIdsSplit(a[1..], b);
      Regroup([a[0]], ReplaceNumericIds(a[1..]), ReplaceNumericIds(b));
    }
  }

  /** The numeric-id step on `a + b` when `a` starts with a slash and digits: the run stays inside `a`. */
  lemma SplitAfterDigits(a: string, b: string, n: nat)
    requires b != [] && b[0] == '/'
    requires |a| >= 2 && a[0] == '/' && IsDigit(a[1]) && n == DigitRun(a[1..])
    ensures 1 + n <= |a|
    ensures ReplaceNumericIds(a + b) == "/{id}" + ReplaceNumericIds(a[1 + n..] + b)
  {
    var s := a + b;
    assert s[1..] == a[1..] + b;
    DigitRunStops(a[1..], b);
    assert s[1 + n..] == a[1 + n..] + b;
  }

  /** The numeric-id step on `a + b` when `a` does not start with a slash and a digit. */
  lemma SplitAfterPlain(a: string, b: string)
    requires b != [] && b[0] == '/' && a != []
    requires !(|a| >= 2 && a[0] == '/' && IsDigit(a[1]))
    ensures ReplaceNumericIds(a + b) == [a[0]] + ReplaceNumericIds(a[1..] + b)
  {
    var s := a + b;
    assert s[0] == a[0];
    if |a| >= 2 {
      assert s[1] == a[1];
    } else {
      assert s[1] == b[0];
    }
    PlainStep(s);
    assert s[1..] == a[1..] + b;
  }

  lemma Regroup(x: string, y: string, z: string)
    ensures x + (y + z) == (x + y) + z
  {
  }

  /** A slash and the digits after it become `/{id}`. */
  lemma DigitStep(s: string)
    requires |s| >= 2 && s[0] == '/' && IsDigit(s[1])
    ensures ReplaceNumericIds(s) == "/{id}" + ReplaceNumericIds(s[1 + DigitRun(s[1..])..])
  {
  }

  /** Text that does not start with a slash and a digit keeps its first character. */
  lemma PlainStep(s: string)
    requires s != [] && !(|s| >= 2 && s[0] == '/' && IsDigit(s[1]))
    ensures ReplaceNumericIds(s) == [s[0]] + ReplaceNumericIds(s[1..])
  {
  }

  /** Text too short to hold a UUID is left alone by the UUID replacement. */
  lemma ShortTextKeepsUuids(s: string, repl: string)
    requires |s| < 36
    ensures ReplaceUuids(s, repl) == s
  {
    ReplaceUuidsPrefix(s, [], repl);
    assert s + [] == s;
  }

  /** A text holding no UUID passes the UUID pass unchanged. */
  lemma {:induction false} NoUuidKept(s: string, repl: string)
    requires HasNoUuid(s)
    ensures ReplaceUuids(s, repl) == s
    decreases |s|
  {
    if s != [] {
      assert !UuidAt(s, 0);
      forall i | 0 <= i < |s[1..]|
        ensures !UuidAt(s[1..], i)
      {
        assert !UuidAt(s, i + 1);
        if i + 36 <= |s[1..]| {
          assert s[1..][i..i + 36] == s[i + 1..i + 37];
        }
      }
      NoUuidKept(s[1..], repl);
      assert [s[0]] + s[1..] == s;
    }
  }

  /** A text shorter than a UUID holds none. */
  lemma ShortHasNoUuid(s: string)
    requires |s| < 36
    ensures HasNoUuid(s)
  {
  }

  /** A slash and a run of digits become `/{id}`, and the text after the run is rewritten on its own. */
  lemma NumericSegment(digits: string, post: string)
    requires digits != [] && forall k :: 0 <= k < |digits| ==> IsDigit(digits[k])
    requires post == [] || !IsDigit(post[0])
    ensures ReplaceNumericIds("/" + digits + post) == "/{id}" + ReplaceNumericIds(post)
  {
    var s := "/" + digits + post;
    assert s[1..] == digits + post;
    if post == [] {
      assert digits + post == digits;
      assert DigitRun(digits) == |digits|;
    } else {
      DigitRunStops(digits, post);
      assert DigitRun(digits) == |digits|;
    }
    assert s[1 + |digits|..] == post;
  }

  /** A segment of digits between `pre` and `post` becomes `{id}` and nothing else changes. */
  lemma NumericSegmentCollapsed(pre: string, digits: string, post: string)
    requires HasNoUuid(pre + "/" + digits + post)
    requires NoSlashDigit(pre) && NoSlashDigit(post) && (post == [] || post[0] == '/')
    requires digits != [] && forall k :: 0 <= k < |digits| ==> IsDigit(digits[k])
    ensures SimplifyPath(pre + "/" + digits + post) == pre + "/{id}" + post
  {
    var seg := "/" + digits + post;
    assert pre + "/" + digits + post == pre + seg;
    NoUuidKept(pre + seg, "{id}");
    ReplaceNumericIdsSplit(pre, seg);
    NumericSegment(digits, post);
    ReplaceNumericIdsIdentity(pre);
    ReplaceNumericIdsIdentity(post);
  }

  /** The documented example: the invoice PDF path is tagged with `{id}` in place of the invoice number. */
  lemma DocumentedExample()
    ensures SimplifyPath("/api/invoices/456/pdf") == "/api/invoices/{id}/pdf"
  {
    assert "/api/invoices" + "/" + "456" + "/pdf" == "/api/invoices/456/pdf";
    assert "/api/invoices" + "/{id}" + "/pdf" == "/api/invoices/{id}/pdf";
    ShortHasNoUuid("/api/invoices/456/pdf");
    NumericSegmentCollapsed("/api/invoices", "456", "/pdf");
  }

  /** The status tag: the response's status, or 0 when none was set. */
  function MetricStatus(status: Option<int>): (code: int)
    ensures status.Some? ==> code == status.value
    ensures status.None? ==> code == 0
  {
    if status.Some? then status.value else 0
  }

  /** The X-Response-Time value: the duration in milliseconds followed by "ms". */
  function ResponseTimeValue(durationMs: int): (v: string)
    ensures |v| >= 3 && v[|v| - 2..] == "ms" && v[..|v| - 2] == IntToString(durationMs)
  {
    IntToString(durationMs) + "ms"
  }

  const NANOS_PER_MILLI := 1_000_000

  /**
   * `Duration.toMillis` of a duration of `nanos` nanoseconds: whole milliseconds, truncated toward zero,
   * so 0.9 ms and 1.1 ms apart give 0 and 1 ms whatever the instants themselves.
   */
  function ToMillis(nanos: int): (ms: int)
    ensures nanos >= 0 ==> 0 <= ms && ms * NANOS_PER_MILLI <= nanos < (ms + 1) * NANOS_PER_MILLI
    ensures nanos < 0 ==> ms <= 0 && (ms - 1) * NANOS_PER_MILLI < nanos <= ms * NANOS_PER_MILLI
  {
    if nanos >= 0 then nanos / NANOS_PER_MILLI else -((-nanos) / NANOS_PER_MILLI)
  }

  /** One recorded timer sample: `Timer.record` receives the whole `Duration`, so the sample keeps nanoseconds. */
  datatype Sample = Sample(httpMethod: string, path: string, status: string, durationNanos: int)

  /** The meter registry; registration can fail, and then nothing is recorded. */
  class MeterRegistry {
    var failing: bool
    var samples: seq<Sample>

    constructor (failing: bool)
      ensures this.failing == failing && samples == []
    {
      this.failing := failing;
      samples := [];
    }
  }

  /** The filter body: store the start instant (in nanoseconds) and pass the exchange on. */
  method Filter(ex: Exchange, nowNanos: int) returns (next: Next)
    modifies ex
    ensures next == Forward(ex.request)
    ensures ex.attributes == old(ex.attributes)[REQUEST_START_INSTANT_ATTR := nowNanos]
    ensures ex.status == old(ex.status) && ex.responseHeaders == old(ex.responseHeaders) && ex.completed == old(ex.completed)
  {
    ex.attributes := ex.attributes[REQUEST_START_INSTANT_ATTR := nowNanos];
    return Forward(ex.request);
  }

  /** The before-commit hook: adds the response time when a start instant is stored. */
  method AddResponseTimeHeader(ex: Exchange, nowNanos: int)
    modifies ex
    ensures REQUEST_START_INSTANT_ATTR !in ex.attributes ==> unchanged(ex)
    ensures REQUEST_START_INSTANT_ATTR in ex.attributes ==>
      ex.responseHeaders == AddHeader(old(ex.responseHeaders), RESPONSE_TIME_HEADER,
                                      ResponseTimeValue(ToMillis(nowNanos - ex.attributes[REQUEST_START_INSTANT_ATTR])))
    ensures ex.status == old(ex.status) && ex.attributes == old(ex.attributes) && ex.completed == old(ex.completed)
  {
    if REQUEST_START_INSTANT_ATTR in ex.attributes {
      var duration := ToMillis(nowNanos - ex.attributes[REQUEST_START_INSTANT_ATTR]);
      ex.responseHeaders := AddHeader(ex.responseHeaders, RESPONSE_TIME_HEADER, ResponseTimeValue(duration));
    }
  }

  /** The completion hook: records one sample with the full elapsed duration (its `toMillis` only feeds the debug
      log); a failing registry records nothing, and the exchange is never touched. */
  method RecordMetric(ex: Exchange, registry: MeterRegistry, nowNanos: int)
    modifies registry
    ensures registry.failing == old(registry.failing)
    ensures REQUEST_START_INSTANT_ATTR !in ex.attributes || registry.failing ==> registry.samples == old(registry.samples)
    ensures REQUEST_START_INSTANT_ATTR in ex.attributes && !registry.failing ==>
      registry.samples == old(registry.samples) + [Sample(ex.request.httpMethod, SimplifyPath(ex.request.path),
        IntToString(MetricStatus(ex.status)), nowNanos - ex.attributes[REQUEST_START_INSTANT_ATTR])]
  {
    if REQUEST_START_INSTANT_ATTR !in ex.attributes {
      return;
    }
    var duration := nowNanos - ex.attributes[REQUEST_START_INSTANT_ATTR];
    var sample := Sample(ex.request.httpMethod, SimplifyPath(ex.request.path), IntToString(MetricStatus(ex.status)), duration);
    if !registry.failing {
      registry.samples := registry.samples + [sample];
    }
  }
}
