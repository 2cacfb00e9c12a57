/**
 * The gateway's fixed-window rate limiter. Each request increments a counter
 * named after the configured key and the index of the current window; the
 * response carries the limit headers, and a count above the limit is refused
 * with 429 Too Many Requests (section 4 of RFC 6585) and a Retry-After header
 * (section 10.2.3 of RFC 9110). The counter store is an in-memory stand-in
 * for the shared store; when it is unreachable every command fails and the
 * request is let through.
 */
module RateLimit {
  import opened Wrappers
  import opened Text
  import opened Http

  const DEFAULT_LIMIT := 100
  const DEFAULT_WINDOW_SECONDS := 60

  /** Filter configuration: the key has no default. */
  datatype Config = Config(key: Option<string>, limit: int, windowSeconds: int)

  function DefaultConfig(): (c: Config)
    ensures c.key.None? && c.limit == 100 && c.windowSeconds == 60
  {
    Config(None, DEFAULT_LIMIT, DEFAULT_WINDOW_SECONDS)
  }

  /** Java's integer division: the quotient is truncated toward zero. */
  function JavaDiv(a: int, b: int): (q: int)
    requires b != 0
    ensures a >= 0 && b > 0 ==> q == a / b
  {
    var m := Abs(a) / Abs(b);
    if (a >= 0) == (b > 0) then m else -m
  }

  function Abs(n: int): nat { if n < 0 then -n else n }

  function WindowIndex(nowSeconds: int, windowSeconds: int): int
    requires windowSeconds != 0
  {
    JavaDiv(nowSeconds, windowSeconds)
  }

  /** The counter's name, `rate_limit:<key>:<window>`. */
  function CounterKey(key: string, window: int): string
  {
    "rate_limit:" + key + ":" + IntToString(window)
  }

  function ResetTime(window: int, windowSeconds: int): int
  {
    (window + 1) * windowSeconds
  }

  /** What the limiter does once it knows the count: the headers it adds, and whether it refuses. */
  datatype Verdict = Allow(headers: seq<(HeaderName, string)>) | Refuse(headers: seq<(HeaderName, string)>)

  function Decide(limit: int, windowSeconds: int, window: int, count: int): (v: Verdict)
    ensures v.Refuse? <==> count > limit
    ensures |v.headers| == if v.Refuse? then 4 else 3
    ensures v.headers[0] == ("x-ratelimit-limit", IntToString(limit))
    ensures v.headers[1].0 == "x-ratelimit-remaining"
    ensures v.Refuse? ==> v.headers[1].1 == "0"
    ensures v.Allow? ==> v.headers[1].1 == IntToString(limit - count)
    ensures v.headers[2] == ("x-ratelimit-reset", IntToString(ResetTime(window, windowSeconds)))
    ensures v.Refuse? ==> v.headers[3] == ("retry-after", IntToString(windowSeconds))
  {
    var remaining := if limit - count > 0 then limit - count else 0;
    var base := [("x-ratelimit-limit", IntToString(limit)),
                 ("x-ratelimit-remaining", IntToString(remaining)),
                 ("x-ratelimit-reset", IntToString(ResetTime(window, windowSeconds)))];
    if count > limit then Refuse(base + [("retry-after", IntToString(windowSeconds))]) else Allow(base)
  }

  /** Every instant of a window maps to the same counter, and the reset time is the first second of the next window. */
  lemma WindowBounds(nowSeconds: int, windowSeconds: int)
    requires nowSeconds >= 0 && windowSeconds > 0
    ensures var w := WindowIndex(nowSeconds, windowSeconds);
      w * windowSeconds <= nowSeconds < ResetTime(w, windowSeconds)
      && WindowIndex(ResetTime(w, windowSeconds), windowSeconds) == w + 1
      && ResetTime(w, windowSeconds) <= nowSeconds + windowSeconds
  {
    var w := nowSeconds / windowSeconds;
    assert nowSeconds == w * windowSeconds + nowSeconds % windowSeconds;
    assert ResetTime(w, windowSeconds) == w * windowSeconds + windowSeconds;
    assert (w + 2) * windowSeconds == ResetTime(w, windowSeconds) + windowSeconds;
    DivUnique(ResetTime(w, windowSeconds), windowSeconds, w + 1);
  }

  /** The quotient is the one multiple that brackets the dividend. */
  lemma DivUnique(x: int, d: int, q: int)
    requires d > 0 && q * d <= x < (q + 1) * d
    ensures x / d == q
  {
    var p := x / d;
    assert x == p * d + x % d;
    assert (p + 1) * d == p * d + d;
    assert (q + 1) * d == q * d + d;
    assert (p - q) * d == p * d - q * d;
    assert (q - p) * d == q * d - p * d;
    if p > q {
      MulAtLeast(p - q, d);
    } else if p < q {
      MulAtLeast(q - p, d);
    }
  }

  lemma {:induction false} MulAtLeast(m: int, d: int)
    requires m >= 1 && d > 0
    ensures m * d >= d
  {
    if m > 1 {
      MulAtLeast(m - 1, d);
      assert m * d == (m - 1) * d + d;
    }
  }

  /** Two configured keys or two windows never share a counter: the counter name determines both. */
  lemma CounterKeyInjective(k1: string, w1: int, k2: string, w2: int)
    requires CounterKey(k1, w1) == CounterKey(k2, w2)
    ensures k1 == k2 && w1 == w2
  {
    var s := CounterKey(k1, w1);
    var d1, d2 := IntToString(w1), IntToString(w2);
    assert s[|s| - |d1| - 1] == ':' && s[|s| - |d2| - 1] == ':';
    if |d1| == |d2| {
      assert d1 == s[|s| - |d1|..] == d2;
      IntToStringInjective(w1, w2);
      assert k1 == s[11..|s| - |d1| - 1] == k2;
    }
  }

  /** The two cases the limiter's own unit test checks: 5 of 10 used, and 15 of 10. */
  lemma TestExamples()
    ensures Decide(10, 60, 0, 5) == Allow([("x-ratelimit-limit", "10"), ("x-ratelimit-remaining", "5"), ("x-ratelimit-reset", "60")])
    ensures Decide(10, 60, 0, 15).Refuse? && Decide(10, 60, 0, 15).headers[1] == ("x-ratelimit-remaining", "0")
    ensures Decide(10, 60, 0, 15).headers[3] == ("retry-after", "60")
  {
    assert IntToString(10) == "10";
    assert IntToString(60) == "60";
  }

  /** An in-memory counter store: counters, the expiry last set on each, and whether it can be reached. */
  class CounterStore {
    var available: bool
    var counts: map<string, int>
    var ttls: map<string, int>

    constructor (available: bool)
      ensures this.available == available && counts == map[] && ttls == map[]
    {
      this.available := available;
      counts := map[];
      ttls := map[];
    }

    function Count(key: string): int
      reads this
    {
      if key in counts then counts[key] else 0
    }

    /** INCR: a missing counter starts from zero; an unreachable store fails. */
    method Increment(key: string) returns (r: Option<int>)
      modifies this
      ensures available == old(available) && ttls == old(ttls)
      ensures !available ==> r.None? && unchanged(this)
      ensures available ==> r == Some(old(Count(key)) + 1) && counts == old(counts)[key := r.value]
    {
      if !available {
        return None;
      }
      r := Some(Count(key) + 1);
      counts := counts[key := r.value];
    }

    /** EXPIRE, fire-and-forget: a failure is not reported to the caller. */
    method Expire(key: string, seconds: int)
      modifies this
      ensures available == old(available) && counts == old(counts)
      ensures ttls == if available then old(ttls)[key := seconds] else old(ttls)
    {
      if available {
        ttls := ttls[key := seconds];
      }
    }
  }

  /** Whether the filter looks at the counter at all. */
  predicate Checks(enabled: bool, config: Config)
  {
    enabled && config.key.Some? && !IsJavaBlank(config.key.value)
  }

  /** The filter's body for one request at time `nowSeconds` (epoch seconds). */
  method Apply(enabled: bool, config: Config, nowSeconds: int, ex: Exchange, store: CounterStore) returns (next: Next)
    modifies ex, store
    ensures ex.attributes == old(ex.attributes)
    ensures !Checks(enabled, config) ==>
      next == Forward(ex.request) && unchanged(ex) && unchanged(store)
    ensures Checks(enabled, config) && config.windowSeconds == 0 ==>
      next.Raised? && unchanged(ex) && unchanged(store)
    ensures Checks(enabled, config) && config.windowSeconds != 0 && !old(store.available) ==>
      next == Forward(ex.request) && unchanged(ex) && unchanged(store)
    ensures Checks(enabled, config) && config.windowSeconds != 0 && old(store.available) ==>
      var window := WindowIndex(nowSeconds, config.windowSeconds);
      var key := CounterKey(config.key.value, window);
      var count := old(store.Count(key)) + 1;
      var v := Decide(config.limit, config.windowSeconds, window, count);
      store.available
      && store.counts == old(store.counts)[key := count]
      && store.ttls == (if count == 1 then old(store.ttls)[key := config.windowSeconds] else old(store.ttls))
      && ex.responseHeaders == AddAll(old(ex.responseHeaders), v.headers)
      && (v.Refuse? ==> next == Completed && ex.status == Some(TOO_MANY_REQUESTS) && ex.completed)
      && (v.Allow? ==> next == Forward(ex.request) && ex.status == old(ex.status) && ex.completed == old(ex.completed))
  {
    if !enabled {
      return Forward(ex.request);
    }
    if config.key.None? || IsJavaBlank(config.key.value) {
      return Forward(ex.request);
    }
    if config.windowSeconds == 0 {
      return Raised("/ by zero");
    }
    var window := WindowIndex(nowSeconds, config.windowSeconds);
    var key := CounterKey(config.key.value, window);
    var count := store.Increment(key);
    if count.None? {
      // the store's error is swallowed and the request goes on
      return Forward(ex.request);
    }
    if count.value == 1 {
      store.Expire(key, config.windowSeconds);
    }
    var v := Decide(config.limit, config.windowSeconds, window, count.value);
    ex.responseHeaders := AddAll(ex.responseHeaders, v.headers);
    if v.Refuse? {
      ex.Reject(TOO_MANY_REQUESTS);
      return Completed;
    }
    return Forward(ex.request);
  }
}
