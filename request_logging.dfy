/**
 * The request-logging filter: every request gets a correlation id (the
 * client's own when it sent a non-blank one, a generated UUID otherwise) on the
 * forwarded request and on the response; the start time goes into the
 * exchange attributes, and the response log flags requests slower than a
 * threshold. The clock and the UUID generator are inputs.
 */
module RequestLogging {
  import opened Wrappers
  import opened Text
  import opened Http

  const CORRELATION_ID_HEADER: HeaderName := "x-correlation-id"
  const REQUEST_START_TIME_ATTR := "request_start_time"
  const DEFAULT_SLOW_REQUEST_THRESHOLD_MS := 3000

  /** The client's correlation id when it is present and not blank, else the freshly generated one. */
  function CorrelationId(request: Request, generated: UuidText): (id: string)
    ensures !IsJavaBlank(id)
    ensures (request.Header(CORRELATION_ID_HEADER).Some? && !IsJavaBlank(request.Header(CORRELATION_ID_HEADER).value))
      ==> id == request.Header(CORRELATION_ID_HEADER).value
    ensures (request.Header(CORRELATION_ID_HEADER).None? || IsJavaBlank(request.Header(CORRELATION_ID_HEADER).value))
      ==> id == generated
  {
    var h := request.Header(CORRELATION_ID_HEADER);
    if h.None? || IsJavaBlank(h.value) then UuidNotBlank(generated); generated else h.value
  }

  /**
   * The client address for the log: the first X-Forwarded-For hop, trimmed,
   * when the header is present and not blank; else the remote address; else
   * "unknown". A header made only of commas splits into no pieces at all,
   * and taking the first one raises.
   */
  function ClientIp(request: Request): (ip: Result<string>)
    ensures var x := request.Header(X_FORWARDED_FOR);
      x.Some? && !IsJavaBlank(x.value) ==>
        (ip.Err? <==> forall k :: 0 <= k < |x.value| ==> x.value[k] == ',')
        && (ip.Ok? ==> ip.value == JavaTrim(Before(x.value, ',')))
    ensures var x := request.Header(X_FORWARDED_FOR);
      (x.None? || IsJavaBlank(x.value)) ==>
        ip == Ok(if request.remoteAddress.Some? then request.remoteAddress.value else "unknown")
  {
    var x := request.Header(X_FORWARDED_FOR);
    if x.Some? && !IsJavaBlank(x.value) then
      match JavaSplitFirst(x.value, ',')
      case None => Err("Index 0 out of bounds for length 0")
      case Some(first) => Ok(JavaTrim(first))
    else if request.remoteAddress.Some? then Ok(request.remoteAddress.value)
    else Ok("unknown")
  }

  /** One line of the response log. */
  datatype ResponseLog = ResponseLog(correlationId: string, status: int, durationMs: int, slow: bool)

  /**
   * What `logResponse` records when the request finishes at `nowMillis`:
   * nothing when no start time was stored; the status, or 0 when none was
   * set; and whether the duration exceeds the threshold.
   */
  function LogResponse(attributes: map<string, int>, status: Option<int>, correlationId: string, nowMillis: int, thresholdMs: int): (log: Option<ResponseLog>)
    ensures log.Some? <==> REQUEST_START_TIME_ATTR in attributes
    ensures log.Some? ==> log.value.durationMs == nowMillis - attributes[REQUEST_START_TIME_ATTR]
    ensures log.Some? ==> (log.value.slow <==> log.value.durationMs > thresholdMs)
    ensures log.Some? ==> log.value.status == (if status.Some? then status.value else 0)
  {
    if REQUEST_START_TIME_ATTR !in attributes then None
    else
      var duration := nowMillis - attributes[REQUEST_START_TIME_ATTR];
      Some(ResponseLog(correlationId, if status.Some? then status.value else 0, duration, duration > thresholdMs))
  }

  /** Slowness is strict and grows with duration: a request at the threshold is not slow, one a millisecond longer is. */
  lemma SlowBoundary(attributes: map<string, int>, status: Option<int>, id: string, thresholdMs: int)
    requires REQUEST_START_TIME_ATTR in attributes
    ensures var start := attributes[REQUEST_START_TIME_ATTR];
      !LogResponse(attributes, status, id, start + thresholdMs, thresholdMs).value.slow
      && LogResponse(attributes, status, id, start + thresholdMs + 1, thresholdMs).value.slow
  {
  }

  /** The filter body; `ensures` say what reaches the chain and what the exchange holds afterwards. */
  method Filter(enabled: bool, ex: Exchange, generated: UuidText, nowMillis: int) returns (next: Next)
    modifies ex
    ensures !enabled ==> next == Forward(ex.request) && unchanged(ex)
    ensures enabled ==>
      var id := CorrelationId(ex.request, generated);
      ex.responseHeaders == AddHeader(old(ex.responseHeaders), CORRELATION_ID_HEADER, id)
      && ex.attributes == old(ex.attributes)[REQUEST_START_TIME_ATTR := nowMillis]
      && ex.status == old(ex.status) && ex.completed == old(ex.completed)
      && (ClientIp(ex.request).Ok? ==> next == Forward(ex.request.WithHeader(CORRELATION_ID_HEADER, id)))
      && (ClientIp(ex.request).Err? ==> next.Raised?)
    // a forwarded request and the response carry the same non-blank correlation id
    ensures enabled && next.Forward? ==>
      var sent := ex.responseHeaders[CORRELATION_ID_HEADER];
      next.request.Header(CORRELATION_ID_HEADER) == Some(sent[|sent| - 1]) && !IsJavaBlank(sent[|sent| - 1])
  {
    if !enabled {
      return Forward(ex.request);
    }
    var id := CorrelationId(ex.request, generated);
    var mutated := ex.request.WithHeader(CORRELATION_ID_HEADER, id);
    ex.responseHeaders := AddHeader(ex.responseHeaders, CORRELATION_ID_HEADER, id);
    ex.attributes := ex.attributes[REQUEST_START_TIME_ATTR := nowMillis];
    // logging the request computes the client address, which can raise
    var ip := ClientIp(mutated);
    if ip.Err? {
      return Raised(ip.error);
    }
    return Forward(mutated);
  }
}
