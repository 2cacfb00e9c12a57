# MoneyOps core, modelled in Dafny

This project models the core of MoneyOps, a small-business finance assistant. It also covers the invoicing and user services of its predecessor, ledgertalk. The core has four parts.

- **API gateway filters** (Spring Cloud Gateway):
  - authentication by bearer token;
  - the tenant-context check on organisation-scoped paths;
  - the Redis fixed-window rate limiter and its key resolvers;
  - request logging with correlation ids;
  - the request-duration metrics.

  Requests are values. The mutable side of an exchange (response status, response headers, attributes) is the class `Http.Exchange`. What a filter hands on is a `Next` value: it forwards a request, completes the response, or raises.
- **AI gateway** (Python):
  - the intent catalogue and its routing table (`Intents`);
  - the entity schemas and their normalisers (`Entities`);
  - the entity extractor (`EntityExtraction`);
  - the pattern-then-model intent classifier (`IntentClassifying`);
  - the tool registry (`Tools`, class `ToolRegistry`), which checks a call's parameters and runs its handler.
- **Voice service**: the voice session and the session manager (`Sessions`). Both are classes whose methods update the conversation history and the table of live sessions in place.
- **Backend services** (Java):
  - the invoice rules: the status machine, the line arithmetic, validation and totals (`Invoices`, `InvoiceValidation`);
  - the invoice store and service (`InvoiceStore`, class `InvoiceServices.InvoiceService`). Their invariant is that every stored invoice's totals are the sums over its items, and that no two stored invoices share an invoice number (the unique column);
  - the user and invitation service (class `UserServices.UserService`);
  - the transaction, organisation, user, invitation and client validators;
  - `MoneyUtil`'s half-up rounding to cents (`Money`).

Outside inputs are parameters:
- the clock (integer seconds, milliseconds or nanoseconds; where the source reads it once per item, one reading per item);
- random ids and tokens;
- the JWT verifier;
- the Redis counter store (a class with an "available" switch);
- the language model's reply (a `Result` of the parsed reply);
- the regular-expression engine of the intent patterns;
- the password encoder.

Money is exact (`real`). Java `BigDecimal` and Python `Decimal` values are unbounded decimals here, and Java `int` arithmetic is written out where the source depends on truncation.

Helper modules:
- `Wrappers`: `Option` and `Result`;
- `Text`: the Java and Python string operations the core relies on;
- `Http`: headers, requests and the exchange.

## Model

| member | source | states |
|---|---|---|
| Authentication.ExtractToken | MoneyOps/api-gateway/src/main/java/com/moneyops/gateway/filter/AuthenticationFilter.java:81-87 | a token exists exactly when the Authorization header starts with "Bearer ", and it is the text after that prefix |
| Authentication.Authenticate | MoneyOps/api-gateway/src/main/java/com/moneyops/gateway/filter/AuthenticationFilter.java:31-79 | a public path passes untouched; a protected path without a bearer token is answered 401; a protected path whose bearer token has both claims accepted is passed on; every refusal is 401 or 403 |
| Authentication.PassedRequestCarriesClaims | MoneyOps/api-gateway/src/main/java/com/moneyops/gateway/filter/AuthenticationFilter.java:53-59 | a request let through a protected path carries exactly one user id, one organisation id and the token, all taken from the token; whatever the client sent under those names is gone; path, address and all other headers are unchanged |
| Authentication.ClaimHeadersSet | MoneyOps/api-gateway/src/main/java/com/moneyops/gateway/filter/AuthenticationFilter.java:55-59 | the three `header` calls of the request builder leave each claim header with its single value and every other header as it was |
| Authentication.FailedVerificationDenies | MoneyOps/api-gateway/src/main/java/com/moneyops/gateway/filter/AuthenticationFilter.java:65-73 | a verifier failure on either claim denies the request, with 403 exactly when the first failure is a security violation |
| Authentication.AuthenticatedRequestHasTenant | MoneyOps/api-gateway/src/main/java/com/moneyops/gateway/filter/AuthenticationFilter.java:55-63 | a request that authentication lets through a protected path always has a non-blank organisation id, so the tenant filter after it never refuses it |
| Authentication.Filter | MoneyOps/api-gateway/src/main/java/com/moneyops/gateway/filter/AuthenticationFilter.java:31-74 | the exchange is left untouched and the mutated request forwarded on a pass; on a refusal the response gets the status and is completed; headers and attributes never change |
| TenantContext.DoubleStarMatchesAll | MoneyOps/api-gateway/src/main/java/com/moneyops/gateway/filter/TenantContextFilter.java:83-87 | a `**` pattern segment matches any run of path segments, including none |
| TenantContext.PrefixDoubleStar | MoneyOps/api-gateway/src/main/java/com/moneyops/gateway/filter/TenantContextFilter.java:83-87 | pattern segments that match a path's leading segments one by one, followed by `**`, match that path with any segments after them |
| TenantContext.GlobMatchLiteralExact | MoneyOps/api-gateway/src/main/java/com/moneyops/gateway/filter/TenantContextFilter.java:83-87 | a pattern segment without wildcards matches exactly the identical path segment |
| TenantContext.DoubleStarCoversSubtree | MoneyOps/api-gateway/src/main/java/com/moneyops/gateway/filter/TenantContextFilter.java:28-30 | literal segments followed by `**` match every path below those segments |
| TenantContext.SiblingNotCovered | MoneyOps/api-gateway/src/main/java/com/moneyops/gateway/filter/TenantContextFilter.java:28-32 | the pattern a/b/`**` does not match the path a/c/d when the literal b differs from c |
| TenantContext.TestMatches | MoneyOps/api-gateway/src/test/java/com/moneyops/gateway/filter/TenantContextFilterTest.java:52-69 | the patterns /api/clients/`**` and /api/invoices/`**` match /api/clients/123 and /api/invoices/123/pdf |
| TenantContext.TestMismatches | MoneyOps/api-gateway/src/test/java/com/moneyops/gateway/filter/TenantContextFilterTest.java:91-107 | none of the three test patterns matches /api/users/profile |
| TenantContext.ApiSiblingNotCovered | MoneyOps/api-gateway/src/test/java/com/moneyops/gateway/filter/TenantContextFilterTest.java:91-107 | the subtree pattern under api of any literal segment other than users leaves /api/users/profile out |
| TenantContext.TestConfigurationTrimmed | MoneyOps/api-gateway/src/main/java/com/moneyops/gateway/filter/TenantContextFilter.java:84-86 | `trim` leaves each of the three test patterns unchanged |
| TenantContext.TestTenantPaths | MoneyOps/api-gateway/src/test/java/com/moneyops/gateway/filter/TenantContextFilterTest.java:130-148 | under the test configuration a client path and an invoice PDF path need a tenant |
| TenantContext.TestUserPathIsFree | MoneyOps/api-gateway/src/test/java/com/moneyops/gateway/filter/TenantContextFilterTest.java:90-107 | under the test configuration the user profile path needs no tenant |
| TenantContext.Filter | MoneyOps/api-gateway/src/main/java/com/moneyops/gateway/filter/TenantContextFilter.java:53-78 | the request is refused with 403 and the response completed exactly when enforcement is on, some trimmed pattern matches the path and X-Org-Id is missing or blank; otherwise the request is forwarded and the exchange untouched |
| RateLimit.JavaDiv | MoneyOps/api-gateway/src/main/java/com/moneyops/gateway/filter/RateLimitFilter.java:80 | Java's truncating `/` agrees with Dafny's division whenever the dividend is non-negative and the divisor positive |
| RateLimit.Decide | MoneyOps/api-gateway/src/main/java/com/moneyops/gateway/filter/RateLimitFilter.java:92-109 | the request is refused exactly when the count exceeds the limit; the headers are the limit, the remaining count (limit minus count, or 0 when refused) and the reset time, plus Retry-After with the window length on a refusal |
| RateLimit.WindowBounds | MoneyOps/api-gateway/src/main/java/com/moneyops/gateway/filter/RateLimitFilter.java:79-94 | every instant of a window falls between the window's start and its reset time, the reset time is the first second of the next window, and it is at most one window ahead |
| RateLimit.CounterKeyInjective | MoneyOps/api-gateway/src/main/java/com/moneyops/gateway/filter/RateLimitFilter.java:81 | the counter name `rate_limit:<key>:<window>` determines both the key and the window, so two keys or two windows never share a counter |
| RateLimit.TestExamples | MoneyOps/api-gateway/src/test/java/com/moneyops/gateway/filter/RateLimitFilterTest.java:52-102 | with limit 10 and a 60-second window, a count of 5 is allowed with 5 remaining, and a count of 15 is refused with 0 remaining and Retry-After 60 |
| RateLimit.CounterStore.Increment | MoneyOps/api-gateway/src/main/java/com/moneyops/gateway/filter/RateLimitFilter.java:83-84 | INCR adds one to the counter, starting from zero, and fails on an unreachable store without changing it |
| RateLimit.CounterStore.Expire | MoneyOps/api-gateway/src/main/java/com/moneyops/gateway/filter/RateLimitFilter.java:87-90 | EXPIRE sets the counter's time to live on a reachable store and silently does nothing otherwise |
| RateLimit.Apply | MoneyOps/api-gateway/src/main/java/com/moneyops/gateway/filter/RateLimitFilter.java:61-119 | disabled or keyless: forwarded untouched; zero window: the division raises before any store call; unreachable store: forwarded (fail-open); otherwise the counter for the current window is incremented, its TTL set on the first hit, the three limit headers appended, and the request refused with 429 exactly when the count exceeds the limit |
| KeyResolvers.IpKey | MoneyOps/api-gateway/src/main/java/com/moneyops/gateway/config/RateLimitKeyResolverConfig.java:40-61 | `ip:` and the first comma-separated hop of a non-blank X-Forwarded-For, trimmed; without one, the remote address or "unknown"; a forwarded-for value made only of commas raises (Java's `split` yields no element) |
| KeyResolvers.UserKey | MoneyOps/api-gateway/src/main/java/com/moneyops/gateway/config/RateLimitKeyResolverConfig.java:71-85 | `user:` and a non-blank X-User-Id; otherwise exactly the address key |
| KeyResolvers.OrgKey | MoneyOps/api-gateway/src/main/java/com/moneyops/gateway/config/RateLimitKeyResolverConfig.java:95-109 | `org:` and a non-blank X-Org-Id; otherwise exactly the user key |
| KeyResolvers.OrgKeyNamespace | MoneyOps/api-gateway/src/main/java/com/moneyops/gateway/config/RateLimitKeyResolverConfig.java:95-109 | the first letter of an organisation-resolver key says which fallback produced it: 'o' exactly when the tenant header is set, 'u' exactly when only the user header is set, 'i' exactly when neither is |
| KeyResolvers.OrgKeySeparatesTenants | MoneyOps/api-gateway/src/main/java/com/moneyops/gateway/config/RateLimitKeyResolverConfig.java:95-109 | two requests with the same organisation-resolver key agree on whether they carry a tenant, and on the tenant id when they do, so tenants never share a counter with each other or with a user or an address |
| KeyResolvers.PathKey | MoneyOps/api-gateway/src/main/java/com/moneyops/gateway/config/RateLimitKeyResolverConfig.java:119-131 | the corrected path key starts with `path:` and, after it, no '/' is followed by a digit: every numeric segment has been collapsed |
| KeyResolvers.PathKeyAsWritten | MoneyOps/api-gateway/src/main/java/com/moneyops/gateway/config/RateLimitKeyResolverConfig.java:120-129 | as written (numeric ids first, then UUIDs) the key starts with `path:` and after it no '/' is followed by a digit, so every numeric segment is still collapsed; the UUID order is what goes wrong |
| KeyResolvers.PathKeyCollapsesUuid | MoneyOps/api-gateway/src/main/java/com/moneyops/gateway/config/RateLimitKeyResolverConfig.java:119-131 | with UUIDs collapsed first, every record under a plain prefix shares the key `path:<prefix>{uuid}`, whatever the UUID's first character |
| KeyResolvers.PathKeyCollapsesNumericId | MoneyOps/api-gateway/src/main/java/com/moneyops/gateway/config/RateLimitKeyResolverConfig.java:119-131 | a numeric segment of a path without UUIDs becomes `{id}` and the rest of the path is kept |
| KeyResolvers.DigitLeadingUuidEscapesPathKey | MoneyOps/api-gateway/src/main/java/com/moneyops/gateway/config/RateLimitKeyResolverConfig.java:124-126 | as written, a UUID that starts with a digit loses only its leading digits to `{id}`; the rest stays in the key, which is never the shared `{uuid}` key |
| KeyResolvers.DigitLeadingUuidExample | MoneyOps/api-gateway/src/main/java/com/moneyops/gateway/config/RateLimitKeyResolverConfig.java:124-126 | as written, /api/clients/123e4567-e89b-12d3-a456-426614174000 gets the key `path:/api/clients/{id}e4567-e89b-12d3-a456-426614174000`, not `path:/api/clients/{uuid}` |
| KeyResolvers.CompositeKey | MoneyOps/api-gateway/src/main/java/com/moneyops/gateway/config/RateLimitKeyResolverConfig.java:140-150 | `user:<id>:path:<path>` when X-User-Id is present, else `ip:unknown:path:<path>`, with the raw path |
| RequestLogging.CorrelationId | MoneyOps/api-gateway/src/main/java/com/moneyops/gateway/filter/RequestLoggingFilter.java:97-103 | the client's X-Correlation-Id when present and not blank, else the generated UUID; the id is never blank |
| RequestLogging.ClientIp | MoneyOps/api-gateway/src/main/java/com/moneyops/gateway/filter/RequestLoggingFilter.java:156-168 | the first comma-separated hop of a non-blank X-Forwarded-For, trimmed; else the remote address, else "unknown"; a forwarded-for value made only of commas raises |
| RequestLogging.LogResponse | MoneyOps/api-gateway/src/main/java/com/moneyops/gateway/filter/RequestLoggingFilter.java:127-150 | nothing is logged without a stored start time; otherwise the duration is now minus the start, the status is 0 when none was set, and the line is flagged slow exactly when the duration exceeds the threshold |
| RequestLogging.SlowBoundary | MoneyOps/api-gateway/src/main/java/com/moneyops/gateway/filter/RequestLoggingFilter.java:143 | the slow flag is strict: a request that takes exactly the threshold is not slow, one a millisecond longer is |
| RequestLogging.Filter | MoneyOps/api-gateway/src/main/java/com/moneyops/gateway/filter/RequestLoggingFilter.java:64-92 | disabled: the exchange is forwarded untouched; enabled: the correlation id is added to the response headers, the start time stored in the attributes, and the request forwarded with the id in its headers (logging the request raises when the client address does); a forwarded request and the response then carry the same non-blank correlation id |
| RequestDuration.DigitRun | MoneyOps/api-gateway/src/main/java/com/moneyops/gateway/filter/RequestDurationFilter.java:127 | the length of the leading run of digits that `\\d+` consumes: every character before it is a digit and the one after is not |
| RequestDuration.ReplaceNumericIds | MoneyOps/api-gateway/src/main/java/com/moneyops/gateway/filter/RequestDurationFilter.java:127 | the numeric-id pass keeps the empty text empty and keeps whether the text starts with a digit |
| RequestDuration.ReplaceNumericIdsNoSlashDigit | MoneyOps/api-gateway/src/main/java/com/moneyops/gateway/filter/RequestDurationFilter.java:126-127 | after the numeric-id pass no '/' is followed by a digit |
| RequestDuration.SimplifiedHasNoNumericSegment | MoneyOps/api-gateway/src/main/java/com/moneyops/gateway/filter/RequestDurationFilter.java:119-130 | a simplified path has no segment that starts with a digit |
| RequestDuration.ReplaceNumericIdsIdentity | MoneyOps/api-gateway/src/main/java/com/moneyops/gateway/filter/RequestDurationFilter.java:127 | text in which no '/' is followed by a digit passes the numeric-id pass unchanged |
| RequestDuration.ReplaceNumericIdsIdempotent | MoneyOps/api-gateway/src/main/java/com/moneyops/gateway/filter/RequestDurationFilter.java:127 | the numeric-id pass applied twice equals the pass applied once |
| RequestDuration.ReplaceUuidsPrefix | MoneyOps/api-gateway/src/main/java/com/moneyops/gateway/filter/RequestDurationFilter.java:121-124 | a UUID scan over a prefix that starts no UUID copies the prefix and carries on after it |
| RequestDuration.NoUuidAcross | MoneyOps/api-gateway/src/main/java/com/moneyops/gateway/filter/RequestDurationFilter.java:121-124 | no UUID match can cross a character that cannot occur in a UUID, such as the '/' ending a prefix |
| RequestDuration.UuidSegmentCollapsed | MoneyOps/api-gateway/src/main/java/com/moneyops/gateway/filter/RequestDurationFilter.java:121-124 | a UUID forming the last segment of a path is replaced, whatever its first character |
| RequestDuration.SimplifyCollapsesUuid | MoneyOps/api-gateway/src/main/java/com/moneyops/gateway/filter/RequestDurationFilter.java:119-130 | every path that ends in a UUID segment under the same plain prefix simplifies to `<prefix>{id}` |
| RequestDuration.NoUuidKept | MoneyOps/api-gateway/src/main/java/com/moneyops/gateway/filter/RequestDurationFilter.java:121-124 | a text holding no UUID passes the UUID pass unchanged |
| RequestDuration.NumericSegmentCollapsed | MoneyOps/api-gateway/src/main/java/com/moneyops/gateway/filter/RequestDurationFilter.java:119-130 | in a path without UUIDs, one numeric segment becomes `{id}` and the rest of the path is kept |
| RequestDuration.DocumentedExample | MoneyOps/api-gateway/src/main/java/com/moneyops/gateway/filter/RequestDurationFilter.java:115 | /api/invoices/456/pdf simplifies to /api/invoices/{id}/pdf |
| RequestDuration.MetricStatus | MoneyOps/api-gateway/src/main/java/com/moneyops/gateway/filter/RequestDurationFilter.java:89-91 | the status tag is the response's status, or 0 when none was set |
| RequestDuration.ToMillis | MoneyOps/api-gateway/src/main/java/com/moneyops/gateway/filter/RequestDurationFilter.java:70-71 | `Duration.toMillis` of a nanosecond duration: whole milliseconds truncated toward zero, so two instants 0.2 ms apart across a millisecond boundary still give 0 |
| RequestDuration.ResponseTimeValue | MoneyOps/api-gateway/src/main/java/com/moneyops/gateway/filter/RequestDurationFilter.java:74 | the header value is the decimal duration followed by "ms" |
| RequestDuration.Filter | MoneyOps/api-gateway/src/main/java/com/moneyops/gateway/filter/RequestDurationFilter.java:51-62 | the start instant, in nanoseconds, is stored in the attributes and the exchange passed on; status, headers and completion are untouched |
| RequestDuration.AddResponseTimeHeader | MoneyOps/api-gateway/src/main/java/com/moneyops/gateway/filter/RequestDurationFilter.java:64-75 | without a stored start instant nothing changes; with one, X-Response-Time with the elapsed time in whole milliseconds (`toMillis`, truncated) is appended to the response headers and nothing else changes |
| RequestDuration.RecordMetric | MoneyOps/api-gateway/src/main/java/com/moneyops/gateway/filter/RequestDurationFilter.java:77-108 | without a start instant nothing is recorded; otherwise one sample with the method, the simplified path, the status text and the full elapsed duration in nanoseconds (what `Timer.record(duration)` receives; the truncated `toMillis` value feeds only the debug log) is appended, unless the registry fails, which is swallowed; the exchange is never touched |
| Http.KeyIgnoresCase | MoneyOps/api-gateway/src/main/java/com/moneyops/gateway/filter/TenantContextFilter.java:66 | two spellings of a header name that differ only in letter case are looked up under the same key |
| Http.GetFirst | MoneyOps/api-gateway/src/main/java/com/moneyops/gateway/filter/AuthenticationFilter.java:82 | the first value of a header is present exactly when the header has a value, and is its first value |
| Http.AddHeader | MoneyOps/api-gateway/src/main/java/com/moneyops/gateway/filter/RateLimitFilter.java:97-99 | adding a response header appends its value after those already there and leaves every other header alone |
| Http.SetHeader | MoneyOps/api-gateway/src/main/java/com/moneyops/gateway/filter/AuthenticationFilter.java:56-58 | setting a request header replaces all its values by the one given and leaves every other header's first value alone |
| Http.Exchange.Reject | MoneyOps/api-gateway/src/main/java/com/moneyops/gateway/filter/AuthenticationFilter.java:44-45 | rejecting sets the status and completes the response, leaving its headers and the attributes alone |
| RateLimit.DefaultConfig | MoneyOps/api-gateway/src/main/java/com/moneyops/gateway/filter/RateLimitFilter.java:126-128 | a configuration left at its defaults has no key, a limit of 100 and a 60-second window |
| Text.JavaSplitFirst | MoneyOps/api-gateway/src/main/java/com/moneyops/gateway/config/RateLimitKeyResolverConfig.java:48 | the first piece of a comma split is the text before the first comma, and indexing raises exactly for a non-empty text made only of commas |
| Text.StripStart | MoneyOps/ai-gateway/app/schemas/entities.py:91 | stripping the front drops the longest prefix of dropped characters and no more |
| Text.StripEnd | MoneyOps/ai-gateway/app/schemas/entities.py:91 | stripping the back drops the longest suffix of dropped characters and no more |
| Text.StripEmptyIff | MoneyOps/ai-gateway/app/schemas/entities.py:91 | stripping leaves nothing exactly when every character is dropped |
| Text.StripIdempotent | MoneyOps/ai-gateway/app/schemas/entities.py:118 | stripping twice is stripping once |
| Text.Lower | MoneyOps/ai-gateway/app/schemas/entities.py:134 | lower-casing keeps the length and lower-cases each ASCII capital, keeping every other character |
| Text.Upper | MoneyOps/ai-gateway/app/orchestrator/entity_extractor.py:221 | upper-casing keeps the length and upper-cases each ASCII small letter, keeping every other character |
| Text.IntToString | MoneyOps/api-gateway/src/main/java/com/moneyops/gateway/filter/RateLimitFilter.java:97-99 | an integer prints as a non-empty run of digits and minus signs |
| Text.IntToStringInjective | MoneyOps/api-gateway/src/main/java/com/moneyops/gateway/filter/RateLimitFilter.java:97-99 | different integers print differently |
| Text.ParseNatToString | MoneyOps/api-gateway/src/main/java/com/moneyops/gateway/filter/RateLimitFilter.java:97-99 | reading back the digits of a natural number gives the number |
| Text.Utf16Length | MoneyOps/backend/src/main/java/com/moneyops/users/validator/InviteValidator.java:14 | a string's Java length is between its number of code points and twice it, and equals it when no code point is above U+FFFF |
| Text.UuidNotBlank | MoneyOps/api-gateway/src/main/java/com/moneyops/gateway/filter/RequestLoggingFilter.java:98-100 | a UUID's text is never blank |
| Entities.UnitSearch | MoneyOps/ai-gateway/app/schemas/entities.py:83 | the unit-amount search returns only a well-formed match |
| Entities.UnitFactor | MoneyOps/ai-gateway/app/schemas/entities.py:100-105 | a unit letter scales by a thousand, a lakh or a million |
| Intents.FindByName | MoneyOps/ai-gateway/app/orchestrator/intent_classifier.py:311 | the member found has exactly the given name and is one of the members searched; none is found exactly when no member has that name |
| Intents.ParseIntent | MoneyOps/ai-gateway/app/orchestrator/intent_classifier.py:311 | `Intent[s]` behind the `in Intent.__members__` guard: the member named `s` when there is one, nothing exactly when no member of the enum has that name |
| Intents.OwnEntry | MoneyOps/ai-gateway/app/schemas/intents.py:249-364 | no intent with a record of its own in the requirements table names a supporting agent |
| Intents.UnlistedIffMissing | MoneyOps/ai-gateway/app/schemas/intents.py:240-406 | the table has no entry for exactly seven intents: competitive positioning, SWOT analysis, scenario planning, goal setting, process optimisation, inventory optimisation and resource allocation |
| Intents.RequirementsOf | MoneyOps/ai-gateway/app/schemas/intents.py:433-437 | an intent's requirements are its table entry, or the operational default when the table has none |
| Intents.ConfidenceLevelOf | MoneyOps/ai-gateway/app/schemas/intents.py:417-431 | HIGH exactly at 0.85 and above, MEDIUM exactly in [0.7, 0.85), LOW exactly in [0.5, 0.7), VERY_LOW exactly below 0.5 |
| Intents.ConfidenceLevelMonotone | MoneyOps/ai-gateway/app/schemas/intents.py:408-431 | a higher confidence never falls into a lower band |
| Intents.CategoryOf | MoneyOps/ai-gateway/app/schemas/intents.py:440-465 | STRATEGIC exactly for complex or strategic complexity; otherwise CONVERSATIONAL exactly for the general agent; otherwise ANALYTICAL exactly with historical data or a chart, table or file response; never ADMINISTRATIVE |
| Intents.IntentCategoryOf | MoneyOps/ai-gateway/app/schemas/intents.py:440-465 | an intent's category is the category of its requirements; it has no contract of its own, and CategoryOf, DefaultCategories and UnlistedAreOperational state what it gives |
| Intents.RequiresMultiAgent | MoneyOps/ai-gateway/app/schemas/intents.py:467-472 | an intent needs several agents when its requirements name a supporting agent; it has no contract of its own, and MultiAgentIffStrategicDefault states that this is exactly the strategic default |
| Intents.ExpectedResponseTime | MoneyOps/ai-gateway/app/schemas/intents.py:475-480 | the requirements' maximum response time; it has no contract of its own, and MultiAgentIffStrategicDefault states that it is 15 seconds for every multi-agent intent |
| Intents.DefaultCategories | MoneyOps/ai-gateway/app/schemas/intents.py:212-238 | the operational default is categorised OPERATIONAL, the conversational one CONVERSATIONAL, and both the analytical and the strategic default STRATEGIC (the analytical default is complex) |
| Intents.UnlistedAreOperational | MoneyOps/ai-gateway/app/schemas/intents.py:433-472 | an intent the table leaves out is routed as an operation for the operations agent and needs no second agent |
| Intents.MultiAgentIffStrategicDefault | MoneyOps/ai-gateway/app/schemas/intents.py:467-479 | an intent needs several agents exactly when its requirements are the strategic default; such an intent is categorised STRATEGIC and expects a response within fifteen seconds |
| Intents.SupportOnlyInStrategicEntry | MoneyOps/ai-gateway/app/schemas/intents.py:212-406 | an intent with the strategic default has exactly that record, and every other entry names no supporting agent |
| Entities.Filter | MoneyOps/ai-gateway/app/schemas/entities.py:93 | `re.sub` with a one-character class keeps, in order, only characters of the class, and never lengthens the text |
| Entities.FilterKeepsAll | MoneyOps/ai-gateway/app/schemas/entities.py:93 | a text whose every character is in the class passes the substitution unchanged |
| Entities.FilterAppend | MoneyOps/ai-gateway/app/schemas/entities.py:93 | the substitution of a concatenation is the concatenation of the substitutions |
| Entities.DigitsParseAsDecimal | MoneyOps/ai-gateway/app/schemas/entities.py:111 | `Decimal` reads a plain run of digits as its value |
| Entities.ParseDecimal | MoneyOps/ai-gateway/app/schemas/entities.py:111 | `Decimal(s)` on plain notation: a text that reads as a number holds a digit, and a negative value comes only from a leading minus sign |
| Entities.UnsignedDecimal | MoneyOps/ai-gateway/app/schemas/entities.py:111 | an unsigned text of digits without a point is read by its digits alone |
| Entities.UnitSearchIsFirst | MoneyOps/ai-gateway/app/schemas/entities.py:83 | `_amount_k_re.search` finds the match at the first position that has one, and nothing exactly when no position has one |
| Entities.ScaledValue | MoneyOps/ai-gateway/app/schemas/entities.py:98-105 | a unit amount is its number times a thousand, a lakh or a million, so at least a thousand times the number |
| Entities.ReadAmount | MoneyOps/ai-gateway/app/schemas/entities.py:96-111 | a cleaned text reads as no digits exactly when it has no unit amount and no digit, point or minus sign left after the second substitution; a unit amount always gives a value |
| Entities.NormalizeAmount | MoneyOps/ai-gateway/app/schemas/entities.py:87-111 | `None` raises "No amount to normalize" |
| Entities.PlainAmountText | MoneyOps/ai-gateway/app/schemas/entities.py:91-93 | a text with no white space at either end and no currency symbol or comma is read as it stands |
| Entities.NoUnitInDigits | MoneyOps/ai-gateway/app/schemas/entities.py:83 | the unit-amount pattern never matches a string of digits alone |
| Entities.UnitMatchOfShape | MoneyOps/ai-gateway/app/schemas/entities.py:83 | the unit-amount pattern matches digits, an optional point and more digits, and a unit letter at the end of the text, with exactly those parts |
| Entities.UnitSuffixMultiplies | MoneyOps/ai-gateway/app/schemas/entities.py:96-105 | a number followed by a unit letter is read as the number scaled by that unit |
| Entities.DigitsAreTheirValue | MoneyOps/ai-gateway/app/schemas/entities.py:107-111 | a string of digits alone is read as that number |
| Entities.UnparsableIffNoDigits | MoneyOps/ai-gateway/app/schemas/entities.py:107-110 | "Unable to parse amount" is raised exactly when the cleaned text has no unit amount and no digit, point or minus sign |
| Entities.UnitAmountParses | MoneyOps/ai-gateway/app/schemas/entities.py:96-105 | a text that cleans to something holding a unit amount always normalises to a value |
| Entities.DocumentedScales | MoneyOps/ai-gateway/app/schemas/entities.py:88 | the numbers of "50k", "10L" and "1.2m" scale to 50000, 1000000 and 1200000 |
| Entities.NormalizesTo | MoneyOps/ai-gateway/app/schemas/entities.py:87-111 | a text that cleans to something read as a value normalises to that value |
| Entities.FiftyK | MoneyOps/ai-gateway/app/schemas/entities.py:88 | "50k" normalises to 50000 |
| Entities.TenLakh | MoneyOps/ai-gateway/app/schemas/entities.py:88 | "10L" normalises to 1000000 (ten lakh) |
| Entities.OnePointTwoMillion | MoneyOps/ai-gateway/app/schemas/entities.py:88 | "1.2m" normalises to 1200000 |
| Entities.DroppedBetween | MoneyOps/ai-gateway/app/schemas/entities.py:91-93 | a currency symbol or comma between two plain parts is dropped and nothing else changes |
| Entities.ReadFiftyThousand | MoneyOps/ai-gateway/app/schemas/entities.py:88 | "50000" is read as 50000, so "50,000" with its comma dropped is too |
| Entities.MinusFiveKIsPositive | MoneyOps/ai-gateway/app/schemas/entities.py:83-101 | a minus sign in front of a number with a unit is not part of the match, so "-5k" normalises to +5000 |
| Entities.NormalizeTimePeriod | MoneyOps/ai-gateway/app/schemas/entities.py:114-117 | nothing and the empty text both give "" |
| Entities.PlainTextNamesNoPeriod | MoneyOps/ai-gateway/app/schemas/entities.py:119-126 | a text made only of lower-case letters other than 'd' and underscores names no period |
| Entities.PeriodNameFixed | MoneyOps/ai-gateway/app/schemas/entities.py:114-128 | every canonical period name normalises to itself |
| Entities.UnnamedFixedText | MoneyOps/ai-gateway/app/schemas/entities.py:118-128 | a text that is already lower-cased and stripped and names no period normalises to itself |
| Entities.NamedPeriodCanonical | MoneyOps/ai-gateway/app/schemas/entities.py:118-126 | a text naming a previous month, quarter or year, or today, normalises to that period's canonical name |
| Entities.UnnamedPeriodKept | MoneyOps/ai-gateway/app/schemas/entities.py:127-128 | a text naming no period normalises to its lower-cased, stripped form |
| Entities.TodayFixed | MoneyOps/ai-gateway/app/schemas/entities.py:125-126 | "today" normalises to "today" |
| Entities.TimePeriodTextFixed | MoneyOps/ai-gateway/app/schemas/entities.py:118 | lower-casing and stripping a text that is already lower-cased and stripped changes nothing |
| Entities.TimePeriodIdempotent | MoneyOps/ai-gateway/app/schemas/entities.py:114-128 | normalising a normalised time period changes nothing |
| Entities.UnnamedTextFixed | MoneyOps/ai-gateway/app/schemas/entities.py:127-128 | a text naming no period normalises to its lower-cased, stripped form, which normalises to itself |
| Entities.NormalizeMetric | MoneyOps/ai-gateway/app/schemas/entities.py:131-134 | nothing gives the empty string, and a metric is never longer than the text it came from |
| Entities.LowerKeepsSpaces | MoneyOps/ai-gateway/app/schemas/entities.py:134 | lower-casing keeps white space where it is and leaves no upper-case letter |
| Entities.MetricIdempotent | MoneyOps/ai-gateway/app/schemas/entities.py:131-134 | normalising a normalised metric changes nothing |
| EntityExtraction.Lookup | MoneyOps/ai-gateway/app/orchestrator/entity_extractor.py:240 | `dict.get`: a value found is paired with the key in the table, and nothing is found exactly when no entry has the key |
| EntityExtraction.TypeForKey | MoneyOps/ai-gateway/app/orchestrator/entity_extractor.py:221-240 | a key the mapping does not know becomes ENTITY_NAME, and any other type comes from the mapping entry for that key |
| EntityExtraction.ItemStep | MoneyOps/ai-gateway/app/orchestrator/entity_extractor.py:217-266 | an item without a type, or with a type and no value, is skipped; a kept item gives an entity of the mapped type whose value and raw text are the item's value, with a confidence in [0, 1] and the method `llm` |
| EntityExtraction.ParseItems | MoneyOps/ai-gateway/app/orchestrator/entity_extractor.py:217-266 | the loop gives exactly the entities the items give, in order, up to the first item that aborts |
| EntityExtraction.ParsedEntitiesValid | MoneyOps/ai-gateway/app/orchestrator/entity_extractor.py:217-271 | there is at most one entity per item, each with a confidence in [0, 1] and the method `llm` |
| EntityExtraction.SkippedItemAddsNothing | MoneyOps/ai-gateway/app/orchestrator/entity_extractor.py:218-244 | an item without a type, or without a value, adds nothing and stops nothing |
| EntityExtraction.AbortDropsTheRest | MoneyOps/ai-gateway/app/orchestrator/entity_extractor.py:196-271 | an item whose processing raises ends the loop: the entities of the items before it are kept and those after it are lost |
| EntityExtraction.FirstList | MoneyOps/ai-gateway/app/orchestrator/entity_extractor.py:205-207 | the first list among an object's field values, in field order; none exactly when no field holds a list |
| EntityExtraction.LocateItems | MoneyOps/ai-gateway/app/orchestrator/entity_extractor.py:197-215 | the items located in an object reply are one of its list fields, and items located in a text reply come from decoding it, which needs both a '[' and a ']' in it |
| EntityExtraction.ParseLlmEntities | MoneyOps/ai-gateway/app/orchestrator/entity_extractor.py:191-271 | the entities are those the located items give, at most one per item, each with a valid confidence and the method `llm` |
| EntityExtraction.BuildResponse | MoneyOps/ai-gateway/app/orchestrator/entity_extractor.py:273-328 | the single pass gives the response specified by `ResponseOf`: every entity, their number, their mean confidence, and each convenience field from the first entity that can supply it |
| EntityExtraction.FirstOfIsFirst | MoneyOps/ai-gateway/app/orchestrator/entity_extractor.py:285-311 | a convenience field is empty exactly when no entity supplies it, and otherwise it comes from the first entity that does |
| EntityExtraction.FirstTextIsFirst | MoneyOps/ai-gateway/app/orchestrator/entity_extractor.py:292-311 | a text convenience field is empty exactly when no entity has its type, and otherwise it is the text of the first entity of that type |
| EntityExtraction.AmountOf | MoneyOps/ai-gateway/app/orchestrator/entity_extractor.py:286-290 | the amount of an AMOUNT entity is its non-zero normalised value, or else its value read as a decimal; it has no contract of its own, and FirstOfIsFirst states how the first such amount is chosen |
| EntityExtraction.ConfidenceSumBounds | MoneyOps/ai-gateway/app/orchestrator/entity_extractor.py:313 | with valid confidences the sum lies between 0 and the number of entities |
| EntityExtraction.ResponseScoreBounds | MoneyOps/ai-gateway/app/orchestrator/entity_extractor.py:313-328 | with valid confidences the score lies in [0, 1]; the response holds every entity and counts them all |
| EntityExtraction.Truncated | MoneyOps/ai-gateway/app/orchestrator/entity_extractor.py:72-74 | the model's entities kept are a prefix of them: all of them when the limit is 0 or not exceeded, exactly `limit` when a positive limit is exceeded, and Python's negative slice for a negative limit |
| EntityExtraction.CallLlm | MoneyOps/ai-gateway/app/orchestrator/entity_extractor.py:62-66 | the model is asked when that is forced, when the intent is complex or strategic, or when the regular expressions found nothing; it has no contract of its own, and ExtractedList states what follows when it is not asked |
| EntityExtraction.ExtractedList | MoneyOps/ai-gateway/app/orchestrator/entity_extractor.py:50-77 | the regular-expression entities always come first and are all kept; without a model call, or when it fails, they are all there is; a positive limit bounds what the model adds |
| EntityExtraction.Extract | MoneyOps/ai-gateway/app/orchestrator/entity_extractor.py:43-83 | the result is the response built from the regular-expression entities followed by the model's kept entities |
| EntityExtraction.ExtractedScoreBounds | MoneyOps/ai-gateway/app/orchestrator/entity_extractor.py:43-83 | with valid regular-expression entities, every extracted entity is valid and the score lies in [0, 1] |
| IntentClassifying.PatternConfidence | MoneyOps/ai-gateway/app/orchestrator/intent_classifier.py:189 | a pattern's confidence lies in [0.85, 0.95]: 0.95 exactly for patterns longer than twenty characters, 0.85 exactly for those of at most fifteen |
| IntentClassifying.FirstHitIn | MoneyOps/ai-gateway/app/orchestrator/intent_classifier.py:184-193 | a hit within one intent's patterns names that intent and a pattern of its list that the search finds, with a confidence in [0.85, 0.95] |
| IntentClassifying.FirstHit | MoneyOps/ai-gateway/app/orchestrator/intent_classifier.py:179-195 | a hit of the table search names a pattern that the search finds in the text, with a confidence in [0.85, 0.95] |
| IntentClassifying.FirstHitInIsFirst | MoneyOps/ai-gateway/app/orchestrator/intent_classifier.py:184-193 | within one intent there is no hit exactly when no pattern is found, and otherwise the hit is the first pattern found, in list order |
| IntentClassifying.FirstHitIsFirst | MoneyOps/ai-gateway/app/orchestrator/intent_classifier.py:179-195 | the search returns nothing exactly when no pattern of any intent is found, and otherwise the first pattern found in table order, intent by intent |
| IntentClassifying.PatternClassify | MoneyOps/ai-gateway/app/orchestrator/intent_classifier.py:179-195 | `_pattern_classify` returns the first hit in table order over the lower-cased, stripped input (nothing counts as empty), skipping patterns that do not compile |
| IntentClassifying.SearchTable | MoneyOps/ai-gateway/app/orchestrator/intent_classifier.py:183-195 | the outer loop returns the first hit in table order |
| IntentClassifying.SearchPatterns | MoneyOps/ai-gateway/app/orchestrator/intent_classifier.py:184-193 | the inner loop returns the first of one intent's patterns that is found, or nothing |
| IntentClassifying.FromPattern | MoneyOps/ai-gateway/app/orchestrator/intent_classifier.py:148-165 | a pattern hit gives its intent and confidence, routed as the requirements table says, with no confirmation, no several turns, not a follow-up, and the model `pattern_matching` |
| IntentClassifying.LastIntent | MoneyOps/ai-gateway/app/orchestrator/intent_classifier.py:364-367 | a last intent is read only from the last turn of the history, when that turn's intent field names a member |
| IntentClassifying.AdjustConfidence | MoneyOps/ai-gateway/app/orchestrator/intent_classifier.py:355-375 | the adjusted confidence always lies in the unit interval |
| IntentClassifying.AdjustMonotone | MoneyOps/ai-gateway/app/orchestrator/intent_classifier.py:355-375 | a higher reported confidence never yields a lower adjusted one |
| IntentClassifying.AdjustStrategicCap | MoneyOps/ai-gateway/app/orchestrator/intent_classifier.py:371-373 | a strategic intent reported with a confidence of at most one is adjusted to at most 0.9 |
| IntentClassifying.AdjustNeutralAndBonus | MoneyOps/ai-gateway/app/orchestrator/intent_classifier.py:364-369 | for a non-strategic intent and a confidence up to 0.9, the confidence is kept without a previous intent of the same category and raised by exactly 0.1 with one |
| IntentClassifying.FallbackAgreesWithTable | MoneyOps/ai-gateway/app/orchestrator/intent_classifier.py:343-353 | the fallback classification routes `GENERAL_QUERY` the way the requirements table does |
| IntentClassifying.ReadReply | MoneyOps/ai-gateway/app/orchestrator/intent_classifier.py:298-318 | a reply is used exactly when it could be read, names a member of the enum and gives a confidence that is a number or none at all; the intent used is the one it names |
| IntentClassifying.FromReply | MoneyOps/ai-gateway/app/orchestrator/intent_classifier.py:314-341 | a usable reply is classified under the intent it names, by `groq-llm`, with a confidence in the unit interval |
| IntentClassifying.ParseLlmResponse | MoneyOps/ai-gateway/app/orchestrator/intent_classifier.py:292-353 | the model is `fallback` exactly when the reply is unusable, and then the intent is `GENERAL_QUERY` with confidence 0.5; the confidence always lies in the unit interval |
| IntentClassifying.UsableReplyClassification | MoneyOps/ai-gateway/app/orchestrator/intent_classifier.py:314-341 | a usable reply gives the intent it names; the reported confidence (0.6 when missing) is adjusted; the confirmation flag comes from the table; several turns are needed for more than three required entities or a complex or strategic intent; the previous intent is given only for a follow-up |
| IntentClassifying.ParsedRoutedByTable | MoneyOps/ai-gateway/app/orchestrator/intent_classifier.py:292-353 | whatever the reply, the classification is routed as the requirements table says |
| IntentClassifying.ClassifyAsWritten | MoneyOps/ai-gateway/app/orchestrator/intent_classifier.py:134-145 | as written, `classify` raises NameError on its first logging call, because `logger` is never defined in the module (its imports are at lines 5-21); no call returns a classification |
| IntentClassifying.ClassifiedByHitOrReply | MoneyOps/ai-gateway/app/orchestrator/intent_classifier.py:143-177 | a pattern hit is always used, with HIGH confidence; without one the model's reply is read; either way the result is routed by the table and its confidence lies in the unit interval |
| IntentClassifying.PatternHitTrusted | MoneyOps/ai-gateway/app/orchestrator/intent_classifier.py:148-165 | a pattern hit is classified with HIGH confidence and routed by the table |
| IntentClassifying.ClassifyOutcomeCases | MoneyOps/ai-gateway/app/orchestrator/intent_classifier.py:134-177 | once the search and the model have answered: a pattern hit is always used; a decoded reply gives the classification `Classified` describes; the call fails exactly when no pattern hits and the model's content is not JSON, and then with the client's message "Failed to parse JSON from LLM: ..." (groq_client.py lines 102-110) |
| IntentClassifying.Classify | MoneyOps/ai-gateway/app/orchestrator/intent_classifier.py:134-177 | as intended: the result is the outcome ClassifyOutcomeCases describes for the first pattern hit of the prepared input and the model's answer; the client's `ValueError` escapes `classify` exactly when no pattern hits and the content is not JSON, because the model is asked outside the `try` of `_parse_llm_response` |
| Tools.ReprQuote | MoneyOps/ai-gateway/app/tools/tool_registry.py:113 | `repr` quotes a string with double quotes exactly when it holds a single quote and no double quote, and with single quotes otherwise |
| Tools.HexRoundTrip | MoneyOps/ai-gateway/app/tools/tool_registry.py:113 | a hexadecimal digit that `repr` writes reads back as its value |
| Tools.CharReprReadBack | MoneyOps/ai-gateway/app/tools/tool_registry.py:113 | one character as `repr` escapes it inside the chosen quotes reads back as that character, followed by the rest |
| Tools.EscapedReadsBack | MoneyOps/ai-gateway/app/tools/tool_registry.py:113 | every string is read back exactly from the inside of its `repr`, whichever quote surrounds it, so the enum values in the message are unambiguous |
| Tools.PlainStrRepr | MoneyOps/ai-gateway/app/tools/tool_registry.py:113 | a string of printable characters without quotes or backslashes is printed between single quotes as it is |
| Tools.PlainEscaped | MoneyOps/ai-gateway/app/tools/tool_registry.py:113 | such a string needs no escape inside single quotes |
| Tools.ApostropheRepr | MoneyOps/ai-gateway/app/tools/tool_registry.py:113 | the enum value "it's" is printed as "it's" between double quotes |
| Tools.Select | MoneyOps/ai-gateway/app/tools/tool_registry.py:76 | a list comprehension with a condition keeps, in order, exactly the elements that meet it |
| Tools.ToolsIn | MoneyOps/ai-gateway/app/tools/tool_registry.py:76 | the tools listed are exactly the tools registered under the names in the order |
| Tools.FirstMissing | MoneyOps/ai-gateway/app/tools/tool_registry.py:101-104 | the parameter reported missing is the first declared one that is required and not given; none is reported exactly when every required parameter is given |
| Tools.FirstNotAllowed | MoneyOps/ai-gateway/app/tools/tool_registry.py:106-113 | the parameter reported is the first declared one that is given a value outside its non-empty enum, by Python's `in`; none exactly when every given value with an enum is in it |
| Tools.ValidateAgainst | MoneyOps/ai-gateway/app/tools/tool_registry.py:101-115 | a call passes exactly when every required parameter is given and every given value with a non-empty enum is in it; an enum error is reported only when no required parameter is missing |
| Tools.InfoOf | MoneyOps/ai-gateway/app/tools/tool_registry.py:221-239 | the description carries the tool's name, description, category, enabled and release flags, confirmation flag and time estimate, and for each parameter, in order, its name, type, description, required flag and default |
| Tools.InfoOfForgetsOnlyHandlerAndEnums | MoneyOps/ai-gateway/app/tools/tool_registry.py:221-239 | two tools get the same description exactly when they differ only in their handlers and their parameters' enums |
| Tools.ToolRegistry.constructor | MoneyOps/ai-gateway/app/tools/tool_registry.py:53-55 | a new registry holds no tools |
| Tools.ToolRegistry.RegisterTool | MoneyOps/ai-gateway/app/tools/tool_registry.py:57-63 | the tool is stored under its name, replacing any tool of that name; a new name goes to the end of the order and a known one keeps its place |
| Tools.ToolRegistry.RegisterTools | MoneyOps/ai-gateway/app/tools/tool_registry.py:65-68 | the table and the order are those after registering each tool in turn |
| Tools.ToolRegistry.GetTool | MoneyOps/ai-gateway/app/tools/tool_registry.py:70-72 | a tool is found exactly when its name is registered, and it is the tool of that name |
| Tools.ToolRegistry.EnabledTools | MoneyOps/ai-gateway/app/tools/tool_registry.py:74-76 | exactly the registered tools that are enabled |
| Tools.ToolRegistry.MvpTools | MoneyOps/ai-gateway/app/tools/tool_registry.py:78-80 | exactly the registered tools that are enabled and ready for the first release |
| Tools.ToolRegistry.ToolsByCategory | MoneyOps/ai-gateway/app/tools/tool_registry.py:82-84 | exactly the registered tools that are enabled and in the category |
| Tools.ToolRegistry.ListTools | MoneyOps/ai-gateway/app/tools/tool_registry.py:209-213 | every name in registration order, or exactly the names of enabled tools when only those are asked for |
| Tools.ToolRegistry.GetToolInfo | MoneyOps/ai-gateway/app/tools/tool_registry.py:215-239 | a description exists exactly for a registered name, and it is the description of the tool registered under it (InfoOf), listing each of its parameters in order |
| Tools.ToolRegistry.ValidateParameters | MoneyOps/ai-gateway/app/tools/tool_registry.py:86-115 | the call is valid exactly when no message is given; an unknown tool gives "Tool '<name>' not found"; for a registered tool the call is valid exactly when it passes the parameter checks |
| Tools.ToolRegistry.ExecuteTool | MoneyOps/ai-gateway/app/tools/tool_registry.py:117-207 | the execution succeeds exactly when the tool is registered, enabled, passes the parameter checks, has a handler and the handler returns; a success carries the handler's result and no error, a failure an error and no result |
| Tools.OrderTracksTools | MoneyOps/ai-gateway/app/tools/tool_registry.py:57-68 | registering tools keeps the order and the table holding the same names |
| Tools.RegisteredTools | MoneyOps/ai-gateway/app/tools/tool_registry.py:74-84 | in a valid registry the listed tools are exactly the tools of the table |
| Tools.SecondRegistrationWins | MoneyOps/ai-gateway/app/tools/tool_registry.py:57-63 | registering a name twice keeps the second tool, in the place the first one took |
| Tools.FailedChecksSkipHandler | MoneyOps/ai-gateway/app/tools/tool_registry.py:137-168 | when the tool is missing or disabled, fails the parameter checks or has no handler, the handler is never called, the execution fails and no time is reported |
| Tools.ExecutionCheckOrder | MoneyOps/ai-gateway/app/tools/tool_registry.py:137-168 | the checks run in order, each with its own message: "Tool <name> not found", "Tool '<name> is disabled", the parameter message, and "has no handler function" |
| Tools.HandlerErrorReported | MoneyOps/ai-gateway/app/tools/tool_registry.py:193-207 | a handler that raises gives a failure carrying its message and the elapsed time |
| Tools.MissingBeforeEnum | MoneyOps/ai-gateway/app/tools/tool_registry.py:101-113 | a missing required parameter is reported even when another parameter breaks its enum |
| Tools.PyInExamples | MoneyOps/ai-gateway/app/tools/tool_registry.py:112 | Python's `in` holds for True in [1] and not for "1" in [1] |
| Sessions.SliceFrom | MoneyOps/voice-service/app/agent/session.py:49 | Python's `s[start:]`: a suffix of the sequence, with a negative start counted from the end and both ends clamped |
| Sessions.LastN | MoneyOps/voice-service/app/agent/session.py:49 | the newest `n` turns, or all of them when there are fewer |
| Sessions.SliceFromNegative | MoneyOps/voice-service/app/agent/session.py:49 | for a positive count, `s[-n:]` is exactly the newest `n` elements |
| Sessions.TruncatedBound | MoneyOps/voice-service/app/agent/session.py:48-49 | with a positive limit, truncation keeps the newest `max` turns and never more |
| Sessions.Truncated | MoneyOps/voice-service/app/agent/session.py:48-49 | truncation keeps the newest turns: the result is a suffix of the history, the whole history when it fits, and exactly `max` turns for a positive limit that is exceeded |
| Sessions.AddedTurn | MoneyOps/voice-service/app/agent/session.py:29-49 | a repeat of the last turn (same role and text) leaves the history as it was; any other turn is appended, and with a positive limit the result is the newest `max` turns ending with the new one |
| Sessions.AddTurnRepeatIsDropped | MoneyOps/voice-service/app/agent/session.py:31-34 | adding the same role and text twice in a row gives the same history as adding it once |
| Sessions.RecentContextZeroIsEverything | MoneyOps/voice-service/app/agent/session.py:52 | as written, `history[-0:]` is the whole history, and a negative window drops the oldest turns instead of returning none |
| Sessions.RecentContextAsWritten | MoneyOps/voice-service/app/agent/session.py:52 | as written, `history[-max_turns:]` is always a suffix of the history: the newest `min(max_turns, len)` turns for a positive window, and the whole history for a window of zero |
| Sessions.RecentContext | MoneyOps/voice-service/app/agent/session.py:51-61 | as intended: exactly `min(max_turns, len)` turns, none for a window of zero or less, and always the newest ones |
| Sessions.RecentContextAgrees | MoneyOps/voice-service/app/agent/session.py:51-52 | the written and the intended window agree on every positive window |
| Sessions.ExpiryMonotone | MoneyOps/voice-service/app/agent/session.py:63-65 | a session that has expired stays expired as time goes on |
| Sessions.ExpiredAt | MoneyOps/voice-service/app/agent/session.py:63-65 | a session is expired when strictly more than the timeout has passed since it was last active; it has no contract of its own, and ExpiryMonotone states that expiry is permanent |
| Sessions.VoiceSession.IsExpired | MoneyOps/voice-service/app/agent/session.py:63-65 | `is_expired` at the instant the clock is read; it has no contract of its own and is ExpiredAt of the session's last activity |
| Sessions.VoiceSession.constructor | MoneyOps/voice-service/app/agent/session.py:19-27 | a new session has the given ids, starts and was last active now, with an empty history |
| Sessions.VoiceSession.AddTurn | MoneyOps/voice-service/app/agent/session.py:29-49 | the history becomes the de-duplicated, truncated history, and the activity time moves to now exactly when the turn is kept |
| Sessions.VoiceSession.GetRecentContext | MoneyOps/voice-service/app/agent/session.py:51-61 | the newest `max_turns` turns for a positive window; as written, a window of zero or less returns the history from index `-max_turns` on, which is all of it for zero |
| Sessions.SessionManager.constructor | MoneyOps/voice-service/app/agent/session.py:70-71 | a manager starts with no sessions |
| Sessions.SessionManager.CreateSession | MoneyOps/voice-service/app/agent/session.py:73-86 | a fresh session with the given ids and an empty history is registered under its id and found by `get_session`; the other sessions stay |
| Sessions.SessionManager.GetSession | MoneyOps/voice-service/app/agent/session.py:88-89 | the session registered under the id, or none when there is none |
| Sessions.SessionManager.ExpiredIds | MoneyOps/voice-service/app/agent/session.py:92-95 | an id is collected exactly when its session is registered and expired at the instant read while that session is checked |
| Sessions.SessionManager.ExpiredWhenStarted | MoneyOps/voice-service/app/agent/session.py:91-95 | however late each session's own clock reading comes, every session already expired when the sweep starts is collected |
| Sessions.SessionManager.CleanupExpiredSessions | MoneyOps/voice-service/app/agent/session.py:91-100 | exactly the sessions expired at their own clock readings are removed, every other session stays under its id, and the number removed is returned |
| Invoices.ParseStatus | ledgertalk/backend/src/main/java/com/ledgertalk/invoices/mapper/InvoiceMapper.java:47 | `InvoiceStatus.valueOf` succeeds exactly for DRAFT, SENT, PAID and OVERDUE, giving the status of that name; a missing or unknown name raises |
| Invoices.StatusNameRoundTrip | ledgertalk/backend/src/main/java/com/ledgertalk/invoices/mapper/InvoiceMapper.java:25-47 | a status written into the dto by name reads back as the same status |
| Invoices.ParseItemType | ledgertalk/backend/src/main/java/com/ledgertalk/invoices/service/InvoiceService.java:145 | `ItemType.valueOf` succeeds exactly for PRODUCT and SERVICE, giving the type of that name |
| Invoices.ItemTypeNameRoundTrip | ledgertalk/backend/src/main/java/com/ledgertalk/invoices/mapper/InvoiceMapper.java:64-78 | an item type written into the dto by name reads back as the same type |
| Invoices.LineFor | ledgertalk/backend/src/main/java/com/ledgertalk/invoices/service/InvoiceService.java:153-155 | a line's total is its subtotal plus its tax, and the tax is the subtotal times the GST percentage over a hundred |
| Invoices.LineForTotal | ledgertalk/backend/src/main/java/com/ledgertalk/invoices/service/InvoiceService.java:152-155 | a line totals rate times quantity times one plus the GST percentage over a hundred; with a positive rate and quantity and a tax that is not negative, the subtotal is positive and at most the total |
| Invoices.PricedQuantity | ledgertalk/backend/src/main/java/com/ledgertalk/invoices/service/InvoiceService.java:152 | a SERVICE line counts one unit and a PRODUCT line its quantity |
| Invoices.SumsSnoc | ledgertalk/backend/src/main/java/com/ledgertalk/invoices/service/InvoiceService.java:226-230 | the running sums grow by exactly the amounts of the line added |
| Invoices.SumsConsistent | ledgertalk/backend/src/main/java/com/ledgertalk/invoices/service/InvoiceService.java:219-234 | totals summed from lines whose totals are subtotal plus tax are themselves subtotal plus tax |
| Invoices.SumsAppend | ledgertalk/backend/src/main/java/com/ledgertalk/invoices/service/InvoiceService.java:226-230 | the sums over two runs of lines add up |
| Invoices.SendStatus | ledgertalk/backend/src/main/java/com/ledgertalk/invoices/service/InvoiceService.java:99-103 | sending succeeds exactly from DRAFT, and leads to SENT |
| Invoices.PayStatus | ledgertalk/backend/src/main/java/com/ledgertalk/invoices/service/InvoiceService.java:113-117 | marking paid succeeds exactly from SENT, and leads to PAID |
| Invoices.SweepIsStep | ledgertalk/backend/src/main/java/com/ledgertalk/invoices/service/InvoiceService.java:124-131 | the overdue sweep changes a status only by a step the service can make, and sweeping twice is sweeping once |
| Invoices.PaidIsFinal | ledgertalk/backend/src/main/java/com/ledgertalk/invoices/service/InvoiceService.java:84-131 | a PAID invoice is final: no step leaves it, it cannot be edited or deleted, and the sweep never touches it |
| Invoices.PaidOnlyFromSent | ledgertalk/backend/src/main/java/com/ledgertalk/invoices/service/InvoiceService.java:61-122 | only a SENT invoice can be marked paid, or a DRAFT updated to PAID; an OVERDUE invoice cannot be sent, paid or edited |
| Invoices.OverdueIsFinal | ledgertalk/backend/src/main/java/com/ledgertalk/invoices/service/InvoiceService.java:61-131 | along any sequence of steps an OVERDUE invoice stays OVERDUE, so it is never paid |
| InvoiceValidation.ItemError | ledgertalk/backend/src/main/java/com/ledgertalk/invoices/validator/InvoiceValidator.java:39-53 | an item passes exactly when it has a non-empty description, a positive rate, a tax that is not negative, no quantity if it is a SERVICE and a positive quantity if it is a PRODUCT; a missing description is reported first |
| InvoiceValidation.ItemsError | ledgertalk/backend/src/main/java/com/ledgertalk/invoices/validator/InvoiceValidator.java:37-55 | the items pass exactly when every item passes, and the first item's failure is the one reported |
| InvoiceValidation.PricedLine | ledgertalk/backend/src/main/java/com/ledgertalk/invoices/validator/InvoiceValidator.java:63-66 | an item prices exactly when its type, its rate, its tax and (unless it is a SERVICE) its quantity are present; a SERVICE counts one unit, any other type its quantity |
| InvoiceValidation.ValidItemPrices | ledgertalk/backend/src/main/java/com/ledgertalk/invoices/validator/InvoiceValidator.java:39-66 | an item that passed the checks and is a SERVICE or a PRODUCT always prices, to a positive subtotal no larger than its total |
| InvoiceValidation.UnknownTypeWithoutQuantityRaises | ledgertalk/backend/src/main/java/com/ledgertalk/invoices/validator/InvoiceValidator.java:48-63 | the checks let through an item whose type is neither SERVICE nor PRODUCT and has no quantity, and pricing it raises |
| InvoiceValidation.FirstUnpriceable | ledgertalk/backend/src/main/java/com/ledgertalk/invoices/validator/InvoiceValidator.java:62-75 | the pricing loop stops at the first item that cannot be priced, every earlier item having priced |
| InvoiceValidation.PricedItems | ledgertalk/backend/src/main/java/com/ledgertalk/invoices/validator/InvoiceValidator.java:62-70 | pricing writes each item's line amounts into it and changes nothing else |
| InvoiceValidation.Lines | ledgertalk/backend/src/main/java/com/ledgertalk/invoices/validator/InvoiceValidator.java:62-70 | each item's line is the one it prices to, and its total is its subtotal plus its tax |
| InvoiceValidation.InvoiceDto.constructor | ledgertalk/backend/src/main/java/com/ledgertalk/invoices/validator/InvoiceValidator.java:14 | a new dto holds the fields given, with no id, totals or payment date |
| InvoiceValidation.InvoiceDto.HeaderError | ledgertalk/backend/src/main/java/com/ledgertalk/invoices/validator/InvoiceValidator.java:15-32 | the header passes exactly when the invoice number is non-empty, client, issue and due dates are present, the due date is not before the issue date and there is at least one item; a missing number is reported first |
| InvoiceValidation.InvoiceDto.ExpectedError | ledgertalk/backend/src/main/java/com/ledgertalk/invoices/validator/InvoiceValidator.java:14-35 | validation succeeds exactly when the header passes, every item passes and every item prices |
| InvoiceValidation.InvoiceDto.CalculateTotals | ledgertalk/backend/src/main/java/com/ledgertalk/invoices/validator/InvoiceValidator.java:57-80 | on success every item carries its line and the dto carries the sums of the lines; on a raise the items before the failing one are priced, the rest untouched and the totals unchanged |
| InvoiceValidation.InvoiceDto.Validate | ledgertalk/backend/src/main/java/com/ledgertalk/invoices/validator/InvoiceValidator.java:14-35 | reports exactly the expected error; a header or item failure leaves the dto unchanged, and success writes the lines and their sums |
| InvoiceValidation.PriceItems | ledgertalk/backend/src/main/java/com/ledgertalk/invoices/validator/InvoiceValidator.java:62-75 | the loop stops at the first unpriceable item, with the items before it priced and the sums over their lines |
| InvoiceValidation.FirstUnpriceableAt | ledgertalk/backend/src/main/java/com/ledgertalk/invoices/validator/InvoiceValidator.java:62-75 | the loop's stopping point is the first item that raises |
| InvoiceValidation.FirstUnpriceableAll | ledgertalk/backend/src/main/java/com/ledgertalk/invoices/validator/InvoiceValidator.java:62-75 | when every item prices the loop runs to the end |
| InvoiceValidation.PricedStep | ledgertalk/backend/src/main/java/com/ledgertalk/invoices/validator/InvoiceValidator.java:62-75 | one more priced item extends the priced prefix and adds its line to each running sum |
| InvoiceValidation.ValidatedTotalsAddUp | ledgertalk/backend/src/main/java/com/ledgertalk/invoices/validator/InvoiceValidator.java:72-79 | after validation the invoice total is its subtotal plus its tax total |
| InvoiceStore.ItemsOf | ledgertalk/backend/src/main/java/com/ledgertalk/invoices/repository/InvoiceItemRepository.java:12 | an invoice's items are rows of the table that belong to it, and an invoice with no rows has none |
| InvoiceStore.ItemsOfFromTable | ledgertalk/backend/src/main/java/com/ledgertalk/invoices/repository/InvoiceItemRepository.java:12 | every item found for an invoice is a row of the table |
| InvoiceStore.ItemsOfAppend | ledgertalk/backend/src/main/java/com/ledgertalk/invoices/repository/InvoiceItemRepository.java:12 | looking up an invoice's items in two runs of rows gives the items of the first run, then those of the second |
| InvoiceStore.ItemsOfAllMatch | ledgertalk/backend/src/main/java/com/ledgertalk/invoices/repository/InvoiceItemRepository.java:12 | when every row belongs to the invoice, all of them are its items |
| InvoiceStore.RemoveItemsOf | ledgertalk/backend/src/main/java/com/ledgertalk/invoices/repository/InvoiceItemRepository.java:14 | deleting an invoice's items leaves only rows of the table that belong to other invoices |
| InvoiceStore.RemoveItemsOfKeepsOthers | ledgertalk/backend/src/main/java/com/ledgertalk/invoices/repository/InvoiceItemRepository.java:14 | deleting one invoice's items leaves every other invoice's items as they were |
| InvoiceStore.RemoveItemsOfNone | ledgertalk/backend/src/main/java/com/ledgertalk/invoices/repository/InvoiceItemRepository.java:14 | deleting the items of an invoice with no rows changes nothing |
| InvoiceStore.RemoveItemsOfEmpties | ledgertalk/backend/src/main/java/com/ledgertalk/invoices/repository/InvoiceItemRepository.java:14 | after deleting an invoice's items it has none |
| InvoiceStore.FindItem | ledgertalk/backend/src/main/java/com/ledgertalk/invoices/service/InvoiceService.java:170-171 | an item is found exactly when a row has its id, and the row found has that id |
| InvoiceStore.OwnNumberFree | ledgertalk/backend/src/main/java/com/ledgertalk/invoices/Invoice.java:18-19 | with the numbers unique, a stored invoice's own number is held by no other invoice |
| InvoiceStore.FreeNumberKeepsDistinct | ledgertalk/backend/src/main/java/com/ledgertalk/invoices/Invoice.java:18-19 | storing an invoice whose number no other invoice holds keeps every invoice number held by one invoice only |
| InvoiceStore.SameNumberKeepsDistinct | ledgertalk/backend/src/main/java/com/ledgertalk/invoices/Invoice.java:18-19 | replacing a stored invoice by one with the same number keeps the numbers unique |
| InvoiceStore.SameNumbersKeepDistinct | ledgertalk/backend/src/main/java/com/ledgertalk/invoices/Invoice.java:18-19 | dropping invoices, or changing anything about them but their numbers, keeps the numbers unique |
| InvoiceStore.StoredTotalsAddUp | ledgertalk/backend/src/main/java/com/ledgertalk/invoices/service/InvoiceService.java:219-234 | an invoice whose totals are summed from consistent lines totals its subtotal plus its tax |
| InvoiceStore.ReplaceInvoiceKeepsValid | ledgertalk/backend/src/main/java/com/ledgertalk/invoices/service/InvoiceService.java:61-81 | storing an invoice with a fresh set of items in place of its old ones, its totals summed from the new items, keeps every invoice's totals equal to the sums over its items |
| InvoiceStore.ReplacedItemsOf | ledgertalk/backend/src/main/java/com/ledgertalk/invoices/service/InvoiceService.java:78-80 | after the replacement the replaced invoice's items are the new ones and every other invoice keeps its own |
| InvoiceStore.DeleteInvoiceKeepsValid | ledgertalk/backend/src/main/java/com/ledgertalk/invoices/service/InvoiceService.java:84-92 | deleting an invoice together with its items keeps the store invariant |
| InvoiceStore.SameTotalsKeepsValid | ledgertalk/backend/src/main/java/com/ledgertalk/invoices/service/InvoiceService.java:95-122 | changing an invoice's status or dates while keeping its totals keeps the store invariant |
| InvoiceStore.RetotalKeepsValid | ledgertalk/backend/src/main/java/com/ledgertalk/invoices/service/InvoiceService.java:219-238 | recalculating one invoice's totals from its items after only its items changed restores the store invariant |
| InvoiceStore.AddItemKeepsValid | ledgertalk/backend/src/main/java/com/ledgertalk/invoices/service/InvoiceService.java:135-166 | appending a fresh item to an invoice and recalculating its totals keeps the store invariant |
| InvoiceStore.UpdateItemKeepsValid | ledgertalk/backend/src/main/java/com/ledgertalk/invoices/service/InvoiceService.java:169-199 | rewriting an item in place and recalculating its invoice's totals keeps the store invariant |
| InvoiceStore.DeleteItemKeepsValid | ledgertalk/backend/src/main/java/com/ledgertalk/invoices/service/InvoiceService.java:202-216 | removing an item and recalculating its invoice's totals keeps the store invariant |
| InvoiceStore.SweptStatus | MoneyOps/backend/src/main/java/com/moneyops/invoices/repository/InvoiceRepository.java:31-32 | the overdue sweep (the query `dueDate < today AND status NOT IN ('PAID')`, assumed from this MoneyOps repository because ledgertalk's own is not in the source) changes only statuses, only of the organisation's invoices, and only by the overdue step of the status machine |
| InvoiceStore.SweepIdempotent | MoneyOps/backend/src/main/java/com/moneyops/invoices/repository/InvoiceRepository.java:31-32 | with the assumed overdue query, sweeping twice is sweeping once, and after a sweep every matching invoice is OVERDUE |
| InvoiceStore.SweepKeepsValid | ledgertalk/backend/src/main/java/com/ledgertalk/invoices/service/InvoiceService.java:124-131 | the sweep keeps the store invariant |
| InvoiceStore.CreateKeepsValid | ledgertalk/backend/src/main/java/com/ledgertalk/invoices/service/InvoiceService.java:47-58 | a new invoice under a fresh id, with fresh items whose sums are its totals, keeps the store invariant and its items are exactly the new ones |
| InvoiceStore.AppendSums | ledgertalk/backend/src/main/java/com/ledgertalk/invoices/service/InvoiceService.java:219-230 | appending a row to an invoice adds the row's line to each of the invoice's sums |
| InvoiceStore.RewriteSums | ledgertalk/backend/src/main/java/com/ledgertalk/invoices/service/InvoiceService.java:181-199 | rewriting a row moves each of its invoice's sums by the difference of the two lines |
| InvoiceStore.RemoveSums | ledgertalk/backend/src/main/java/com/ledgertalk/invoices/service/InvoiceService.java:213-216 | removing a row takes its line off each of its invoice's sums |
| InvoiceServices.ToItem | ledgertalk/backend/src/main/java/com/ledgertalk/invoices/mapper/InvoiceMapper.java:75-87 | an item maps to an entity exactly when its type name is known, keeping its line amounts; an unknown name raises with the parser's error |
| InvoiceServices.ToItemDto | ledgertalk/backend/src/main/java/com/ledgertalk/invoices/mapper/InvoiceMapper.java:62-73 | an entity maps to a dto item that carries its line amounts and whose type name reads back as its type |
| InvoiceServices.ItemDtoRoundTrip | ledgertalk/backend/src/main/java/com/ledgertalk/invoices/mapper/InvoiceMapper.java:62-87 | a priced dto item mapped to an entity and back is the same dto item |
| InvoiceServices.ItemRoundTrip | ledgertalk/backend/src/main/java/com/ledgertalk/invoices/mapper/InvoiceMapper.java:62-87 | an entity mapped to a dto item and back is the same entity |
| InvoiceServices.ToItems | ledgertalk/backend/src/main/java/com/ledgertalk/invoices/mapper/InvoiceMapper.java:54-58 | the items of a dto map exactly when every type name is known, one entity per dto item in order under consecutive ids |
| InvoiceServices.PricedItemsBecomeFresh | ledgertalk/backend/src/main/java/com/ledgertalk/invoices/mapper/InvoiceMapper.java:54-58 | the items validation has priced map, when their types are known, to fresh items carrying the validated lines |
| InvoiceServices.NewItemsMatch | ledgertalk/backend/src/main/java/com/ledgertalk/invoices/service/InvoiceService.java:47-57 | the totals validation wrote are the sums over the lines of the mapped items |
| InvoiceServices.ToEntity | ledgertalk/backend/src/main/java/com/ledgertalk/invoices/mapper/InvoiceMapper.java:40-53 | a validated dto maps exactly when its status name is known, keeping its invoice number and totals and taking the id, organisation and stamps the service sets |
| InvoiceServices.PriceItem | ledgertalk/backend/src/main/java/com/ledgertalk/invoices/service/InvoiceService.java:151-155 | an added or rewritten item prices exactly when its quantity (unless a SERVICE), rate and tax are present, to a line whose total is subtotal plus tax and whose tax is the subtotal times the percentage over a hundred; a missing amount raises |
| InvoiceServices.PriceItemAsValidated | ledgertalk/backend/src/main/java/com/ledgertalk/invoices/service/InvoiceService.java:151-155 | an item priced on its own gets the same line as validation gives it inside a whole invoice |
| InvoiceServices.Retotal | ledgertalk/backend/src/main/java/com/ledgertalk/invoices/service/InvoiceService.java:219-238 | the recalculated invoice carries the sums over its items and the time of the change, and nothing else about it moves |
| InvoiceServices.ShiftedTotals | ledgertalk/backend/src/main/java/com/ledgertalk/invoices/service/InvoiceService.java:219-234 | when an invoice's item sums move by the change from one line to another, its recalculated totals move by the same change |
| InvoiceServices.AddItemOutcome | ledgertalk/backend/src/main/java/com/ledgertalk/invoices/service/InvoiceService.java:160-163 | after an item is appended the recalculated totals are the old totals plus its line, and the store invariant holds |
| InvoiceServices.UpdateItemOutcome | ledgertalk/backend/src/main/java/com/ledgertalk/invoices/service/InvoiceService.java:196-199 | after an item is rewritten the recalculated totals move from its old line to its new one, and the store invariant holds |
| InvoiceServices.DeleteItemOutcome | ledgertalk/backend/src/main/java/com/ledgertalk/invoices/service/InvoiceService.java:213-216 | after an item is removed the recalculated totals lose its line, and the store invariant holds |
| InvoiceServices.Appended | ledgertalk/backend/src/main/java/com/ledgertalk/invoices/service/InvoiceService.java:160-163 | recalculating after an append puts the new line on the invoice's totals and keeps the store invariant |
| InvoiceServices.Rewritten | ledgertalk/backend/src/main/java/com/ledgertalk/invoices/service/InvoiceService.java:196-199 | recalculating after a rewrite replaces the old line by the new one in the invoice's totals and keeps the store invariant |
| InvoiceServices.Removed | ledgertalk/backend/src/main/java/com/ledgertalk/invoices/service/InvoiceService.java:213-216 | recalculating after a removal takes the line off the invoice's totals and keeps the store invariant |
| InvoiceServices.IdsOfSnoc | ledgertalk/backend/src/main/java/com/ledgertalk/invoices/service/InvoiceService.java:124-131 | listing one more invoice adds its id to the ids listed |
| InvoiceServices.SweepStep | ledgertalk/backend/src/main/java/com/ledgertalk/invoices/service/InvoiceService.java:126-130 | marking one more pending match overdue extends the part of the sweep already done |
| InvoiceServices.Sweep | ledgertalk/backend/src/main/java/com/ledgertalk/invoices/service/InvoiceService.java:124-131 | the sweep loop leaves the table as the overdue sweep does and lists every marked invoice once, as stored after marking |
| InvoiceServices.InvoiceService.constructor | ledgertalk/backend/src/main/java/com/ledgertalk/invoices/service/InvoiceService.java:35 | a new service has no invoices and no items |
| InvoiceServices.InvoiceService.Lookup | ledgertalk/backend/src/main/java/com/ledgertalk/invoices/service/InvoiceService.java:42-43 | an invoice is found exactly when it is stored and belongs to the organisation; otherwise "Invoice not found" |
| InvoiceServices.InvoiceService.GetInvoiceById | ledgertalk/backend/src/main/java/com/ledgertalk/invoices/service/InvoiceService.java:41-45 | the invoice is returned exactly when it belongs to the organisation, with totals that add up and only items of its own |
| InvoiceServices.InvoiceService.CreateInvoice | ledgertalk/backend/src/main/java/com/ledgertalk/invoices/service/InvoiceService.java:47-58 | creation clears the dto's id and succeeds exactly when validation passes, every name is known and no stored invoice already holds the invoice number; a number already held is refused by `save` (the unique `invoiceNumber` column, ledgertalk/backend/src/main/java/com/ledgertalk/invoices/Invoice.java lines 18-19) and stores nothing; a validation failure is reported as is and stores nothing; success stores the mapped invoice under a new id with fresh items carrying the validated lines |
| InvoiceServices.InvoiceService.InsertNew | ledgertalk/backend/src/main/java/com/ledgertalk/invoices/service/InvoiceService.java:51-57 | storing a validated invoice succeeds exactly when its item types are known and its number is held by no stored invoice, a held number giving the duplicate-key error; success adds it under the next id with fresh items |
| InvoiceServices.InvoiceService.StoreNew | ledgertalk/backend/src/main/java/com/ledgertalk/invoices/service/InvoiceService.java:57 | saving a new invoice whose number no stored invoice holds adds it under the next id with its items after it, keeping the store invariant and the distinct invoice numbers |
| InvoiceServices.InvoiceService.GetAllInvoices | ledgertalk/backend/src/main/java/com/ledgertalk/invoices/service/InvoiceService.java:35-39 | the listing holds exactly the invoices of the organisation |
| InvoiceServices.InvoiceService.UpdateInvoice | ledgertalk/backend/src/main/java/com/ledgertalk/invoices/service/InvoiceService.java:61-82 | an invoice of another organisation is not found and a non-draft is refused, both changing nothing; otherwise the update succeeds exactly when validation passes, every name is known and no other invoice holds the new number (a held number is refused by `save` with the duplicate-key error and, the call being transactional, changes nothing), keeping id, organisation and creation stamp and replacing the invoice's items with the validated ones |
| InvoiceServices.InvoiceService.ReplaceExisting | ledgertalk/backend/src/main/java/com/ledgertalk/invoices/service/InvoiceService.java:71-80 | storing a validated replacement succeeds exactly when its item types are known and no other invoice holds its number, a held number giving the duplicate-key error; success replaces the invoice and its items |
| InvoiceServices.InvoiceService.StoreReplacing | ledgertalk/backend/src/main/java/com/ledgertalk/invoices/service/InvoiceService.java:79-80 | the invoice's old items are deleted, the new ones appended under fresh ids, and the store invariant and the distinct invoice numbers hold |
| InvoiceServices.InvoiceService.DeleteInvoice | ledgertalk/backend/src/main/java/com/ledgertalk/invoices/service/InvoiceService.java:84-93 | deletion succeeds exactly for an invoice of the organisation that is not PAID, removing it and its items; otherwise "Invoice not found" or "Cannot delete paid invoices" with nothing changed |
| InvoiceServices.InvoiceService.SendInvoice | ledgertalk/backend/src/main/java/com/ledgertalk/invoices/service/InvoiceService.java:95-107 | sending succeeds exactly for a DRAFT of the organisation, which becomes SENT at the given time; otherwise nothing changes |
| InvoiceServices.InvoiceService.MarkPaid | ledgertalk/backend/src/main/java/com/ledgertalk/invoices/service/InvoiceService.java:109-122 | marking paid succeeds exactly for a SENT invoice of the organisation, which becomes PAID with today as payment date; otherwise nothing changes |
| InvoiceServices.InvoiceService.Save | ledgertalk/backend/src/main/java/com/ledgertalk/invoices/service/InvoiceService.java:128 | saving an invoice with unchanged totals and number replaces it and keeps the store invariant and the distinct invoice numbers |
| InvoiceServices.InvoiceService.GetOverdueInvoices | ledgertalk/backend/src/main/java/com/ledgertalk/invoices/service/InvoiceService.java:124-132 | every invoice of the organisation past due and not PAID (the assumed `findOverdueByOrgId` query of the MoneyOps repository, lines 31-32) is marked OVERDUE, nothing else changes, and each marked invoice is listed once as stored |
| InvoiceServices.InvoiceService.AddItem | ledgertalk/backend/src/main/java/com/ledgertalk/invoices/service/InvoiceService.java:135-167 | an item is added exactly to a DRAFT of the organisation when its type is known and it prices, under the next id; the invoice's totals grow by its line; otherwise "Invoice not found", "Can only add items to draft invoices" or a raise, with nothing changed |
| InvoiceServices.InvoiceService.AppendItem | ledgertalk/backend/src/main/java/com/ledgertalk/invoices/service/InvoiceService.java:159-163 | the item is appended under the next id and its line added to its invoice's totals |
| InvoiceServices.InvoiceService.DraftItem | ledgertalk/backend/src/main/java/com/ledgertalk/invoices/service/InvoiceService.java:169-179 | an item passes the guards when it exists, its invoice belongs to the organisation and is a DRAFT; the failures are reported in that order |
| InvoiceServices.InvoiceService.UpdateItem | ledgertalk/backend/src/main/java/com/ledgertalk/invoices/service/InvoiceService.java:169-200 | after the guards the item takes the new description, quantity, rate and tax, keeps its type, is priced again, and its invoice's totals move from the old line to the new one; a failure changes nothing |
| InvoiceServices.InvoiceService.RewriteItem | ledgertalk/backend/src/main/java/com/ledgertalk/invoices/service/InvoiceService.java:196-199 | the item is rewritten in place and its invoice's totals move from the old line to the new one |
| InvoiceServices.InvoiceService.DeleteItem | ledgertalk/backend/src/main/java/com/ledgertalk/invoices/service/InvoiceService.java:202-217 | after the guards the item is removed and its line taken off its invoice's totals; a failure changes nothing |
| InvoiceServices.InvoiceService.RemoveItem | ledgertalk/backend/src/main/java/com/ledgertalk/invoices/service/InvoiceService.java:213-216 | the item is removed and its line taken off its invoice's totals |
| UserServices.ParseRole | ledgertalk/backend/src/main/java/com/ledgertalk/users/service/UserService.java:93 | a role name parses exactly when it names one of the five roles; otherwise the error is Java's "No enum constant" message for the role enum |
| UserServices.RoleRoundTrip | ledgertalk/backend/src/main/java/com/ledgertalk/users/service/UserService.java:93 | every role's name parses back to it, and a name that parses is that role's name |
| UserServices.ParseUserStatus | ledgertalk/backend/src/main/java/com/ledgertalk/users/service/UserService.java:94 | a status name parses exactly when it names one of the three statuses; otherwise the error is Java's "No enum constant" message |
| UserServices.UserStatusRoundTrip | ledgertalk/backend/src/main/java/com/ledgertalk/users/service/UserService.java:94 | every status's name parses back to it, and a name that parses is that status's name |
| UserServices.FindToken | ledgertalk/backend/src/main/java/com/ledgertalk/users/service/UserService.java:139-140 | an invitation is found exactly when one carries the token, and the one found carries it |
| UserServices.CreateUserCheck | ledgertalk/backend/src/main/java/com/ledgertalk/users/service/UserService.java:62-68 | creation passes exactly when the profile is valid, the email is free in the organisation and role and status names parse; a profile failure is reported first, then "User with this email already exists" |
| UserServices.CreateInviteCheck | ledgertalk/backend/src/main/java/com/ledgertalk/users/service/UserService.java:117-125 | an invitation passes exactly when the request is valid, no pending invitation exists for the email and the role parses; a request failure is reported first, then "Invite already exists for this email" |
| UserServices.AcceptCheck | ledgertalk/backend/src/main/java/com/ledgertalk/users/service/UserService.java:136-148 | acceptance fails, in order, on an invalid request, an unknown token, an expiry strictly before now, and a status other than PENDING, and passes otherwise |
| UserServices.NewInvite | ledgertalk/backend/src/main/java/com/ledgertalk/users/service/UserService.java:122-131 | a new invitation is PENDING, expires seven days after it is made and carries the requested email |
| UserServices.AcceptOnlyOnce | ledgertalk/backend/src/main/java/com/ledgertalk/users/service/UserService.java:146-168 | once an invitation is accepted, any later request with its token is refused |
| UserServices.FreshInviteWindow | ledgertalk/backend/src/main/java/com/ledgertalk/users/service/UserService.java:127-143 | a fresh invitation is accepted by a complete request up to and including its expiry instant, and refused as expired after it |
| UserServices.FoundLast | ledgertalk/backend/src/main/java/com/ledgertalk/users/service/UserService.java:133-140 | the token of the invitation saved last is found at its place |
| UserServices.AddInviteKeepsInvariants | ledgertalk/backend/src/main/java/com/ledgertalk/users/service/UserService.java:117-133 | saving a new invitation with a fresh token when none is pending for the email keeps tokens distinct and one pending invitation per email |
| UserServices.AddUserKeepsUniqueEmails | ledgertalk/backend/src/main/java/com/ledgertalk/users/entity/User.java:22-23 | the email column is unique across the whole table, whatever the organisation: storing a user whose email no user has keeps every email held by one user only |
| UserServices.AcceptKeepsInvariants | ledgertalk/backend/src/main/java/com/ledgertalk/users/service/UserService.java:166-168 | marking an invitation accepted keeps tokens distinct and one pending invitation per email |
| UserServices.UserService.constructor | ledgertalk/backend/src/main/java/com/ledgertalk/users/service/UserService.java:26 | a new service has no users and no invitations |
| UserServices.UserService.CreateUser | ledgertalk/backend/src/main/java/com/ledgertalk/users/service/UserService.java:62-77 | a failed check is reported and stores nothing; an email free in the organisation but held by a user of another organisation passes the check and is then refused by `save`, storing nothing; otherwise the new user is stored under a fresh id with the parsed role and status and the creator's stamps, and every other user stays as it was |
| UserServices.UserService.StoreUser | ledgertalk/backend/src/main/java/com/ledgertalk/users/service/UserService.java:75 | saving a new user is refused, storing nothing, when any user already has its email (the unique email column); otherwise it adds the user under the next id and emails stay unique |
| UserServices.UserService.CreateInvite | ledgertalk/backend/src/main/java/com/ledgertalk/users/service/UserService.java:117-134 | a failed check is reported and stores nothing; success appends a PENDING invitation with the given token, expiring in seven days |
| UserServices.UserService.AcceptInvite | ledgertalk/backend/src/main/java/com/ledgertalk/users/service/UserService.java:136-171 | a failed check is reported and changes nothing; when a user of any organisation already has the invited email, `save` refuses the new user at line 163 and the invitation stays PENDING; otherwise an ACTIVE user with the invitation's email, role and organisation is stored under a fresh id and the invitation is marked ACCEPTED |
| UserServices.UserService.MarkAccepted | ledgertalk/backend/src/main/java/com/ledgertalk/users/service/UserService.java:166-168 | saving the accepted invitation changes only its status and change time |
| UserServices.UserService.PendingInvites | ledgertalk/backend/src/main/java/com/ledgertalk/users/service/UserService.java:173-175 | the listing holds exactly the PENDING invitations of the organisation |
| UserServices.PendingOf | ledgertalk/backend/src/main/java/com/ledgertalk/users/service/UserService.java:173-175 | the pending invitations of an organisation, and all of them |
| TransactionValidation.Validate | ledgertalk/backend/src/main/java/com/ledgertalk/transactions/validator/TransactionValidator.java:12-28 | a transaction passes exactly when it is acceptable; each message is reported exactly when every earlier check passes and its own fails: type missing or empty, type not INCOME or EXPENSE, amount missing or not positive, date missing, category missing or empty |
| FieldChecks.NullOrBlankIff | MoneyOps/backend/src/main/java/com/moneyops/organizations/validator/OrganizationValidator.java:12 | a value is null-or-blank exactly when it is missing or made only of characters up to the space, which is what trimming removes |
| FieldChecks.IsValidEmail | MoneyOps/backend/src/main/java/com/moneyops/organizations/validator/OrganizationValidator.java:32-34 | an address matches the pattern exactly when it splits at an at sign into a non-empty run of letters, digits and "+_.-" and a non-empty run of letters, digits and ".-" |
| FieldChecks.ValidEmailHasOneAt | MoneyOps/backend/src/main/java/com/moneyops/organizations/validator/OrganizationValidator.java:32-34 | an accepted address has exactly one at sign, with characters on both sides of it |
| FieldChecks.EmailAccepted | MoneyOps/backend/src/main/java/com/moneyops/organizations/validator/OrganizationValidator.java:33 | a plain address such as a.b@x.io matches |
| FieldChecks.EmailRejected | MoneyOps/backend/src/main/java/com/moneyops/organizations/validator/OrganizationValidator.java:33 | addresses with two at signs, an empty side or a space do not match |
| OrganizationValidation.IsValidPan | MoneyOps/backend/src/main/java/com/moneyops/organizations/validator/OrganizationValidator.java:36-38 | a PAN is exactly five capitals, four digits and a capital |
| OrganizationValidation.IsValidGst | MoneyOps/backend/src/main/java/com/moneyops/organizations/validator/OrganizationValidator.java:40-42 | a GST number is exactly two digits, a valid PAN shape, a capital or digit, the letter Z and a capital or digit |
| OrganizationValidation.PanExamples | MoneyOps/backend/src/main/java/com/moneyops/organizations/validator/OrganizationValidator.java:37 | ABCDE1234F is a PAN, while a short or lower-case one is not |
| OrganizationValidation.GstAccepted | MoneyOps/backend/src/main/java/com/moneyops/organizations/validator/OrganizationValidator.java:41 | a well-formed GST number matches |
| OrganizationValidation.GstRejected | MoneyOps/backend/src/main/java/com/moneyops/organizations/validator/OrganizationValidator.java:41 | a GST number without the Z or with a one-digit state code does not match |
| OrganizationValidation.Validate | MoneyOps/backend/src/main/java/com/moneyops/organizations/validator/OrganizationValidator.java:11-21 | the profile passes exactly when the legal name is not blank, a present email matches and a present employee count is not negative; each message is reported exactly when the earlier checks pass and its own fails |
| OrganizationValidation.ValidateRegulatory | MoneyOps/backend/src/main/java/com/moneyops/organizations/validator/OrganizationValidator.java:23-30 | absent numbers pass and a present one must match its shape; a bad PAN is reported before a bad GST number |
| OrganizationValidation.RegulatoryNumbersUnrelated | MoneyOps/backend/src/main/java/com/moneyops/organizations/validator/OrganizationValidator.java:23-30 | a GST number need not contain the PAN given beside it |
| UserValidation.Validate | MoneyOps/backend/src/main/java/com/moneyops/users/validator/UserValidator.java:11-24 | a profile passes exactly when the name is not blank, the email matches and role and status are not empty; each message is reported exactly when the earlier checks pass and its own fails |
| UserValidation.ValidateInvite | MoneyOps/backend/src/main/java/com/moneyops/users/validator/UserValidator.java:26-33 | an invitation request passes exactly when the email matches and the role is not empty, the email checked first |
| UserValidation.InviteCheckIsUserCheckOnItsFields | MoneyOps/backend/src/main/java/com/moneyops/users/validator/UserValidator.java:11-33 | a valid profile's email and role pass the invitation check, and with a non-blank name the two checks report the same failure |
| InviteValidation.ValidateAcceptInvite | MoneyOps/backend/src/main/java/com/moneyops/users/validator/InviteValidator.java:10-20 | an acceptance passes exactly when the token is not blank, the password has at least eight UTF-16 units and the name is not blank; each message is reported exactly when the earlier checks pass and its own fails |
| InviteValidation.PasswordLengthBounds | MoneyOps/backend/src/main/java/com/moneyops/users/validator/InviteValidator.java:14 | a password of eight or more characters is long enough and one of fewer than four is too short, whatever its characters |
| ClientValidation.Validate | MoneyOps/backend/src/main/java/com/moneyops/clients/validator/ClientValidator.java:10-20 | a client passes exactly when the name is not blank, the email matches and the status is not empty; each message is reported exactly when the earlier checks pass and its own fails |
| ClientValidation.StatusIsNotTrimmed | MoneyOps/backend/src/main/java/com/moneyops/clients/validator/ClientValidator.java:11-18 | a status of spaces passes, while a name of spaces is refused |
| Money.Cents | MoneyOps/backend/src/main/java/com/moneyops/shared/utils/MoneyUtil.java:10 | n hundredths is a whole number of cents |
| Money.Round | MoneyOps/backend/src/main/java/com/moneyops/shared/utils/MoneyUtil.java:9-11 | rounding gives a whole number of cents within half a cent of the amount, a tie going away from zero |
| Money.CentsApart | MoneyOps/backend/src/main/java/com/moneyops/shared/utils/MoneyUtil.java:10 | two cent amounts less than a cent apart are equal |
| Money.RoundUnique | MoneyOps/backend/src/main/java/com/moneyops/shared/utils/MoneyUtil.java:9-11 | the cent amount in an amount's rounding band is its rounded value |
| Money.RoundIdempotent | MoneyOps/backend/src/main/java/com/moneyops/shared/utils/MoneyUtil.java:9-11 | rounding leaves a cent amount alone, so rounding twice is rounding once |
| Money.RoundNegate | MoneyOps/backend/src/main/java/com/moneyops/shared/utils/MoneyUtil.java:10 | half-up rounding is symmetric about zero |
| Money.RoundMonotone | MoneyOps/backend/src/main/java/com/moneyops/shared/utils/MoneyUtil.java:10 | rounding keeps order |
| Money.Add | MoneyOps/backend/src/main/java/com/moneyops/shared/utils/MoneyUtil.java:13-15 | the sum is rounded to cents, half up |
| Money.Subtract | MoneyOps/backend/src/main/java/com/moneyops/shared/utils/MoneyUtil.java:17-19 | the difference is rounded to cents, half up |
| Money.Multiply | MoneyOps/backend/src/main/java/com/moneyops/shared/utils/MoneyUtil.java:21-23 | the product is rounded to cents, half up |
| Money.Divide | MoneyOps/backend/src/main/java/com/moneyops/shared/utils/MoneyUtil.java:25-27 | division fails exactly on a zero divisor and otherwise gives the quotient rounded to cents, half up |
| Money.DivideRoundsOnce | MoneyOps/backend/src/main/java/com/moneyops/shared/utils/MoneyUtil.java:25-27 | the outer rounding in divide changes nothing |
| Money.AddExactOnCents | MoneyOps/backend/src/main/java/com/moneyops/shared/utils/MoneyUtil.java:13-19 | adding and subtracting cent amounts is exact |
| Money.SubtractIsAddNegated | MoneyOps/backend/src/main/java/com/moneyops/shared/utils/MoneyUtil.java:13-19 | subtracting is adding the negation, and swapping the operands negates the difference |
| Money.RoundKeepsSign | MoneyOps/backend/src/main/java/com/moneyops/shared/utils/MoneyUtil.java:29-35 | rounding never flips a sign, but a positive amount under half a cent rounds to zero and stops being positive |

## Left out

- Logging, metrics output formats, audit-log calls and the reactive `Mono` plumbing are not modelled. These are I/O; the model keeps only the values they carry (the slow flag, the metric's tags and its full nanosecond duration, the response headers); the debug log line of RequestDuration.RecordMetric, the only user of its `toMillis` value, is left out with the rest of the logging.
- Java Web Token verification is a parameter (a `Result` of the claims). The signing library is not part of this model.
- The Redis commands are methods of a counter store that either works or fails as a whole. The fire-and-forget `expire(...).subscribe()` is modelled as taking effect at once.
- RateLimit.Apply: `onErrorResume` in the source also catches an error raised downstream by the rest of the chain and then runs the chain a second time. The model fails open only on a store error and runs the chain once.
- RateLimit.ResetTime: the source computes `(currentWindow + 1) * windowSeconds` in Java `long`. The model uses unbounded integers and does not wrap, which needs instants far beyond the year 292 billion.
- TenantContext.AntMatch: only `*`, `**` and `?` are modelled. Spring's AntPathMatcher `{var}` and `{var:regex}` segments are not.
- Http.HeaderKey: header names are compared by their ASCII lower-case form, as Spring's case-insensitive header map does; the `Headers` type admits only names without ASCII capitals, so no map holds two spellings of one name. Non-ASCII letters in header names are not folded, and the spelling a client used is not kept.
- Text.Lower and Text.Upper map ASCII letters only. Python's `str.lower`/`str.upper` also map other scripts ("É" to "é"), so Entities.NormalizeTimePeriod, Entities.NormalizeMetric and the classifier's input differ from the source on non-ASCII letters.
- Entities.NormalizeAmount works on exact reals. Python's `Decimal` rounds each product to 28 significant digits, so amounts with more digits than that differ.
- Entities.ParseDecimal, and so EntityExtraction.AmountOf, read only `[+-]digits[.digits]`. Python's `Decimal` also accepts exponents ("1e5"), underscores between digits ("1_000"), "Infinity", "NaN" and non-ASCII digits; the model reads these as no amount.
- IntentClassifying.Hits: the regular-expression engine of the intent patterns is a parameter (`Matcher`), not a regex implementation. The shape regexes of the gateway, the validators and the entity normalisers are written out as character predicates instead.
- Sessions.VoiceSession.GetRecentContext, Sessions.VoiceSession.IsExpired and Tools.ToolRegistry.ListTools take every argument explicitly. Python's defaults (`max_turns=5`, the manager's `timeout_seconds`, `enabled_only=True`) are not modelled as defaults.
- Sessions.VoiceSession.AddTurn takes one `now`. The source reads the clock once for the turn's timestamp and again for `last_active`, which can differ by the time between the two reads.
- UserServices.UserService.CreateUser stores a user with no password hash, as `createUser` leaves it unset. The database's non-null constraint on that column is not modelled, and it would most likely refuse the save.
- UserServices: `getAllUsers`, `getUserById`, `updateUser`, `deleteUser` and `searchUsers` are repository delegations and are not modelled.
- Tools.ValueRepr: Python's `repr` of a string is modelled with its quote choice and its escapes for backslash, the quote, tab, newline, carriage return, the other control characters and DEL to U+00A0. Other non-printable code points above U+00A0 (such as U+00AD or U+2028) are written as they are rather than escaped, so those enum values print differently.
- The language model, the HTTP client and the agent code around the classifier and the extractor are not part of this model. Their replies are parameters; the client's `ValueError` for content that is not JSON is the `NotJson` answer of IntentClassifying.Classify.
- Entities.IsWordChar stands for the `\b` after the unit letter of `_amount_k_re`, and counts only ASCII letters, digits and `_` as word characters. Python's `\b` on a str pattern is Unicode-aware, so for "50kमें" the source finds no unit amount and reads 50, while Entities.NormalizeAmount gives 50000.
- EntityExtraction.ItemStep: an item's value is text or missing. The model's JSON can also give a number, a boolean or a list. The source keeps such a value with `str(value)` as its raw text; `normalize_time_period` and `normalize_metric` then raise on it and leave no normalised value. So for `{"type": "metric", "value": 2024}` the source has no normalised metric, while the model's text value "2024" normalises to "2024".
- Invoices.ParseStatus: the invoice status enum is not in the source. The model assumes exactly DRAFT, SENT, PAID and OVERDUE, the statuses the service names. A CANCELLED status, which the legacy `InvoiceRepository` query at ledgertalk/backend/src/main/java/com/ledgertalk/invoices/InvoiceRepository.java line 14 mentions, is not modelled.
- InvoiceStore.SweptStatus: ledgertalk's own invoice repository is not in the source. The overdue condition `dueDate < today AND status NOT IN ('PAID')` is assumed from the `findOverdueByOrgId` query of the MoneyOps repository (lines 31-32). The legacy repository also excludes CANCELLED.
- InvoiceStore.StoreValid: stored amounts are kept exact. The MoneyOps amount columns have two decimal places (MoneyOps/backend/src/main/java/com/moneyops/invoices/entity/Invoice.java lines 39-46, InvoiceItem.java lines 30-43), so a line tax such as 10.01 x 18% = 1.8018 is stored and read back as 1.80, while the model keeps 1.8018. The model does not round on storing.
- UserServices.CreateUserCheck: ledgertalk's `UserMapper` is not in the source. The model assumes the MoneyOps `UserMapper.toEntity` (MoneyOps/backend/src/main/java/com/moneyops/users/mapper/UserMapper.java lines 25-35), which parses role and status with `valueOf`. ledgertalk's `UserValidator`, imported at ledgertalk/backend/src/main/java/com/ledgertalk/users/service/UserService.java line 13, is not part of this model either; the model uses the MoneyOps `UserValidator` (MoneyOps/backend/src/main/java/com/moneyops/users/validator/UserValidator.java) in its place. The mapper also copies the dto's id, phone and last-login time, which the model's UserDto does not carry. A client-supplied id, which `save` would merge into an existing row, is dropped: the model always stores the user under the next id.
- Floating-point confidences are exact reals.

## Findings

| source | as written | input that shows it | evidently intended | confidence | as-written member | corrected member |
|---|---|---|---|---|---|---|
| MoneyOps/api-gateway/src/main/java/com/moneyops/gateway/config/RateLimitKeyResolverConfig.java:124-126 | numeric ids are collapsed before UUIDs, so a UUID that starts with a digit loses its leading digits to `{id}` and is never replaced by `{uuid}` | path `/api/clients/123e4567-e89b-12d3-a456-426614174000` gives `path:/api/clients/{id}e4567-e89b-…`, one rate-limit bucket per client | every UUID collapses to `{uuid}`, as the comment at :123 says ("remove IDs for consistent keys") and as `simplifyPath` does by replacing UUIDs first | not executed; high | KeyResolvers.DigitLeadingUuidEscapesPathKey | KeyResolvers.PathKeyCollapsesUuid |
| MoneyOps/voice-service/app/agent/session.py:52 | `conversation_history[-max_turns:]` returns the whole history for 0 and drops the oldest turns for a negative count | `get_recent_context(0)` on a session with three turns returns all three | the last `min(n, len)` turns, so none for 0 | not executed; medium | Sessions.RecentContextZeroIsEverything | Sessions.RecentContextAgrees |
| MoneyOps/ai-gateway/app/orchestrator/intent_classifier.py:145 | `logger` is never imported or defined (imports at :5-21), so `classify` raises `NameError` on every call before it builds a result | any call, for example `classify("create invoice")` | the pattern hit when its confidence reaches 0.85, otherwise the parsed model reply | not executed; high | IntentClassifying.ClassifyAsWritten | IntentClassifying.ClassifiedByHitOrReply |
