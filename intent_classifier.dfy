/**
 * The intent classifier of the AI gateway: a fast search through a table of regular expressions, and
 * otherwise the reading of a language model's JSON reply, with the confidence adjusted by business rules.
 * The regular-expression engine and the language model are outside the model: the engine is a `Matcher`
 * parameter and the model's reply is a parameter of the classification.
 */
module IntentClassifying {
  import opened Wrappers
  import opened Text
  import opened Intents

  /** `re.search(pattern, text, re.IGNORECASE)`: `Some(found)`, or `None` when the pattern does not compile. */
  type Matcher = (string, string) -> Option<bool>

  /** The search succeeds for this pattern and text. */
  predicate Hits(m: Matcher, pattern: string, text: string)
  {
    m(pattern, text) == Some(true)
  }

  /** `_build_intent_patterns`: the patterns tried, intent by intent, in the order they are listed. */
  function IntentPatterns(): seq<(Intent, seq<string>)>
  {
    [
      (InvoiceCreate, [@"create.*invoice", @"new invoice", @"generate.*invoice", @"make.*invoice", @"invoice for"]),
      (InvoiceQuery, [@"show.*invoices?", @"list.*invoices?", @"find.*invoices?", @"get.*invoices?", @"which invoices?", @"what.*invoices?"]),
      (PaymentRecord, [@"record.*payment", @"payment.*received", @"mark.*paid", @"received.*payment", @"got.*payment"]),
      (BalanceCheck, [@"what.*balance", @"check.*balance", @"current.*balance", @"show.*balance", @"my balance"]),
      (ClientCreate, [@"add.*client", @"new.*client", @"create.*client", @"register.*client"]),
      (ClientQuery, [@"show.*clients?", @"list.*clients?", @"who.*clients?", @"find.*client"]),
      (BusinessHealthCheck, [@"how.*business.*\b(doing|health|performing)", @"business.*\b(health|status|score|performance)", @"\b(health|performance).*score", @"\b(overall|general).*\b(health|performance|status)", @"check.*business"]),
      (ProblemDiagnosis, [@"why.*revenue.*down", @"why.*sales.*down", @"why.*\b(down|declined|drop|decrease)\b", @"\b(why|what).*wrong", @"\b(why|reason).*declining", @"\b(reason|cause).*drop", @"revenue.*\b(down|dropped|declined).*\%", @"sales.*\b(down|dropped|declined).*\%"]),
      (SalesStrategy, [@"increase.*sales", @"improve.*sales", @"boost.*revenue", @"grow.*sales", @"sales.*strategy"]),
      (BudgetOptimization, [@"reduce.*costs?", @"cut.*expenses?", @"optimize.*budget", @"save.*money", @"reduce.*spending"]),
      (CompetitivePositioning, [@"compete.*with", @"vs.*competitor", @"against.*competitor", @"position.*against", @"differentiate.*from"]),
      (GrowthStrategy, [@"grow.*business", @"expansion.*strategy", @"scale.*business", @"growth.*plan"]),
      (Greeting, [@"^(hi|hello|hey|good morning|good afternoon)$", @"^what's up$", @"^how are you$"]),
      (Help, [@"help", @"what.*can.*do", @"how.*use", @"guide"]),
      (Confirmation, [@"^(yes|yeah|yep|sure|ok|okay|correct|right)$", @"^go ahead$", @"^proceed$"]),
      (Cancellation, [@"^(no|nope|cancel|stop|abort|nevermind)$", @"don't.*do.*that"])
    ]
  }

  /** The result of `_pattern_classify`; the search itself does not depend on what the keys are. */
  datatype PatternMatch<I> = PatternMatch(intent: I, confidence: real, pattern: string)

  /** Longer patterns are taken as more specific and trusted more. */
  function PatternConfidence(pattern: string): (c: real)
    ensures 0.85 <= c <= 0.95
    ensures c == 0.95 <==> |pattern| > 20
    ensures c == 0.85 <==> |pattern| <= 15
  {
    if |pattern| > 20 then 0.95 else if |pattern| > 15 then 0.9 else 0.85
  }

  /** The text the patterns are searched in: the input (nothing counts as empty), lower-cased and stripped. */
  function PatternText(input: Option<string>): string
  {
    PyStrip(Lower(input.GetOr("")))
  }

  /** The first pattern of one intent that hits. */
  function FirstHitIn<I>(intent: I, patterns: seq<string>, text: string, m: Matcher): (r: Option<PatternMatch<I>>)
    ensures r.Some? ==> r.value.intent == intent && r.value.pattern in patterns && Hits(m, r.value.pattern, text)
    ensures r.Some? ==> 0.85 <= r.value.confidence <= 0.95
  {
    if patterns == [] then None
    else if Hits(m, patterns[0], text) then Some(PatternMatch(intent, PatternConfidence(patterns[0]), patterns[0]))
    else FirstHitIn(intent, patterns[1..], text, m)
  }

  /** The first hit in table order: the value `_pattern_classify` returns. */
  function FirstHit<I>(table: seq<(I, seq<string>)>, text: string, m: Matcher): (r: Option<PatternMatch<I>>)
    ensures r.Some? ==> Hits(m, r.value.pattern, text) && 0.85 <= r.value.confidence <= 0.95
  {
    if table == [] then None
    else match FirstHitIn(table[0].0, table[0].1, text, m)
      case Some(h) => Some(h)
      case None => FirstHit(table[1..], text, m)
  }

  /** Within one intent, the hit is the first pattern that hits, and there is none exactly when no pattern hits. */
  lemma {:induction false} FirstHitInIsFirst<I>(intent: I, patterns: seq<string>, text: string, m: Matcher)
    ensures FirstHitIn(intent, patterns, text, m).None? <==> forall j :: 0 <= j < |patterns| ==> !Hits(m, patterns[j], text)
    ensures FirstHitIn(intent, patterns, text, m).Some? ==>
      exists j :: 0 <= j < |patterns| && Hits(m, patterns[j], text)
        && FirstHitIn(intent, patterns, text, m) == Some(PatternMatch(intent, PatternConfidence(patterns[j]), patterns[j]))
        && forall k :: 0 <= k < j ==> !Hits(m, patterns[k], text)
  {
    if patterns != [] && !Hits(m, patterns[0], text) {
      var rest := patterns[1..];
      FirstHitInIsFirst(intent, rest, text, m);
      assert forall j :: 1 <= j < |patterns| ==> patterns[j] == rest[j - 1];
      if FirstHitIn(intent, rest, text, m).Some? {
        var j :| 0 <= j < |rest| && Hits(m, rest[j], text)
          && FirstHitIn(intent, rest, text, m) == Some(PatternMatch(intent, PatternConfidence(rest[j]), rest[j]))
          && forall k :: 0 <= k < j ==> !Hits(m, rest[k], text);
        assert patterns[j + 1] == rest[j];
      }
    }
  }

  /** No pattern hits. */
  predicate NoHit<I>(table: seq<(I, seq<string>)>, text: string, m: Matcher)
  {
    forall i, j :: 0 <= i < |table| && 0 <= j < |table[i].1| ==> !Hits(m, table[i].1[j], text)
  }

  /** Pattern `j` of intent `i` hits, and no pattern before it in table order does. */
  predicate FirstHitAt<I>(table: seq<(I, seq<string>)>, text: string, m: Matcher, i: int, j: int)
  {
    0 <= i < |table| && 0 <= j < |table[i].1| && Hits(m, table[i].1[j], text)
    && (forall i2, j2 :: 0 <= i2 < i && 0 <= j2 < |table[i2].1| ==> !Hits(m, table[i2].1[j2], text))
    && (forall k :: 0 <= k < j ==> !Hits(m, table[i].1[k], text))
  }

  /** The search returns nothing exactly when no pattern hits, and otherwise the first hit in table order. */
  lemma {:induction false} FirstHitIsFirst<I>(table: seq<(I, seq<string>)>, text: string, m: Matcher)
    ensures FirstHit(table, text, m).None? <==> NoHit(table, text, m)
    ensures FirstHit(table, text, m).Some? ==>
      exists i, j :: FirstHitAt(table, text, m, i, j)
        && FirstHit(table, text, m) == Some(PatternMatch(table[i].0, PatternConfidence(table[i].1[j]), table[i].1[j]))
  {
    if table != [] {
      var rest := table[1..];
      FirstHitInIsFirst(table[0].0, table[0].1, text, m);
      FirstHitIsFirst(rest, text, m);
      assert forall i :: 1 <= i < |table| ==> table[i] == rest[i - 1];
      if FirstHitIn(table[0].0, table[0].1, text, m).Some? {
        var ps := table[0].1;
        var j :| 0 <= j < |ps| && Hits(m, ps[j], text)
          && FirstHitIn(table[0].0, ps, text, m) == Some(PatternMatch(table[0].0, PatternConfidence(ps[j]), ps[j]))
          && forall k :: 0 <= k < j ==> !Hits(m, ps[k], text);
        assert FirstHitAt(table, text, m, 0, j);
      } else if FirstHit(rest, text, m).Some? {
        var i, j :| FirstHitAt(rest, text, m, i, j)
          && FirstHit(rest, text, m) == Some(PatternMatch(rest[i].0, PatternConfidence(rest[i].1[j]), rest[i].1[j]));
        assert FirstHitAt(table, text, m, i + 1, j);
      }
    }
  }

  /** `_pattern_classify`: the nested search, returning at the first hit and skipping patterns that do not compile. */
  method PatternClassify<I>(table: seq<(I, seq<string>)>, input: Option<string>, m: Matcher)
    returns (r: Option<PatternMatch<I>>)
    ensures r == FirstHit(table, PatternText(input), m)
  {
    r := SearchTable(table, PatternText(input), m);
  }

  /** The outer loop of `_pattern_classify`: the intents in table order. */
  method SearchTable<I>(table: seq<(I, seq<string>)>, text: string, m: Matcher) returns (r: Option<PatternMatch<I>>)
    ensures r == FirstHit(table, text, m)
  {
    var i := 0;
    while i < |table|
      invariant 0 <= i <= |table|
      invariant FirstHit(table, text, m) == FirstHit(table[i..], text, m)
    {
      FirstHitStep(table, i, text, m);
      var hit := SearchPatterns(table[i].0, table[i].1, text, m);
      if hit.Some? {
        return hit;
      }
      i := i + 1;
    }
    assert table[i..] == [];
    return None;
  }

  /** The inner loop of `_pattern_classify`: one intent's patterns, in order. */
  method SearchPatterns<I>(intent: I, patterns: seq<string>, text: string, m: Matcher) returns (r: Option<PatternMatch<I>>)
    ensures r == FirstHitIn(intent, patterns, text, m)
  {
    var j := 0;
    while j < |patterns|
      invariant 0 <= j <= |patterns|
      invariant FirstHitIn(intent, patterns, text, m) == FirstHitIn(intent, patterns[j..], text, m)
    {
      FirstHitInStep(intent, patterns, j, text, m);
      if m(patterns[j], text) == Some(true) {
        return Some(PatternMatch(intent, PatternConfidence(patterns[j]), patterns[j]));
      }
      j := j + 1;
    }
    assert patterns[j..] == [];
    return None;
  }

  /** One step of the search within an intent's patterns. */
  lemma FirstHitInStep<I>(intent: I, patterns: seq<string>, j: nat, text: string, m: Matcher)
    requires j < |patterns|
    ensures FirstHitIn(intent, patterns[j..], text, m) ==
      if Hits(m, patterns[j], text) then Some(PatternMatch(intent, PatternConfidence(patterns[j]), patterns[j]))
      else FirstHitIn(intent, patterns[j + 1..], text, m)
  {
    assert patterns[j..][0] == patterns[j];
    assert patterns[j..][1..] == patterns[j + 1..];
  }

  /** One step of the search through the table. */
  lemma FirstHitStep<I>(table: seq<(I, seq<string>)>, i: nat, text: string, m: Matcher)
    requires i < |table|
    ensures FirstHit(table[i..], text, m) ==
      if FirstHitIn(table[i].0, table[i].1, text, m).Some? then FirstHitIn(table[i].0, table[i].1, text, m)
      else FirstHit(table[i + 1..], text, m)
  {
    assert table[i..][0] == table[i];
    assert table[i..][1..] == table[i + 1..];
  }

  /** The classification the gateway hands on; the processing time, sub-intent and context are not modelled. */
  datatype Classification = Classification(
    intent: Intent, confidence: real, reasoning: string, category: IntentCategory, primaryAgent: AgentType,
    supportingAgents: seq<AgentType>, complexity: ComplexityLevel, requiresConfirmation: bool,
    requiresMultiTurn: bool, isFollowup: bool, previousIntent: Option<Intent>, modelUsed: string)

  /** The category, agents and complexity are the ones the requirements table gives the intent. */
  predicate RoutedByTable(c: Classification)
  {
    var req := RequirementsOf(c.intent);
    c.category == IntentCategoryOf(c.intent) && c.primaryAgent == req.primaryAgent
    && c.supportingAgents == req.supportingAgents && c.complexity == req.complexity
  }

  /** The classification built from a pattern hit. */
  function FromPattern(h: PatternMatch<Intent>): (c: Classification)
    ensures RoutedByTable(c) && c.intent == h.intent && c.confidence == h.confidence
    ensures !c.requiresConfirmation && !c.requiresMultiTurn && !c.isFollowup && c.modelUsed == "pattern_matching"
  {
    var req := RequirementsOf(h.intent);
    Classification(h.intent, h.confidence, "Pattern match: " + h.pattern, IntentCategoryOf(h.intent), req.primaryAgent,
                   req.supportingAgents, req.complexity, false, false, false, None, "pattern_matching")
  }

  /** A field of the reply that `float()` is applied to. */
  datatype NumberField = Absent | Number(value: real) | NotNumber(error: string)
  {
    /** The number, or `d` when the field is absent (or not a number). */
    function GetOr(d: real): real { if Number? then value else d }
  }

  /** The model's JSON reply, once read as an object: `Err` carries the message of a reply that could not be read. */
  datatype LlmReply = LlmReply(intent: Option<string>, confidence: NumberField, reasoning: string, isFollowup: bool)

  const INVALID_INTENT := "Invalid intent name from LLM"
  const FALLBACK_INTENT := GeneralQuery

  /** The `intent` field of the last turn of the history, when it names an intent. */
  function LastIntent(history: seq<Option<string>>): (r: Option<Intent>)
    ensures r.Some? ==> |history| > 0 && history[|history| - 1] == Some(IntentName(r.value))
  {
    if |history| > 0 && history[|history| - 1].Some? then ParseIntent(history[|history| - 1].value) else None
  }

  function Min(a: real, b: real): real { if a <= b then a else b }
  function Max(a: real, b: real): real { if a >= b then a else b }

  /** `_adjust_confidence`, on the category of the intent and that of the last turn's intent: a bonus for
      staying in the same category, a discount for strategic intents, and a clamp to the unit interval. */
  function AdjustConfidence(base: real, category: IntentCategory, last: Option<IntentCategory>): (r: real)
    ensures 0.0 <= r <= 1.0
  {
    var boosted := if last == Some(category) then Min(1.0, base + 0.1) else base;
    var scaled := if category == Strategic then boosted * 0.9 else boosted;
    Min(1.0, Max(0.0, scaled))
  }

  /** The category of the last turn's intent, when it names one. */
  function LastCategory(history: seq<Option<string>>): Option<IntentCategory>
  {
    match LastIntent(history)
    case Some(i) => Some(IntentCategoryOf(i))
    case None => None
  }

  /** A higher reported confidence never yields a lower adjusted one. */
  lemma AdjustMonotone(a: real, b: real, category: IntentCategory, last: Option<IntentCategory>)
    requires a <= b
    ensures AdjustConfidence(a, category, last) <= AdjustConfidence(b, category, last)
  {
  }

  /** A strategic intent reported with a confidence of at most one is never adjusted above 0.9. */
  lemma AdjustStrategicCap(base: real, last: Option<IntentCategory>)
    requires base <= 1.0
    ensures AdjustConfidence(base, Strategic, last) <= 0.9
  {
  }

  /** For a non-strategic intent, a confidence up to 0.9 is kept as it is without a previous intent of the same
      category, and raised by exactly 0.1 with one. */
  lemma AdjustNeutralAndBonus(base: real, category: IntentCategory, last: Option<IntentCategory>)
    requires category != Strategic && 0.0 <= base <= 0.9
    ensures last != Some(category) ==> AdjustConfidence(base, category, last) == base
    ensures last == Some(category) ==> AdjustConfidence(base, category, last) == base + 0.1
  {
  }

  /** The classification returned when the reply cannot be used. */
  function Fallback(error: string): Classification
  {
    Classification(FALLBACK_INTENT, 0.5, "Error parsing LLM response: " + error, Conversational, GeneralAgent, [],
                   Simple, false, false, false, None, "fallback")
  }

  /** The fallback routes the way the requirements table routes `GENERAL_QUERY`. */
  lemma FallbackAgreesWithTable(error: string)
    ensures RoutedByTable(Fallback(error))
  {
    assert TableEntry(GeneralQuery) == Some(DEFAULT_CONVERSATIONAL);
    assert RequirementsOf(GeneralQuery) == DEFAULT_CONVERSATIONAL;
    DefaultCategories();
  }

  /** The reply names an intent and, if it gives a confidence, gives a number. */
  predicate Usable(reply: Result<LlmReply>)
  {
    reply.Ok? && reply.value.intent.Some? && ParseIntent(reply.value.intent.value).Some?
    && !reply.value.confidence.NotNumber?
  }

  /** The checks of `_parse_llm_response`, in order: a reply that could not be read, an intent that is missing or
      names no member, and a confidence that is not a number each give the message of the error raised. */
  function ReadReply(reply: Result<LlmReply>): (r: Result<(Intent, LlmReply)>)
    ensures r.Ok? <==> Usable(reply)
    ensures r.Ok? ==> r.value.1 == reply.value && reply.value.intent == Some(IntentName(r.value.0))
  {
    if reply.Err? then Err(reply.error)
    else
      var d := reply.value;
      var parsed := if d.intent.Some? then ParseIntent(d.intent.value) else None;
      if parsed.None? then Err(INVALID_INTENT)
      else if d.confidence.NotNumber? then Err(d.confidence.error)
      else Ok((parsed.value, d))
  }

  /** The classification of a usable reply naming `intent`. */
  function FromReply(intent: Intent, d: LlmReply, history: seq<Option<string>>): (c: Classification)
    ensures c.intent == intent && c.modelUsed == "groq-llm" && 0.0 <= c.confidence <= 1.0
  {
    var req := RequirementsOf(intent);
    var category := IntentCategoryOf(intent);
    Classification(intent, AdjustConfidence(d.confidence.GetOr(0.6), category, LastCategory(history)), d.reasoning,
                   category, req.primaryAgent, req.supportingAgents, req.complexity, req.requiresUserConfirmation,
                   |req.requiredEntities| > 3 || req.complexity in {Complex, StrategicComplexity},
                   d.isFollowup, if d.isFollowup then LastIntent(history) else None, "groq-llm")
  }

  /** `_parse_llm_response`: an unusable reply gives the fallback; a usable one is classified by its intent. */
  function ParseLlmResponse(reply: Result<LlmReply>, history: seq<Option<string>>): (c: Classification)
    ensures c.modelUsed == "fallback" <==> !Usable(reply)
    ensures !Usable(reply) ==> c.intent == FALLBACK_INTENT && c.confidence == 0.5
    ensures 0.0 <= c.confidence <= 1.0
  {
    match ReadReply(reply)
    case Err(e) => Fallback(e)
    case Ok((intent, d)) => FromReply(intent, d, history)
  }

  /** A usable reply yields the intent it names, with the reported confidence (0.6 when missing) adjusted, the
      confirmation flag of the table, several turns for more than three required entities or a complex or
      strategic intent, and the previous intent only for a follow-up. */
  lemma UsableReplyClassification(reply: Result<LlmReply>, history: seq<Option<string>>)
    requires Usable(reply)
    ensures var c := ParseLlmResponse(reply, history);
      var req := RequirementsOf(c.intent);
      reply.value.intent == Some(IntentName(c.intent))
      && c.confidence == AdjustConfidence(reply.value.confidence.GetOr(0.6), c.category, LastCategory(history))
      && c.requiresConfirmation == req.requiresUserConfirmation
      && (c.requiresMultiTurn <==> |req.requiredEntities| > 3 || req.complexity in {Complex, StrategicComplexity})
      && c.isFollowup == reply.value.isFollowup
      && c.previousIntent == (if reply.value.isFollowup then LastIntent(history) else None)
  {
  }

  /** Whatever the reply, the classification is routed by the requirements table. */
  lemma ParsedRoutedByTable(reply: Result<LlmReply>, history: seq<Option<string>>)
    ensures RoutedByTable(ParseLlmResponse(reply, history))
  {
    if !Usable(reply) {
      FallbackAgreesWithTable(ReadReply(reply).error);
    }
  }

  /** The message Python raises on the first logging call of `classify`: the module never defines `logger`. */
  const LOGGER_UNDEFINED := "NameError: name 'logger' is not defined"

  /** `classify` as written: the pattern search runs, and then logging its result raises, so no call returns
      a classification, whatever the input, the history or the model's reply. */
  method ClassifyAsWritten(patterns: seq<(Intent, seq<string>)>, input: Option<string>, m: Matcher)
    returns (r: Result<Classification>)
    ensures r == Err(LOGGER_UNDEFINED)
  {
    var hit := PatternClassify(patterns, input, m);
    return Err(LOGGER_UNDEFINED);
  }

  /** What `classify` returns once the search has given `hit`: a hit reaching the 0.85 threshold is used as it
      is; otherwise the model's reply is read. */
  function Classified(hit: Option<PatternMatch<Intent>>, reply: Result<LlmReply>, history: seq<Option<string>>): Classification
  {
    if hit.Some? && hit.value.confidence >= 0.85 then FromPattern(hit.value) else ParseLlmResponse(reply, history)
  }

  /** Every hit of the search reaches the threshold, so a hit is always used, with high confidence, and the reply
      is read only without one; either way the classification is routed by the table and its confidence lies in
      the unit interval. */
  lemma ClassifiedByHitOrReply(table: seq<(Intent, seq<string>)>, text: string, m: Matcher,
                               reply: Result<LlmReply>, history: seq<Option<string>>)
    ensures var hit := FirstHit(table, text, m);
      var c := Classified(hit, reply, history);
      && (hit.Some? ==> c == FromPattern(hit.value) && ConfidenceLevelOf(c.confidence) == High)
      && (hit.None? ==> c == ParseLlmResponse(reply, history))
      && RoutedByTable(c) && 0.0 <= c.confidence <= 1.0
  {
    var hit := FirstHit(table, text, m);
    if hit.Some? {
      PatternHitTrusted(hit.value);
    } else {
      ParsedRoutedByTable(reply, history);
    }
  }

  /** A pattern hit is classified with high confidence, routed by the requirements table. */
  lemma PatternHitTrusted(h: PatternMatch<Intent>)
    requires 0.85 <= h.confidence <= 0.95
    ensures var c := FromPattern(h); ConfidenceLevelOf(c.confidence) == High && RoutedByTable(c) && 0.0 <= c.confidence <= 1.0
  {
  }

  /** What `chat_completion_with_json` hands back: the decoded reply, or the `ValueError` it raises when the
      model's content is not JSON, carrying the decoder's message. */
  datatype ModelAnswer = Decoded(reply: Result<LlmReply>) | NotJson(decodeError: string)

  /** The message of the `ValueError` raised for content that is not JSON. */
  function JsonErrorMessage(decodeError: string): string
  {
    "Failed to parse JSON from LLM: " + decodeError
  }

  /** What `classify` returns once the search has given `hit` and the client has given `answer`: a hit is used
      before the model is asked; otherwise a decoded reply is read and content that is not JSON raises. */
  function ClassifyOutcome(hit: Option<PatternMatch<Intent>>, answer: ModelAnswer, history: seq<Option<string>>)
    : Result<Classification>
  {
    if hit.Some? && hit.value.confidence >= 0.85 then Ok(FromPattern(hit.value))
    else if answer.NotJson? then Err(JsonErrorMessage(answer.decodeError))
    else Ok(ParseLlmResponse(answer.reply, history))
  }

  /** A hit is always used; a decoded reply always gives the classification `Classified` describes; and
      `classify` raises exactly when no pattern hits and the model's content is not JSON, with the client's message. */
  lemma ClassifyOutcomeCases(table: seq<(Intent, seq<string>)>, text: string, m: Matcher, answer: ModelAnswer,
                             history: seq<Option<string>>)
    ensures var hit := FirstHit(table, text, m);
      var r := ClassifyOutcome(hit, answer, history);
      && (hit.Some? ==> r == Ok(FromPattern(hit.value)))
      && (answer.Decoded? ==> r == Ok(Classified(hit, answer.reply, history)))
      && (r.Err? <==> answer.NotJson? && hit.None?)
      && (r.Err? ==> r.error == JsonErrorMessage(answer.decodeError))
  {
    var hit := FirstHit(table, text, m);
    if hit.Some? {
      assert hit.value.confidence >= 0.85;
    }
  }

  /** `classify` as intended (with the logging calls left out), with `patterns` the classifier's table
      (`IntentPatterns()`, built once when it is created) and `answer` what the language model's client gives.
      The model is asked outside the `try` of `_parse_llm_response`, so content that is not JSON makes
      `classify` raise instead of falling back (`ClassifyOutcomeCases`). */
  method Classify(patterns: seq<(Intent, seq<string>)>, input: Option<string>, history: seq<Option<string>>,
                  answer: ModelAnswer, m: Matcher)
    returns (r: Result<Classification>)
    ensures r == ClassifyOutcome(FirstHit(patterns, PatternText(input), m), answer, history)
    ensures r.Err? <==> answer.NotJson? && FirstHit(patterns, PatternText(input), m).None?
  {
    var hit := PatternClassify(patterns, input, m);
    ClassifyOutcomeCases(patterns, PatternText(input), m, answer, history);
    if hit.Some? && hit.value.confidence >= 0.85 {
      r := Ok(FromPattern(hit.value));
    } else if answer.NotJson? {
      r := Err(JsonErrorMessage(answer.decodeError));
    } else {
      r := Ok(ParseLlmResponse(answer.reply, history));
    }
  }
}
