/**
 * The entity extractor's LLM half and its aggregation: how items returned by the model become entities, when
 * the model is asked at all, how many of its entities are kept, and how the convenience values and the mean
 * confidence of the result are chosen.
 */
module EntityExtraction {
  import opened Wrappers
  import opened Text
  import opened Entities
  import opened Intents

  /** The keys the extractor maps to entity types, after stripping and upper-casing the item's type. */
  function TypeKeys(): seq<(string, EntityType)>
  {
    [("CLIENT_NAME", ClientName), ("CLIENT", ClientName), ("INVOICE_ID", InvoiceId), ("AMOUNT", Amount),
     ("PHONE", Phone), ("EMAIL", Email), ("GST_NUMBER", GstNumber), ("PERCENTAGE", Percentage),
     ("PROBLEM_AREA", ProblemArea), ("TIME_PERIOD", TimePeriod), ("TARGET_VALUE", TargetValue),
     ("TARGET_METRIC", Metric), ("METRIC", Metric), ("COMPETITOR", CompetitorName),
     ("COMPETITOR_NAME", CompetitorName)]
  }

  /** `dict.get` on a table of distinct keys: the value paired with `key`, if any. */
  function Lookup<K(==), V>(table: seq<(K, V)>, key: K): (r: Option<V>)
    ensures r.Some? ==> exists k :: 0 <= k < |table| && table[k] == (key, r.value)
    ensures r.None? <==> forall k :: 0 <= k < |table| ==> table[k].0 != key
  {
    if table == [] then None
    else if table[0].0 == key then Some(table[0].1)
    else Lookup(table[1..], key)
  }

  /** The entity type of a key; a key the table does not know is a generic entity name. */
  function TypeForKey(key: string): (t: EntityType)
    ensures (forall k :: 0 <= k < |TypeKeys()| ==> TypeKeys()[k].0 != key) ==> t == EntityName
    ensures t != EntityName ==> exists k :: 0 <= k < |TypeKeys()| && TypeKeys()[k] == (key, t)
  {
    Lookup(TypeKeys(), key).GetOr(EntityName)
  }

  /** The `type` of an item: missing or falsy, a string, or some other truthy value, which has no `strip`. */
  datatype TypeField = NoType | TypeText(text: string) | NonTextType

  /** The `confidence` of an item: missing, a number, or something `float` rejects. */
  datatype ConfidenceField = DefaultConfidence | Given(value: real) | Unreadable

  /** One element of the list the model returned: an object with the three fields, or something else. */
  datatype LlmItem = NotAnObject | Item(itemType: TypeField, value: Option<string>, confidence: ConfidenceField)

  /** What one item does to the list: ends it (an exception aborts the whole loop), is skipped, or adds an entity. */
  datatype Step = Abort | Skip | Keep(entity: Entity)

  const DEFAULT_CONFIDENCE := 0.8
  const LLM_METHOD := "llm"

  /** The normalised value an entity of type `t` gets; a failing normaliser leaves none. */
  function NormalizedFor(t: EntityType, v: string): Option<Normalized>
  {
    match t
    case Amount => (match NormalizeAmount(Some(v)) case Ok(x) => Some(AmountValue(x)) case Err(_) => None)
    case TimePeriod => Some(TextValue(NormalizeTimePeriod(Some(v))))
    case Metric => Some(TextValue(NormalizeMetric(Some(v))))
    case _ => None
  }

  /** The key of an item's type. */
  function TypeKey(typ: string): string
  {
    Upper(PyStrip(typ))
  }

  /** The loop body of `_parse_llm_entities` for one item, in the order the source tests things. */
  function ItemStep(item: LlmItem): (r: Step)
    ensures r.Keep? ==> ValidEntity(r.entity) && r.entity.extractionMethod == Some(LLM_METHOD)
    ensures r.Keep? ==> (item.Item? && item.itemType.TypeText? && item.value == Some(r.entity.value)
      && r.entity.rawText == r.entity.value && r.entity.entityType == TypeForKey(TypeKey(item.itemType.text)))
    ensures item.Item? && (item.itemType == NoType || item.itemType == TypeText("")) ==> r == Skip
    ensures item.Item? && item.itemType.TypeText? && item.itemType.text != "" && item.value.None? ==> r == Skip
  {
    match item
    case NotAnObject => Abort
    case Item(typ, value, conf) =>
      match typ
      case NoType => Skip
      case NonTextType => Abort
      case TypeText(text) =>
        if text == "" then Skip
        else
          var t := TypeForKey(TypeKey(text));
          match value
          case None => Skip
          case Some(v) =>
            match conf
            case Unreadable => Abort
            case DefaultConfidence => Keep(Entity(t, v, v, DEFAULT_CONFIDENCE, NormalizedFor(t, v), Some(LLM_METHOD)))
            case Given(c) =>
              if 0.0 <= c <= 1.0 then Keep(Entity(t, v, v, c, NormalizedFor(t, v), Some(LLM_METHOD)))
              else Abort
  }

  /** The entities the items give: one per kept item, in order, up to the first item that aborts. */
  function ParsedEntities(items: seq<LlmItem>): seq<Entity>
  {
    if items == [] then []
    else match ItemStep(items[0])
      case Abort => []
      case Skip => ParsedEntities(items[1..])
      case Keep(e) => [e] + ParsedEntities(items[1..])
  }

  /** The loop of `_parse_llm_entities` over the located items. */
  method ParseItems(items: seq<LlmItem>) returns (entities: seq<Entity>)
    ensures entities == ParsedEntities(items)
  {
    entities := [];
    var i := 0;
    while i < |items|
      invariant 0 <= i <= |items|
      invariant ParsedEntities(items) == entities + ParsedEntities(items[i..])
    {
      assert items[i..][1..] == items[i + 1..];
      match ItemStep(items[i]) {
        case Abort =>
          assert ParsedEntities(items[i..]) == [];
          return;
        case Skip =>
        case Keep(e) =>
          entities := entities + [e];
      }
      i := i + 1;
    }
    assert ParsedEntities(items[i..]) == [];
  }

  /** At most one entity per item, each with a valid confidence and marked as coming from the model. */
  lemma {:induction false} ParsedEntitiesValid(items: seq<LlmItem>)
    ensures |ParsedEntities(items)| <= |items|
    ensures forall e :: e in ParsedEntities(items) ==> ValidEntity(e) && e.extractionMethod == Some(LLM_METHOD)
  {
    if items != [] {
      ParsedEntitiesValid(items[1..]);
      ParsedEntitiesUnfold(items);
    }
  }

  /** One unfolding of `ParsedEntities`, phrased through the step of the first item. */
  lemma ParsedEntitiesUnfold(items: seq<LlmItem>)
    requires items != []
    ensures ItemStep(items[0]).Abort? ==> ParsedEntities(items) == []
    ensures ItemStep(items[0]).Skip? ==> ParsedEntities(items) == ParsedEntities(items[1..])
    ensures ItemStep(items[0]).Keep? ==> ParsedEntities(items) == [ItemStep(items[0]).entity] + ParsedEntities(items[1..])
  {
  }

  /** An item without a type or without a value adds nothing and stops nothing. */
  lemma SkippedItemAddsNothing(item: LlmItem, rest: seq<LlmItem>)
    requires item.Item? && (item.itemType == NoType || (item.itemType.TypeText? && item.value.None?))
    ensures ParsedEntities([item] + rest) == ParsedEntities(rest)
  {
    assert ([item] + rest)[1..] == rest;
  }

  /** An item that is not an object, or whose confidence cannot be read or lies outside [0, 1], drops it and
      every item after it. */
  lemma {:induction false} AbortDropsTheRest(before: seq<LlmItem>, item: LlmItem, after: seq<LlmItem>)
    requires ItemStep(item) == Abort
    ensures ParsedEntities(before + [item] + after) == ParsedEntities(before)
  {
    if before == [] {
      assert ([] + [item] + after)[0] == item;
    } else {
      assert (before + [item] + after)[1..] == before[1..] + [item] + after;
      AbortDropsTheRest(before[1..], item, after);
    }
  }

  /** The shapes the model's reply can take: a list, an object, or text that may hold a list. */
  datatype ReplyValue = ListValue(items: seq<LlmItem>) | OtherValue
  datatype LlmReply =
    | ListReply(items: seq<LlmItem>)
    | ObjectReply(fields: seq<(string, ReplyValue)>)
    | TextReply(text: string, decoded: Option<seq<LlmItem>>)

  /** The first list among the values of an object's fields, in field order. */
  function FirstList(fields: seq<(string, ReplyValue)>): (r: Option<seq<LlmItem>>)
    ensures r.Some? ==> exists k :: 0 <= k < |fields| && fields[k].1 == ListValue(r.value)
    ensures r.None? <==> forall k :: 0 <= k < |fields| ==> !fields[k].1.ListValue?
  {
    if fields == [] then None
    else if fields[0].1.ListValue? then Some(fields[0].1.items)
    else FirstList(fields[1..])
  }

  /** Where `_parse_llm_entities` finds the items: the list itself; an object's "entities" list, or else its
      first list value; or, in text, what decoding from the first '[' to the last ']' gives. A text without
      both brackets, or one that does not decode to a list, gives no items. */
  function LocateItems(reply: LlmReply): (r: seq<LlmItem>)
    ensures reply.ObjectReply? && r != [] ==> exists k :: 0 <= k < |reply.fields| && reply.fields[k].1 == ListValue(r)
    ensures reply.TextReply? && r != [] ==> '[' in reply.text && ']' in reply.text && reply.decoded == Some(r)
  {
    match reply
    case ListReply(items) => items
    case ObjectReply(fields) =>
      var entities: Option<ReplyValue> := Lookup(fields, "entities");
      if entities.Some? && entities.value.ListValue? then entities.value.items else FirstList(fields).GetOr([])
    case TextReply(text, decoded) =>
      if '[' !in text || ']' !in text then [] else decoded.GetOr([])
  }

  /** `_parse_llm_entities`. */
  method ParseLlmEntities(reply: LlmReply) returns (entities: seq<Entity>)
    ensures entities == ParsedEntities(LocateItems(reply))
    ensures |entities| <= |LocateItems(reply)|
    ensures forall e :: e in entities ==> ValidEntity(e) && e.extractionMethod == Some(LLM_METHOD)
  {
    entities := ParseItems(LocateItems(reply));
    ParsedEntitiesValid(LocateItems(reply));
  }

  /** The amount an AMOUNT entity gives: its normalised value unless that is missing or zero, else its value
      read as a decimal, and nothing when that read fails. */
  function AmountOf(e: Entity): Option<real>
  {
    match e.normalizedValue
    case Some(AmountValue(x)) => if x != 0.0 then Some(x) else ParseDecimal(PyStrip(e.value))
    case Some(TextValue(t)) => if t != "" then ParseDecimal(PyStrip(t)) else ParseDecimal(PyStrip(e.value))
    case None => ParseDecimal(PyStrip(e.value))
  }

  /** The text a convenience field takes from an entity: a time period its non-empty normalised text, every
      other kind its value. */
  function TextOf(e: Entity): string
  {
    if e.entityType == TimePeriod then
      match e.normalizedValue
      case Some(TextValue(t)) => if t != "" then t else e.value
      case _ => e.value
    else e.value
  }

  /** What `f` gives for the first entity for which it gives something, or nothing. Defined from the back,
      as the loop reads it. */
  function FirstOf<T>(es: seq<Entity>, f: Entity -> Option<T>): Option<T>
  {
    if es == [] then None
    else
      var p := FirstOf(es[..|es| - 1], f);
      if p.Some? then p else f(es[|es| - 1])
  }

  /** The convenience amount an entity offers: an AMOUNT entity's amount, when it can be read. */
  function AmountField(e: Entity): Option<real>
  {
    if e.entityType == Amount then AmountOf(e) else None
  }

  /** The convenience text an entity offers for the field of type `t`. */
  function TextField(t: EntityType): Entity -> Option<string>
  {
    (e: Entity) => if e.entityType == t then Some(TextOf(e)) else None
  }

  function ConfidenceSum(es: seq<Entity>): real
  {
    if es == [] then 0.0 else ConfidenceSum(es[..|es| - 1]) + es[|es| - 1].confidence
  }

  /** The mean confidence, 0 for no entities. */
  function MeanConfidence(es: seq<Entity>): real
  {
    if es == [] then 0.0 else ConfidenceSum(es) / |es| as real
  }

  /** The response `_build_response` gives for a list of entities. */
  function ResponseOf(es: seq<Entity>): ExtractedEntities
  {
    ExtractedEntities(es, FirstOf(es, AmountField), FirstOf(es, TextField(ClientName)), None,
      FirstOf(es, TextField(InvoiceId)), FirstOf(es, TextField(Metric)), FirstOf(es, TextField(ProblemArea)),
      FirstOf(es, TextField(TimePeriod)), FirstOf(es, TextField(CompetitorName)), FirstOf(es, TextField(TargetValue)),
      |es|, MeanConfidence(es))
  }

  /** `_build_response`: one pass over the entities, each convenience field set by the first entity that can. */
  method BuildResponse(entities: seq<Entity>) returns (r: ExtractedEntities)
    ensures r == ResponseOf(entities)
  {
    var amount: Option<real> := None;
    var clientName: Option<string> := None;
    var invoiceId: Option<string> := None;
    var metric: Option<string> := None;
    var problemArea: Option<string> := None;
    var timePeriod: Option<string> := None;
    var competitor: Option<string> := None;
    var targetValue: Option<string> := None;
    var sum := 0.0;
    var i := 0;
    while i < |entities|
      invariant 0 <= i <= |entities|
      invariant amount == FirstOf(entities[..i], AmountField)
      invariant clientName == FirstOf(entities[..i], TextField(ClientName))
      invariant invoiceId == FirstOf(entities[..i], TextField(InvoiceId))
      invariant metric == FirstOf(entities[..i], TextField(Metric))
      invariant problemArea == FirstOf(entities[..i], TextField(ProblemArea))
      invariant timePeriod == FirstOf(entities[..i], TextField(TimePeriod))
      invariant competitor == FirstOf(entities[..i], TextField(CompetitorName))
      invariant targetValue == FirstOf(entities[..i], TextField(TargetValue))
      invariant sum == ConfidenceSum(entities[..i])
    {
      var e := entities[i];
      assert entities[..i + 1][..i] == entities[..i];
      if e.entityType == Amount && amount.None? {
        amount := AmountOf(e);
      } else if e.entityType == ClientName && clientName.None? {
        clientName := Some(e.value);
      } else if e.entityType == InvoiceId && invoiceId.None? {
        invoiceId := Some(e.value);
      } else if e.entityType == Metric && metric.None? {
        metric := Some(e.value);
      } else if e.entityType == ProblemArea && problemArea.None? {
        problemArea := Some(e.value);
      } else if e.entityType == TimePeriod && timePeriod.None? {
        timePeriod := Some(TextOf(e));
      } else if e.entityType == CompetitorName && competitor.None? {
        competitor := Some(e.value);
      } else if e.entityType == TargetValue && targetValue.None? {
        targetValue := Some(e.value);
      }
      sum := sum + e.confidence;
      i := i + 1;
    }
    assert entities[..i] == entities;
    var mean := if entities == [] then 0.0 else sum / |entities| as real;
    r := ExtractedEntities(entities, amount, clientName, None, invoiceId, metric, problemArea, timePeriod,
      competitor, targetValue, |entities|, mean);
  }

  /** `FirstOf` gives what `f` gives for the first entity for which it gives something, and nothing only when
      `f` gives nothing for every entity. */
  lemma {:induction false} FirstOfIsFirst<T>(es: seq<Entity>, f: Entity -> Option<T>)
    ensures FirstOf(es, f).None? <==> forall k :: 0 <= k < |es| ==> f(es[k]).None?
    ensures FirstOf(es, f).Some? ==>
      exists k :: 0 <= k < |es| && FirstOf(es, f) == f(es[k]) && forall j :: 0 <= j < k ==> f(es[j]).None?
  {
    if es != [] {
      var init := es[..|es| - 1];
      FirstOfIsFirst(init, f);
      assert forall k :: 0 <= k < |init| ==> init[k] == es[k];
      if FirstOf(init, f).Some? {
        var k :| 0 <= k < |init| && FirstOf(init, f) == f(init[k]) && forall j :: 0 <= j < k ==> f(init[j]).None?;
        assert es[k] == init[k];
      }
    }
  }

  /** A convenience text is the text of the first entity of its type, and is missing only when no entity has
      that type. */
  lemma FirstTextIsFirst(es: seq<Entity>, t: EntityType)
    ensures FirstOf(es, TextField(t)).None? <==> forall k :: 0 <= k < |es| ==> es[k].entityType != t
    ensures FirstOf(es, TextField(t)).Some? ==>
      exists k :: (0 <= k < |es| && es[k].entityType == t && FirstOf(es, TextField(t)) == Some(TextOf(es[k]))
        && forall j :: 0 <= j < k ==> es[j].entityType != t)
  {
    FirstOfIsFirst(es, TextField(t));
    assert forall k :: 0 <= k < |es| ==> (TextField(t)(es[k]).None? <==> es[k].entityType != t);
  }

  lemma {:induction false} ConfidenceSumBounds(es: seq<Entity>)
    requires forall e :: e in es ==> ValidEntity(e)
    ensures 0.0 <= ConfidenceSum(es) <= |es| as real
  {
    if es != [] {
      assert es[|es| - 1] in es;
      assert forall e :: e in es[..|es| - 1] ==> e in es;
      ConfidenceSumBounds(es[..|es| - 1]);
    }
  }

  /** With valid confidences the score is in [0, 1]; it counts every entity. */
  lemma ResponseScoreBounds(es: seq<Entity>)
    requires forall e :: e in es ==> ValidEntity(e)
    ensures 0.0 <= ResponseOf(es).confidenceScore <= 1.0
    ensures ResponseOf(es).totalEntities == |es| && ResponseOf(es).entities == es
  {
    if es != [] {
      ConfidenceSumBounds(es);
      RatioBounds(ConfidenceSum(es), |es| as real);
    }
  }

  lemma RatioBounds(s: real, n: real)
    requires 0.0 <= s <= n && n > 0.0
    ensures 0.0 <= s / n <= 1.0
  {
    assert (s / n) * n == s;
  }

  /** The extractor's settings; the defaults are to ask the model only when needed and keep 25 entities. */
  datatype ExtractorConfig = ExtractorConfig(useLlmForOperational: bool, maxLlmEntities: int)

  const DEFAULT_CONFIG := ExtractorConfig(false, 25)

  /** The model is asked when that is forced, when the intent is complex or strategic, or when the regular
      expressions found nothing. */
  function CallLlm(config: ExtractorConfig, complexity: ComplexityLevel, regexCount: nat): bool
  {
    config.useLlmForOperational || complexity == Complex || complexity == StrategicComplexity || regexCount == 0
  }

  /** Python's `items[:n]`: a negative `n` counts from the end. */
  function PyPrefix<T>(items: seq<T>, n: int): seq<T>
  {
    if n >= 0 then items[..if n < |items| then n else |items|]
    else items[..if |items| + n > 0 then |items| + n else 0]
  }

  /** The model's entities kept: all of them when the limit is 0 or not exceeded, else the slice `[:limit]`. */
  function Truncated(llm: seq<Entity>, limit: int): (r: seq<Entity>)
    ensures r <= llm
    ensures limit == 0 || |llm| <= limit ==> r == llm
    ensures limit > 0 ==> |r| <= limit
    ensures limit > 0 && |llm| > limit ==> |r| == limit
    ensures limit < 0 ==> |r| == if |llm| + limit > 0 then |llm| + limit else 0
  {
    if limit != 0 && |llm| > limit then PyPrefix(llm, limit) else llm
  }

  /** The entities `extract` aggregates: those the regular expressions found, then, when the model is asked
      and answers, its entities truncated to the limit. A failed call adds nothing. */
  function ExtractedList(config: ExtractorConfig, intent: Intent, regex: seq<Entity>, reply: Result<LlmReply>)
    : (r: seq<Entity>)
    ensures regex <= r
    ensures !CallLlm(config, RequirementsOf(intent).complexity, |regex|) || reply.Err? ==> r == regex
    ensures config.maxLlmEntities > 0 ==> |r| <= |regex| + config.maxLlmEntities
  {
    if CallLlm(config, RequirementsOf(intent).complexity, |regex|) && reply.Ok? then
      regex + Truncated(ParsedEntities(LocateItems(reply.value)), config.maxLlmEntities)
    else regex
  }

  /** `extract`: the response built from the aggregated entities. The regular-expression entities and the
      model's reply, or the error its call raised, are given. */
  method Extract(config: ExtractorConfig, intent: Intent, regex: seq<Entity>, reply: Result<LlmReply>)
    returns (r: ExtractedEntities)
    ensures r == ResponseOf(ExtractedList(config, intent, regex, reply))
    ensures regex <= r.entities
  {
    var entities := regex;
    if CallLlm(config, RequirementsOf(intent).complexity, |regex|) && reply.Ok? {
      var llm := ParseLlmEntities(reply.value);
      if config.maxLlmEntities != 0 && |llm| > config.maxLlmEntities {
        llm := PyPrefix(llm, config.maxLlmEntities);
      }
      entities := entities + llm;
    }
    r := BuildResponse(entities);
  }

  /** When every regular-expression entity is valid, so is every entity of the result, and its score is in
      [0, 1]. */
  lemma ExtractedScoreBounds(config: ExtractorConfig, intent: Intent, regex: seq<Entity>, reply: Result<LlmReply>)
    requires forall e :: e in regex ==> ValidEntity(e)
    ensures var es := ExtractedList(config, intent, regex, reply);
      (forall e :: e in es ==> ValidEntity(e)) && 0.0 <= ResponseOf(es).confidenceScore <= 1.0
  {
    var es := ExtractedList(config, intent, regex, reply);
    if CallLlm(config, RequirementsOf(intent).complexity, |regex|) && reply.Ok? {
      var parsed := ParsedEntities(LocateItems(reply.value));
      ParsedEntitiesValid(LocateItems(reply.value));
      var kept := Truncated(parsed, config.maxLlmEntities);
      assert forall e :: e in kept ==> e in parsed;
      assert es == regex + kept;
    }
    ResponseScoreBounds(es);
  }
}
