/**
 * The entity schema of the AI gateway and its normalisers: amounts written with currency symbols, thousands
 * separators and k/l/m suffixes become exact decimals; time periods and metrics become canonical strings.
 * Python's `Decimal` is modelled by `real`, which is exact.
 */
module Entities {
  import opened Wrappers
  import opened Text

  datatype EntityType = Amount | Phone | Email | GstNumber | Percentage | ClientName | InvoiceId | Metric
                      | TimePeriod | ProblemArea | CompetitorName | TargetValue | EntityName

  /** A normalised value: a decimal for amounts, a string for time periods and metrics. */
  datatype Normalized = AmountValue(amount: real) | TextValue(text: string)

  /** One extracted entity; its value is modelled by its text. */
  datatype Entity = Entity(entityType: EntityType, value: string, rawText: string, confidence: real,
                           normalizedValue: Option<Normalized>, extractionMethod: Option<string>)

  /** The extraction result: all entities, one convenience value per kind, their number and mean confidence. */
  datatype ExtractedEntities = ExtractedEntities(
    entities: seq<Entity>, amount: Option<real>, clientName: Option<string>, date: Option<string>,
    invoiceId: Option<string>, metric: Option<string>, problemArea: Option<string>, timePeriod: Option<string>,
    competitor: Option<string>, targetValue: Option<string>, totalEntities: nat, confidenceScore: real)

  /** The schema's constraint on `confidence`, checked whenever an entity is built. */
  predicate ValidEntity(e: Entity)
  {
    0.0 <= e.confidence <= 1.0
  }

  /** The characters of `s` that satisfy `keep`, in order: `re.sub` with a one-character class. */
  function Filter(s: string, keep: char -> bool): (r: string)
    ensures |r| <= |s|
    ensures forall k :: 0 <= k < |r| ==> keep(r[k])
  {
    if s == [] then [] else (if keep(s[0]) then [s[0]] else []) + Filter(s[1..], keep)
  }

  /** Filtering keeps a string whose every character is kept. */
  lemma {:induction false} FilterKeepsAll(s: string, keep: char -> bool)
    requires forall k :: 0 <= k < |s| ==> keep(s[k])
    ensures Filter(s, keep) == s
  {
    if s != [] {
      assert forall k :: 0 <= k < |s[1..]| ==> s[1..][k] == s[k + 1];
      FilterKeepsAll(s[1..], keep);
    }
  }

  /** Filtering a concatenation filters each part. */
  lemma {:induction false} FilterAppend(a: string, b: string, keep: char -> bool)
    ensures Filter(a + b, keep) == Filter(a, keep) + Filter(b, keep)
  {
    if a != [] {
      var h := if keep(a[0]) then [a[0]] else [];
      assert (a + b)[0] == a[0];
      assert (a + b)[1..] == a[1..] + b;
      assert Filter(a + b, keep) == h + Filter(a[1..] + b, keep);
      FilterAppend(a[1..], b, keep);
      assert Filter(a, keep) == h + Filter(a[1..], keep);
      assert h + (Filter(a[1..], keep) + Filter(b, keep)) == (h + Filter(a[1..], keep)) + Filter(b, keep);
    } else {
      assert a + b == b;
    }
  }

  /** Not removed by `re.sub(r"[₹$£,]", "", s)`. */
  predicate NotCurrencyOrComma(c: char) { c != '₹' && c != '$' && c != '£' && c != ',' }

  /** Kept by `re.sub(r"[^0-9\.\-]", "", s)`. */
  predicate IsNumericChar(c: char) { IsDigit(c) || c == '.' || c == '-' }

  predicate AllDigits(s: string) { forall k :: 0 <= k < |s| ==> IsDigit(s[k]) }

  function Pow10(n: nat): (p: nat)
    ensures p >= 1
  {
    if n == 0 then 1 else 10 * Pow10(n - 1)
  }

  /** The value of `whole.fraction` written in decimal digits. */
  function DecimalValue(whole: string, fraction: string): (v: real)
    requires AllDigits(whole) && AllDigits(fraction)
    ensures v >= 0.0
  {
    ParseDigits(whole) as real + ParseDigits(fraction) as real / Pow10(|fraction|) as real
  }

  /** The index of the first `c` in `s`, or `|s|`. */
  function IndexOf(s: string, c: char): (k: nat)
    ensures k <= |s|
    ensures forall j :: 0 <= j < k ==> s[j] != c
    ensures k < |s| ==> s[k] == c
  {
    if s == [] then 0 else if s[0] == c then 0 else 1 + IndexOf(s[1..], c)
  }

  /** `Decimal(s)` for plain decimal notation: an optional sign, digits, and at most one point with a digit
      on at least one side of it; anything else raises `InvalidOperation`. */
  function ParseDecimal(s: string): (r: Option<real>)
    ensures r.Some? ==> exists j :: 0 <= j < |s| && IsDigit(s[j])
    ensures r.Some? && r.value < 0.0 ==> s[0] == '-'
  {
    var signed := |s| > 0 && (s[0] == '-' || s[0] == '+');
    var body := if signed then s[1..] else s;
    var k := IndexOf(body, '.');
    var whole := body[..k];
    var fraction := if k < |body| then body[k + 1..] else [];
    if AllDigits(whole) && AllDigits(fraction) && |whole| + |fraction| > 0 then
      var v := DecimalValue(whole, fraction);
      var off := if signed then 1 else 0;
      assert |whole| > 0 ==> IsDigit(s[off]) by { if |whole| > 0 { assert s[off] == body[0] == whole[0]; } }
      assert |whole| == 0 ==> IsDigit(s[off + k + 1]) by { if |whole| == 0 { assert s[off + k + 1] == body[k + 1] == fraction[0]; } }
      Some(if signed && s[0] == '-' then -v else v)
    else None
  }

  /** A plain string of digits is read as its value. */
  lemma DigitsParseAsDecimal(s: string)
    requires s != [] && AllDigits(s)
    ensures ParseDecimal(s) == Some(ParseDigits(s) as real)
  {
    assert !(s[0] == '-' || s[0] == '+') by { assert IsDigit(s[0]); }
    NoPointInDigits(s);
    assert s[..|s|] == s;
    UnsignedDecimal(s, |s|);
    WholeDecimal(s);
  }

  /** Digits without a fraction have the value of the digits. */
  lemma WholeDecimal(s: string)
    requires AllDigits(s)
    ensures DecimalValue(s, []) == ParseDigits(s) as real
  {
    assert ParseDigits([]) == 0;
    assert Pow10(0) == 1;
  }

  /** No point occurs in a string of digits. */
  lemma NoPointInDigits(s: string)
    requires AllDigits(s)
    ensures IndexOf(s, '.') == |s|
  {
    var k := IndexOf(s, '.');
    assert k < |s| ==> IsDigit(s[k]);
  }

  /** An unsigned text without a point is read by its digits alone. */
  lemma UnsignedDecimal(s: string, k: nat)
    requires s != [] && s[0] != '-' && s[0] != '+'
    requires k == |s| && IndexOf(s, '.') == k && s[..k] == s
    requires AllDigits(s)
    ensures ParseDecimal(s) == Some(DecimalValue(s, []))
  {
    assert AllDigits([]);
  }

  /** The unit letters of `_amount_k_re`. */
  predicate IsUnit(c: char) { c in {'k', 'K', 'l', 'L', 'm', 'M'} }

  /** A thousand, a lakh or a million. */
  function UnitFactor(c: char): (f: real)
    requires IsUnit(c)
    ensures f in {1000.0, 100000.0, 1000000.0}
  {
    if c in {'k', 'K'} then 1000.0 else if c in {'l', 'L'} then 100000.0 else 1000000.0
  }

  /** A character of `\w`, on ASCII. */
  predicate IsWordChar(c: char) { IsDigit(c) || IsUpper(c) || IsLower(c) || c == '_' }

  /** The end of the longest run of characters satisfying `p` that starts at `i`. */
  function RunEnd(s: string, i: nat, p: char -> bool): (e: nat)
    requires i <= |s|
    ensures i <= e <= |s|
    ensures forall k :: i <= k < e ==> p(s[k])
    ensures e < |s| ==> !p(s[e])
    decreases |s| - i
  {
    if i < |s| && p(s[i]) then RunEnd(s, i + 1, p) else i
  }

  /** A match of `_amount_k_re`: the digits before and after the point, and the unit letter. */
  datatype UnitAmount = UnitAmount(whole: string, fraction: string, unit: char)

  predicate WellFormedMatch(m: UnitAmount)
  {
    m.whole != [] && AllDigits(m.whole) && AllDigits(m.fraction) && IsUnit(m.unit)
  }

  /** `_amount_k_re` matched at position `i`. Every part of the pattern is greedy and what follows each part
      cannot start with what the part consumes, so backtracking never finds a match the greedy reading misses. */
  function UnitMatchAt(s: string, i: nat): (r: Option<UnitAmount>)
    requires i <= |s|
    ensures r.Some? ==> WellFormedMatch(r.value)
  {
    var e := RunEnd(s, i, IsDigit);
    if e == i then None
    else
      var f := if e + 1 < |s| && s[e] == '.' && IsDigit(s[e + 1]) then RunEnd(s, e + 1, IsDigit) else e;
      var g := RunEnd(s, f, IsPySpace);
      if g < |s| && IsUnit(s[g]) && (g + 1 == |s| || !IsWordChar(s[g + 1])) then
        Some(UnitAmount(s[i..e], if f == e then [] else s[e + 1..f], s[g]))
      else None
  }

  /** `_amount_k_re.search(s)`, from position `i` on: the match at the first position where there is one. */
  function UnitSearch(s: string, i: nat): (r: Option<UnitAmount>)
    requires i <= |s|
    ensures r.Some? ==> WellFormedMatch(r.value)
    decreases |s| - i
  {
    if UnitMatchAt(s, i).Some? then UnitMatchAt(s, i)
    else if i == |s| then None
    else UnitSearch(s, i + 1)
  }

  /** The search finds the match at the first position that has one, and nothing when no position has. */
  lemma UnitSearchIsFirst(s: string, i: nat)
    requires i <= |s|
    ensures UnitSearch(s, i).Some? ==>
      exists j :: i <= j <= |s| && UnitMatchAt(s, j) == UnitSearch(s, i) && forall k :: i <= k < j ==> UnitMatchAt(s, k).None?
    ensures UnitSearch(s, i).None? <==> forall j :: i <= j <= |s| ==> UnitMatchAt(s, j).None?
  {
    var j := UnitSearchFound(s, i);
  }

  /** The position the search stops at: its match when it finds one, the end of the string when it does not. */
  lemma {:induction false} UnitSearchFound(s: string, i: nat) returns (j: nat)
    requires i <= |s|
    ensures i <= j <= |s| && forall k :: i <= k < j ==> UnitMatchAt(s, k).None?
    ensures UnitSearch(s, i).Some? ==> UnitMatchAt(s, j) == UnitSearch(s, i)
    ensures UnitSearch(s, i).None? ==> j == |s| && UnitMatchAt(s, j).None?
    decreases |s| - i
  {
    UnitSearchStep(s, i);
    if UnitMatchAt(s, i).Some? || i == |s| {
      j := i;
    } else {
      j := UnitSearchFound(s, i + 1);
    }
  }

  /** One step of the search: the match here if there is one, else nothing at the end, else the next position. */
  lemma UnitSearchStep(s: string, i: nat)
    requires i <= |s|
    ensures UnitMatchAt(s, i).Some? ==> UnitSearch(s, i) == UnitMatchAt(s, i)
    ensures UnitMatchAt(s, i).None? && i == |s| ==> UnitSearch(s, i).None?
    ensures UnitMatchAt(s, i).None? && i < |s| ==> UnitSearch(s, i) == UnitSearch(s, i + 1)
  {
  }

  /** The number of a unit match, scaled by its unit. */
  function ScaledValue(m: UnitAmount): (v: real)
    requires WellFormedMatch(m)
    ensures v >= 1000.0 * DecimalValue(m.whole, m.fraction)
  {
    DecimalValue(m.whole, m.fraction) * UnitFactor(m.unit)
  }

  /** What reading a cleaned amount text gives: a value, no digits at all, or text `Decimal` rejects. */
  datatype AmountReading = Value(amount: real) | NoDigits | NotDecimal

  /** The cleaned text read as an amount: a number with a unit letter is scaled by the unit; otherwise every
      character but digits, points and minus signs is dropped and the rest read as a decimal. */
  function ReadAmount(s: string): (r: AmountReading)
    ensures r == NoDigits <==> UnitSearch(s, 0).None? && Filter(s, IsNumericChar) == []
    ensures UnitSearch(s, 0).Some? ==> r.Value?
  {
    match UnitSearch(s, 0)
    case Some(m) => Value(ScaledValue(m))
    case None =>
      var digits := Filter(s, IsNumericChar);
      if digits == [] then NoDigits
      else match ParseDecimal(digits)
        case Some(v) => Value(v)
        case None => NotDecimal
  }

  const NO_AMOUNT := "No amount to normalize"
  const INVALID_OPERATION := "InvalidOperation"

  function UnparsableAmount(text: string): string
  {
    "Unable to parse amount from '" + text + "'"
  }

  /** The text `normalize_amount` reads: stripped, without currency symbols and commas. */
  function AmountText(text: string): string
  {
    Filter(PyStrip(text), NotCurrencyOrComma)
  }

  /** `normalize_amount`: nothing is an error, a text without digits is another, and otherwise the
      cleaned text is read. */
  function NormalizeAmount(text: Option<string>): (r: Result<real>)
    ensures text.None? ==> r == Err(NO_AMOUNT)
  {
    if text.None? then Err(NO_AMOUNT)
    else match ReadAmount(AmountText(text.value))
      case Value(v) => Ok(v)
      case NoDigits => Err(UnparsableAmount(text.value))
      case NotDecimal => Err(INVALID_OPERATION)
  }

  /** A string that neither starts nor ends with white space is its own strip. */
  lemma StripUnchanged(s: string)
    requires s != [] && !IsPySpace(s[0]) && !IsPySpace(s[|s| - 1])
    ensures PyStrip(s) == s
  {
    StripNoop(s, IsPySpace);
  }

  /** A text whose characters are all kept is read as it stands. */
  lemma PlainAmountText(s: string)
    requires s != [] && !IsPySpace(s[0]) && !IsPySpace(s[|s| - 1])
    requires forall k :: 0 <= k < |s| ==> NotCurrencyOrComma(s[k])
    ensures AmountText(s) == s
  {
    StripUnchanged(s);
    FilterKeepsAll(s, NotCurrencyOrComma);
  }

  /** The unit-amount pattern does not occur in a string of digits. */
  lemma {:induction false} NoUnitInDigits(d: string)
    requires AllDigits(d)
    ensures UnitSearch(d, 0).None?
  {
    forall j | 0 <= j <= |d|
      ensures UnitMatchAt(d, j).None?
    {
      assert RunEnd(d, j, IsDigit) == |d|;
    }
    UnitSearchIsFirst(d, 0);
  }

  /** Where a run ends is fixed by the run and the character after it. */
  lemma RunEndAt(s: string, i: nat, j: nat, p: char -> bool)
    requires i <= j <= |s|
    requires forall k :: i <= k < j ==> p(s[k])
    requires j < |s| ==> !p(s[j])
    ensures RunEnd(s, i, p) == j
  {
  }

  /** The unit-amount pattern matches digits, optionally a point and more digits, then a unit letter. */
  lemma {:induction false} UnitMatchOfShape(whole: string, fraction: string, unit: char)
    requires whole != [] && AllDigits(whole) && AllDigits(fraction) && IsUnit(unit)
    ensures var s := if fraction == [] then whole + [unit] else whole + ['.'] + fraction + [unit];
      UnitMatchAt(s, 0) == Some(UnitAmount(whole, fraction, unit))
  {
    var s := if fraction == [] then whole + [unit] else whole + ['.'] + fraction + [unit];
    var e := |whole|;
    assert !IsDigit(unit) && !IsPySpace(unit);
    assert s[..e] == whole;
    RunEndAt(s, 0, e, IsDigit);
    if fraction != [] {
      var f := |s| - 1;
      assert s[e + 1..f] == fraction;
      RunEndAt(s, e + 1, f, IsDigit);
      RunEndAt(s, f, f, IsPySpace);
    } else {
      RunEndAt(s, e, e, IsPySpace);
    }
  }

  /** Digits, optionally a point and more digits, then a unit letter: the number scaled by the unit. */
  lemma UnitSuffixMultiplies(whole: string, fraction: string, unit: char)
    requires whole != [] && AllDigits(whole) && AllDigits(fraction) && IsUnit(unit)
    ensures var s := if fraction == [] then whole + [unit] else whole + ['.'] + fraction + [unit];
      ReadAmount(s) == Value(ScaledValue(UnitAmount(whole, fraction, unit)))
  {
    UnitMatchOfShape(whole, fraction, unit);
    var s := if fraction == [] then whole + [unit] else whole + ['.'] + fraction + [unit];
    ReadFirstMatch(s);
  }

  /** A match at the start is the one the search finds, and the amount it scales. */
  lemma ReadFirstMatch(s: string)
    requires UnitMatchAt(s, 0).Some?
    ensures var m := UnitMatchAt(s, 0).value;
      ReadAmount(s) == Value(ScaledValue(m))
  {
  }

  /** A string of digits alone is read as that number. */
  lemma DigitsAreTheirValue(d: string)
    requires d != [] && AllDigits(d)
    ensures ReadAmount(d) == Value(ParseDigits(d) as real)
  {
    NoUnitInDigits(d);
    FilterKeepsAll(d, IsNumericChar);
    DigitsParseAsDecimal(d);
  }

  /** A text is unparsable exactly when, cleaned, it has no unit amount and no digit, point or minus. */
  lemma UnparsableIffNoDigits(text: string)
    ensures NormalizeAmount(Some(text)) == Err(UnparsableAmount(text)) <==>
      UnitSearch(AmountText(text), 0).None? && Filter(AmountText(text), IsNumericChar) == []
  {
    assert UnparsableAmount(text) != INVALID_OPERATION by {
      assert UnparsableAmount(text)[0] == 'U';
    }
  }

  /** A text that cleans to a unit amount always gives a value. */
  lemma UnitAmountParses(text: string)
    requires UnitSearch(AmountText(text), 0).Some?
    ensures NormalizeAmount(Some(text)).Ok?
  {
  }

  /** The value of the number in "50k", "10L" and "1.2m", scaled. */
  lemma DocumentedScales()
    ensures ScaledValue(UnitAmount("50", [], 'k')) == 50000.0
    ensures ScaledValue(UnitAmount("10", [], 'L')) == 1000000.0
    ensures ScaledValue(UnitAmount("1", "2", 'm')) == 1200000.0
  {
    assert "50"[..1] == "5";
    assert "10"[..1] == "1";
  }

  /** A text that cleans to something read as a value normalises to that value. */
  lemma NormalizesTo(text: string, cleaned: string, v: real)
    requires AmountText(text) == cleaned && ReadAmount(cleaned) == Value(v)
    ensures NormalizeAmount(Some(text)) == Ok(v)
  {
  }

  lemma ReadFiftyK()
    ensures ReadAmount("50k") == Value(50000.0)
  {
    DocumentedScales();
    UnitSuffixMultiplies("50", [], 'k');
    assert "50" + ['k'] == "50k";
  }

  /** "50k" is fifty thousand. */
  lemma FiftyK()
    ensures NormalizeAmount(Some("50k")) == Ok(50000.0)
  {
    PlainAmountText("50k");
    ReadFiftyK();
    NormalizesTo("50k", "50k", 50000.0);
  }

  lemma ReadTenLakh()
    ensures ReadAmount("10L") == Value(1000000.0)
  {
    DocumentedScales();
    UnitSuffixMultiplies("10", [], 'L');
    assert "10" + ['L'] == "10L";
  }

  /** "10L" is ten lakh. */
  lemma TenLakh()
    ensures NormalizeAmount(Some("10L")) == Ok(1000000.0)
  {
    PlainAmountText("10L");
    ReadTenLakh();
    NormalizesTo("10L", "10L", 1000000.0);
  }

  lemma ReadOnePointTwoM()
    ensures ReadAmount("1.2m") == Value(1200000.0)
  {
    DocumentedScales();
    UnitSuffixMultiplies("1", "2", 'm');
    assert "1" + ['.'] + "2" + ['m'] == "1.2m";
  }

  /** "1.2m" is one million two hundred thousand. */
  lemma OnePointTwoMillion()
    ensures NormalizeAmount(Some("1.2m")) == Ok(1200000.0)
  {
    PlainAmountText("1.2m");
    ReadOnePointTwoM();
    NormalizesTo("1.2m", "1.2m", 1200000.0);
  }

  /** A currency symbol or comma between two runs of kept characters is dropped, and nothing else: "₹50k"
      is read as "50k" and "50,000" as "50000". */
  lemma {:induction false} DroppedBetween(a: string, c: char, b: string)
    requires !NotCurrencyOrComma(c)
    requires forall k :: 0 <= k < |a| ==> NotCurrencyOrComma(a[k])
    requires forall k :: 0 <= k < |b| ==> NotCurrencyOrComma(b[k])
    requires a != [] ==> !IsPySpace(a[0])
    requires b != [] && !IsPySpace(b[|b| - 1])
    ensures AmountText(a + [c] + b) == a + b
  {
    FilteredBetween(a, c, b);
    StrippedCleaning(a, c, b);
  }

  /** Such a text is already stripped, so only the filter acts on it. */
  lemma StrippedCleaning(a: string, c: char, b: string)
    requires !NotCurrencyOrComma(c)
    requires a != [] ==> !IsPySpace(a[0])
    requires b != [] && !IsPySpace(b[|b| - 1])
    ensures AmountText(a + [c] + b) == Filter(a + [c] + b, NotCurrencyOrComma)
  {
    StrippedBetween(a, c, b);
  }

  /** The dropped characters are not white space. */
  lemma CurrencyOrCommaIsNotSpace(c: char)
    requires !NotCurrencyOrComma(c)
    ensures !IsPySpace(c)
  {
    assert c == '₹' || c == '$' || c == '£' || c == ',';
  }

  lemma StrippedBetween(a: string, c: char, b: string)
    requires !NotCurrencyOrComma(c)
    requires a != [] ==> !IsPySpace(a[0])
    requires b != [] && !IsPySpace(b[|b| - 1])
    ensures PyStrip(a + [c] + b) == a + [c] + b
  {
    CurrencyOrCommaIsNotSpace(c);
    var s := a + [c] + b;
    assert s[|s| - 1] == b[|b| - 1];
    assert s[0] == if a == [] then c else a[0];
    StripUnchanged(s);
  }

  lemma FilteredBetween(a: string, c: char, b: string)
    requires !NotCurrencyOrComma(c)
    requires forall k :: 0 <= k < |a| ==> NotCurrencyOrComma(a[k])
    requires forall k :: 0 <= k < |b| ==> NotCurrencyOrComma(b[k])
    ensures Filter(a + [c] + b, NotCurrencyOrComma) == a + b
  {
    assert Filter(a + [c], NotCurrencyOrComma) == a by {
      FilterAppend(a, [c], NotCurrencyOrComma);
      assert Filter([c], NotCurrencyOrComma) == [];
      FilterKeepsAll(a, NotCurrencyOrComma);
    }
    FilterAppend(a + [c], b, NotCurrencyOrComma);
    FilterKeepsAll(b, NotCurrencyOrComma);
  }

  /** "50000" is fifty thousand. */
  lemma FiftyThousandDigits()
    ensures ParseDigits("50000") == 50000
  {
    assert "50000"[..4] == "5000" && "5000"[..3] == "500" && "500"[..2] == "50" && "50"[..1] == "5";
  }

  lemma ReadFiftyThousand()
    ensures ReadAmount("50000") == Value(50000.0)
  {
    DigitsAreTheirValue("50000");
    FiftyThousandDigits();
  }

  lemma ReadMinusFiveK()
    ensures ReadAmount("-5k") == Value(5000.0)
  {
    var s := "-5k";
    RunEndAt(s, 0, 0, IsDigit);
    RunEndAt(s, 1, 2, IsDigit);
    RunEndAt(s, 2, 2, IsPySpace);
    assert s[1..2] == "5";
    assert UnitMatchAt(s, 1) == Some(UnitAmount("5", [], 'k'));
  }

  /** A minus sign in front of a number with a unit is not part of the match, so "-5k" is +5000. */
  lemma MinusFiveKIsPositive()
    ensures NormalizeAmount(Some("-5k")) == Ok(5000.0)
  {
    PlainAmountText("-5k");
    ReadMinusFiveK();
    NormalizesTo("-5k", "-5k", 5000.0);
  }

  /** The canonical time periods. */
  datatype Period = LastMonth | LastQuarter | LastYear | Today

  function PeriodName(p: Period): string
  {
    match p
    case LastMonth => "last_month"
    case LastQuarter => "last_quarter"
    case LastYear => "last_year"
    case Today => "today"
  }

  /** The period a lower-cased, stripped text names, testing the phrases in order. */
  function PeriodIn(s: string): Option<Period>
  {
    if Contains(s, "last month") || Contains(s, "previous month") then Some(LastMonth)
    else if Contains(s, "last quarter") || Contains(s, "previous quarter") then Some(LastQuarter)
    else if Contains(s, "last year") || Contains(s, "previous year") then Some(LastYear)
    else if Contains(s, "today") || s == "today" then Some(Today)
    else None
  }

  function TimePeriodText(text: string): string
  {
    PyStrip(Lower(text))
  }

  /** `normalize_time_period`: a phrase naming a previous month, quarter or year, or today, becomes its
      canonical value; any other text is returned lower-cased and stripped, and nothing becomes "". */
  function NormalizeTimePeriod(text: Option<string>): (r: string)
    ensures text.None? || text == Some("") ==> r == ""
  {
    if text.None? || text.value == "" then ""
    else
      var s := TimePeriodText(text.value);
      match PeriodIn(s)
      case Some(p) => PeriodName(p)
      case None => s
  }

  /** A substring with a character the string lacks does not occur in it. */
  lemma MissingCharNotContained(s: string, sub: string, k: nat)
    requires k < |sub| && forall j :: 0 <= j < |s| ==> s[j] != sub[k]
    ensures !Contains(s, sub)
  {
    forall i | 0 <= i <= |s| - |sub|
      ensures !OccursAt(s, sub, i)
    {
      assert s[i..i + |sub|][k] == s[i + k];
    }
  }

  /** The characters of the canonical names other than "today": no space and no 'd'. */
  predicate PlainNameChar(c: char) { c == '_' || (IsLower(c) && c != 'd') }

  /** A text of such characters names no period: every phrase has a space, and "today" has a 'd'. */
  lemma PlainTextNamesNoPeriod(s: string)
    requires forall j :: 0 <= j < |s| ==> PlainNameChar(s[j])
    ensures PeriodIn(s).None?
  {
    MissingCharNotContained(s, "last month", 4);
    MissingCharNotContained(s, "previous month", 8);
    MissingCharNotContained(s, "last quarter", 4);
    MissingCharNotContained(s, "previous quarter", 8);
    MissingCharNotContained(s, "last year", 4);
    MissingCharNotContained(s, "previous year", 8);
    MissingCharNotContained(s, "today", 2);
    assert s != "today" by { MissingCharNotContained(s, "today", 2); assert !OccursAt(s, "today", 0); }
  }

  /** Every character plain, stated one character at a time. */
  predicate PlainText(s: string)
  {
    s == [] || (PlainNameChar(s[0]) && PlainText(s[1..]))
  }

  lemma {:induction false} PlainTextChars(s: string)
    requires PlainText(s)
    ensures forall k :: 0 <= k < |s| ==> PlainNameChar(s[k])
  {
    if s != [] {
      PlainTextChars(s[1..]);
      assert forall k :: 1 <= k < |s| ==> s[k] == s[1..][k - 1];
    }
  }

  lemma {:induction false} CharsPlainText(s: string)
    requires forall k :: 0 <= k < |s| ==> PlainNameChar(s[k])
    ensures PlainText(s)
  {
    if s != [] {
      assert forall k :: 0 <= k < |s[1..]| ==> s[1..][k] == s[k + 1];
      CharsPlainText(s[1..]);
    }
  }

  lemma PlainNameChars(p: Period)
    requires p != Today
    ensures PlainText(PeriodName(p))
  {
    var n := PeriodName(p);
    assert forall k :: 0 <= k < |n| ==> PlainNameChar(n[k]);
    CharsPlainText(n);
  }

  /** A text of lower-case letters and underscores is its own normalised text. */
  lemma NameTextFixed(s: string)
    requires s != [] && forall k :: 0 <= k < |s| ==> s[k] == '_' || IsLower(s[k])
    ensures TimePeriodText(s) == s
  {
    LowerOfLower(s);
    StripUnchanged(s);
  }

  /** A canonical name normalises to itself: "today" names today, the others name nothing. */
  lemma PeriodNameFixed(p: Period)
    ensures NormalizeTimePeriod(Some(PeriodName(p))) == PeriodName(p)
  {
    if p == Today {
      TodayFixed();
    } else {
      PlainNameChars(p);
      PlainTextFixed(PeriodName(p));
    }
  }

  /** A text of the plain name characters normalises to itself. */
  lemma PlainTextFixed(s: string)
    requires s != [] && PlainText(s)
    ensures NormalizeTimePeriod(Some(s)) == s
  {
    PlainTextFacts(s);
    UnnamedFixedText(s);
  }

  lemma PlainTextFacts(s: string)
    requires s != [] && PlainText(s)
    ensures TimePeriodText(s) == s && PeriodIn(s).None?
  {
    PlainTextChars(s);
    forall k | 0 <= k < |s|
      ensures s[k] == '_' || IsLower(s[k])
    {
      assert PlainNameChar(s[k]);
    }
    NameTextFixed(s);
    PlainTextNamesNoPeriod(s);
  }

  /** A text that is its own normalised text and names no period normalises to itself. */
  lemma UnnamedFixedText(s: string)
    requires s != [] && TimePeriodText(s) == s && PeriodIn(s).None?
    ensures NormalizeTimePeriod(Some(s)) == s
  {
    UnnamedPeriodKept(s);
  }

  /** A text naming a period normalises to that period's canonical name. */
  lemma NamedPeriodCanonical(text: string, p: Period)
    requires text != [] && PeriodIn(TimePeriodText(text)) == Some(p)
    ensures NormalizeTimePeriod(Some(text)) == PeriodName(p)
  {
  }

  /** A text naming no period normalises to its lower-cased, stripped form. */
  lemma UnnamedPeriodKept(text: string)
    requires text != [] && PeriodIn(TimePeriodText(text)).None?
    ensures NormalizeTimePeriod(Some(text)) == TimePeriodText(text)
  {
  }

  lemma TodayFixed()
    ensures NormalizeTimePeriod(Some("today")) == "today"
  {
    var n := "today";
    assert forall k :: 0 <= k < |n| ==> IsLower(n[k]);
    NameTextFixed(n);
    assert OccursAt(n, "today", 0);
  }

  /** A string without upper-case letters is its own lower-case form. */
  lemma LowerOfLower(s: string)
    requires forall k :: 0 <= k < |s| ==> !IsUpper(s[k])
    ensures Lower(s) == s
  {
  }

  /** Stripping leaves neither end white. */
  lemma StrippedEnds(t: string)
    ensures var s := PyStrip(t); s != [] ==> !IsPySpace(s[0]) && !IsPySpace(s[|s| - 1])
  {
    var u := StripStart(t, IsPySpace);
    var s := StripEnd(u, IsPySpace);
    if s != [] {
      assert s[0] == u[0];
    }
  }

  /** Stripping adds no upper-case letter. */
  lemma StripKeepsNoUpper(t: string)
    requires forall k :: 0 <= k < |t| ==> !IsUpper(t[k])
    ensures forall k :: 0 <= k < |PyStrip(t)| ==> !IsUpper(PyStrip(t)[k])
  {
    var u := StripStart(t, IsPySpace);
    var s := StripEnd(u, IsPySpace);
    forall k | 0 <= k < |s|
      ensures !IsUpper(s[k])
    {
      assert s[k] == u[k];
      assert u[k] == t[|t| - |u| + k];
    }
  }

  /** The normalised time-period text is a fixed point of normalising it again. */
  lemma TimePeriodTextFixed(text: string)
    ensures TimePeriodText(TimePeriodText(text)) == TimePeriodText(text)
  {
    var l := Lower(text);
    var s := PyStrip(l);
    LowerKeepsSpaces(text);
    StripKeepsNoUpper(l);
    LowerOfLower(s);
    StrippedEnds(l);
    if s != [] { StripUnchanged(s); }
  }

  /** Normalising a normalised time period changes nothing. */
  lemma TimePeriodIdempotent(text: Option<string>)
    ensures NormalizeTimePeriod(Some(NormalizeTimePeriod(text))) == NormalizeTimePeriod(text)
  {
    if text.Some? && text.value != "" {
      var s := TimePeriodText(text.value);
      match PeriodIn(s)
      case Some(p) =>
        NamedPeriodCanonical(text.value, p);
        PeriodNameFixed(p);
      case None => UnnamedTextFixed(text.value, s);
    }
  }

  /** A text naming no period normalises to its lower-cased, stripped self, which normalises to itself. */
  lemma UnnamedTextFixed(text: string, s: string)
    requires text != [] && s == TimePeriodText(text) && PeriodIn(s).None?
    ensures NormalizeTimePeriod(Some(text)) == s
    ensures NormalizeTimePeriod(Some(s)) == s
  {
    TimePeriodTextFixed(text);
    if s != [] {
      UnnamedFixedText(s);
    }
  }

  /** `normalize_metric`: stripped, then lower-cased; nothing gives the empty string. */
  function NormalizeMetric(text: Option<string>): (r: string)
    ensures text.None? ==> r == ""
    ensures text.Some? ==> |r| <= |text.value|
  {
    if text.None? || text.value == "" then "" else Lower(PyStrip(text.value))
  }

  /** Lower-casing keeps white space where it is and leaves no upper-case letter. */
  lemma LowerKeepsSpaces(s: string)
    ensures forall k :: 0 <= k < |s| ==> (IsPySpace(Lower(s)[k]) <==> IsPySpace(s[k]))
    ensures forall k :: 0 <= k < |s| ==> !IsUpper(Lower(s)[k])
  {
  }

  /** Normalising a normalised metric changes nothing. */
  lemma MetricIdempotent(text: Option<string>)
    ensures NormalizeMetric(Some(NormalizeMetric(text))) == NormalizeMetric(text)
  {
    var r := NormalizeMetric(text);
    if r != [] {
      var s := PyStrip(text.value);
      StrippedEnds(text.value);
      LowerKeepsSpaces(s);
      StripUnchanged(r);
      LowerOfLower(r);
    }
  }
}
