/** The organisation validator: the profile check and the regulatory (PAN / GST number) check. */
module OrganizationValidation {
  import opened Wrappers
  import opened Text
  import opened FieldChecks

  datatype OrganizationDto = OrganizationDto(legalName: Option<string>, primaryEmail: Option<string>,
                                             employeeCount: Option<int>)

  datatype RegulatoryProfileDto = RegulatoryProfileDto(panNumber: Option<string>, gstNumber: Option<string>)

  const LEGAL_NAME_REQUIRED := "Legal name is required"
  const INVALID_EMAIL := "Invalid email format"
  const NEGATIVE_EMPLOYEES := "Employee count cannot be negative"
  const INVALID_PAN := "Invalid PAN number format"
  const INVALID_GST := "Invalid GST number format"

  /** One position of a fixed-length pattern made of single-character classes. */
  datatype CharClass = Upper | Digit | UpperOrDigit | Exactly(c: char)

  predicate Fits(c: char, cls: CharClass)
  {
    match cls
    case Upper => IsUpper(c)
    case Digit => IsDigit(c)
    case UpperOrDigit => IsUpper(c) || IsDigit(c)
    case Exactly(x) => c == x
  }

  /** A whole-string match of a pattern whose every position is one character class. */
  predicate MatchesShape(s: string, shape: seq<CharClass>)
  {
    |s| == |shape| && forall i :: 0 <= i < |s| ==> Fits(s[i], shape[i])
  }

  /** `[A-Z]{5}[0-9]{4}[A-Z]{1}` */
  const PAN_SHAPE: seq<CharClass> := [Upper, Upper, Upper, Upper, Upper, Digit, Digit, Digit, Digit, Upper]

  /** `\d{2}[A-Z]{5}\d{4}[A-Z]{1}[A-Z\d]{1}[Z]{1}[A-Z\d]{1}` */
  const GST_SHAPE: seq<CharClass> :=
    [Digit, Digit] + PAN_SHAPE + [UpperOrDigit, Exactly('Z'), UpperOrDigit]

  /** A permanent account number: five capitals, four digits, one capital. */
  function IsValidPan(s: string): (b: bool)
    ensures b <==> |s| == 10 && (forall i :: 0 <= i < 5 ==> IsUpper(s[i]))
                   && (forall i :: 5 <= i < 9 ==> IsDigit(s[i])) && IsUpper(s[9])
  {
    MatchesShape(s, PAN_SHAPE)
  }

  /** A GST identification number: a two-digit state code, a PAN, an entity digit or capital, 'Z', a check character. */
  function IsValidGst(s: string): (b: bool)
    ensures b <==> |s| == 15 && IsDigit(s[0]) && IsDigit(s[1]) && IsValidPan(s[2..12])
                   && (IsUpper(s[12]) || IsDigit(s[12])) && s[13] == 'Z' && (IsUpper(s[14]) || IsDigit(s[14]))
  {
    var ok := MatchesShape(s, GST_SHAPE);
    assert ok ==> IsValidPan(s[2..12]) by {
      if ok { forall i | 0 <= i < 10 ensures Fits(s[2..12][i], PAN_SHAPE[i]) { assert GST_SHAPE[i + 2] == PAN_SHAPE[i]; } }
    }
    assert (|s| == 15 && IsValidPan(s[2..12])) ==> forall i :: 2 <= i < 12 ==> Fits(s[i], GST_SHAPE[i]) by {
      if |s| == 15 && IsValidPan(s[2..12]) {
        forall i | 2 <= i < 12 ensures Fits(s[i], GST_SHAPE[i]) { assert s[i] == s[2..12][i - 2]; }
      }
    }
    ok
  }

  lemma PanExamples()
    ensures IsValidPan("ABCDE1234F") && !IsValidPan("ABCDE1234") && !IsValidPan("abcde1234f")
  {
    assert !IsUpper("abcde1234f"[0]);
  }

  lemma GstAccepted()
    ensures IsValidGst("27AAPFU0939F1ZV")
  {
    assert "27AAPFU0939F1ZV"[2..12] == "AAPFU0939F";
    assert IsValidPan("AAPFU0939F");
  }

  lemma GstRejected()
    ensures !IsValidGst("27AAPFU0939F1YV") && !IsValidGst("2AAAPFU0939F1ZV")
  {
    assert "27AAPFU0939F1YV"[13] != 'Z';
    assert !IsDigit("2AAAPFU0939F1ZV"[1]);
  }

  /** `validate`: the message of the first failing check on the organisation profile, or none. */
  function Validate(dto: OrganizationDto): (r: Option<string>)
    ensures r.None? <==> !NullOrBlank(dto.legalName)
                         && (dto.primaryEmail.Some? ==> IsValidEmail(dto.primaryEmail.value))
                         && (dto.employeeCount.Some? ==> dto.employeeCount.value >= 0)
    ensures r == Some(LEGAL_NAME_REQUIRED) <==> NullOrBlank(dto.legalName)
    ensures r == Some(INVALID_EMAIL) <==>
      !NullOrBlank(dto.legalName) && dto.primaryEmail.Some? && !IsValidEmail(dto.primaryEmail.value)
    ensures r == Some(NEGATIVE_EMPLOYEES) <==>
      !NullOrBlank(dto.legalName) && (dto.primaryEmail.Some? ==> IsValidEmail(dto.primaryEmail.value))
      && dto.employeeCount.Some? && dto.employeeCount.value < 0
  {
    if NullOrBlank(dto.legalName) then Some(LEGAL_NAME_REQUIRED)
    else if dto.primaryEmail.Some? && !IsValidEmail(dto.primaryEmail.value) then Some(INVALID_EMAIL)
    else if dto.employeeCount.Some? && dto.employeeCount.value < 0 then Some(NEGATIVE_EMPLOYEES)
    else None
  }

  /** `validateRegulatory`: absent numbers pass; a present one must have its shape, the PAN checked first. */
  function ValidateRegulatory(dto: RegulatoryProfileDto): (r: Option<string>)
    ensures r.None? <==> (dto.panNumber.Some? ==> IsValidPan(dto.panNumber.value))
                         && (dto.gstNumber.Some? ==> IsValidGst(dto.gstNumber.value))
    ensures r == Some(INVALID_PAN) <==> dto.panNumber.Some? && !IsValidPan(dto.panNumber.value)
    ensures r == Some(INVALID_GST) <==>
      (dto.panNumber.Some? ==> IsValidPan(dto.panNumber.value)) && dto.gstNumber.Some? && !IsValidGst(dto.gstNumber.value)
  {
    if dto.panNumber.Some? && !IsValidPan(dto.panNumber.value) then Some(INVALID_PAN)
    else if dto.gstNumber.Some? && !IsValidGst(dto.gstNumber.value) then Some(INVALID_GST)
    else None
  }

  /** Neither check looks at the PAN and GST numbers together: a GST number need not embed the PAN given beside it. */
  lemma RegulatoryNumbersUnrelated()
    ensures ValidateRegulatory(RegulatoryProfileDto(Some("ABCDE1234F"), Some("27AAPFU0939F1ZV"))).None?
  {
    PanExamples();
    GstAccepted();
  }
}
