/** The client validator of the MoneyOps backend. */
module ClientValidation {
  import opened Wrappers
  import opened FieldChecks

  datatype ClientDto = ClientDto(name: Option<string>, email: Option<string>, status: Option<string>)

  const NAME_REQUIRED := "Name is required"
  const VALID_EMAIL_REQUIRED := "Valid email is required"
  const STATUS_REQUIRED := "Status is required"

  /** `validate`: name, email, status, in that order; the first missing or malformed one names the error. */
  function Validate(dto: ClientDto): (r: Option<string>)
    ensures r.None? <==> !NullOrBlank(dto.name) && dto.email.Some? && IsValidEmail(dto.email.value) && !NullOrEmpty(dto.status)
    ensures r == Some(NAME_REQUIRED) <==> NullOrBlank(dto.name)
    ensures r == Some(VALID_EMAIL_REQUIRED) <==> !NullOrBlank(dto.name) && (dto.email.None? || !IsValidEmail(dto.email.value))
    ensures r == Some(STATUS_REQUIRED) <==>
      !NullOrBlank(dto.name) && dto.email.Some? && IsValidEmail(dto.email.value) && NullOrEmpty(dto.status)
  {
    if NullOrBlank(dto.name) then Some(NAME_REQUIRED)
    else if dto.email.None? || !IsValidEmail(dto.email.value) then Some(VALID_EMAIL_REQUIRED)
    else if NullOrEmpty(dto.status) then Some(STATUS_REQUIRED)
    else None
  }

  /** A blank-looking status of spaces passes (only emptiness is checked), while the same name is refused. */
  lemma StatusIsNotTrimmed()
    ensures Validate(ClientDto(Some("Acme"), Some("a.b@x.io"), Some(" "))).None?
    ensures Validate(ClientDto(Some(" "), Some("a.b@x.io"), Some("ACTIVE"))) == Some(NAME_REQUIRED)
  {
    EmailAccepted();
    NullOrBlankIff(Some(" "));
    NullOrBlankIff(Some("Acme"));
    assert "Acme"[0] as int > 0x20;
  }
}
