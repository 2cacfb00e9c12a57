/** The user validator (profile and invitation request) of the MoneyOps backend. */
module UserValidation {
  import opened Wrappers
  import opened FieldChecks

  datatype UserDto = UserDto(name: Option<string>, email: Option<string>, role: Option<string>, status: Option<string>)

  datatype CreateInviteRequest = CreateInviteRequest(email: Option<string>, role: Option<string>)

  const NAME_REQUIRED := "Name is required"
  const VALID_EMAIL_REQUIRED := "Valid email is required"
  const ROLE_REQUIRED := "Role is required"
  const STATUS_REQUIRED := "Status is required"

  predicate HasValidEmail(email: Option<string>) { email.Some? && IsValidEmail(email.value) }

  /** `validate`: name, email, role, status, in that order. */
  function Validate(dto: UserDto): (r: Option<string>)
    ensures r.None? <==> !NullOrBlank(dto.name) && HasValidEmail(dto.email) && !NullOrEmpty(dto.role) && !NullOrEmpty(dto.status)
    ensures r == Some(NAME_REQUIRED) <==> NullOrBlank(dto.name)
    ensures r == Some(VALID_EMAIL_REQUIRED) <==> !NullOrBlank(dto.name) && !HasValidEmail(dto.email)
    ensures r == Some(ROLE_REQUIRED) <==> !NullOrBlank(dto.name) && HasValidEmail(dto.email) && NullOrEmpty(dto.role)
    ensures r == Some(STATUS_REQUIRED) <==>
      !NullOrBlank(dto.name) && HasValidEmail(dto.email) && !NullOrEmpty(dto.role) && NullOrEmpty(dto.status)
  {
    if NullOrBlank(dto.name) then Some(NAME_REQUIRED)
    else if !HasValidEmail(dto.email) then Some(VALID_EMAIL_REQUIRED)
    else if NullOrEmpty(dto.role) then Some(ROLE_REQUIRED)
    else if NullOrEmpty(dto.status) then Some(STATUS_REQUIRED)
    else None
  }

  /** `validateInvite`: email, then role. */
  function ValidateInvite(request: CreateInviteRequest): (r: Option<string>)
    ensures r.None? <==> HasValidEmail(request.email) && !NullOrEmpty(request.role)
    ensures r == Some(VALID_EMAIL_REQUIRED) <==> !HasValidEmail(request.email)
    ensures r == Some(ROLE_REQUIRED) <==> HasValidEmail(request.email) && NullOrEmpty(request.role)
  {
    if !HasValidEmail(request.email) then Some(VALID_EMAIL_REQUIRED)
    else if NullOrEmpty(request.role) then Some(ROLE_REQUIRED)
    else None
  }

  /** The invitation check is the user check restricted to the two fields an invitation carries:
      a user the profile check accepts yields an invitation request for the same email and role that is accepted,
      and the two refuse a bad email or a missing role with the same message once the name is present. */
  lemma InviteCheckIsUserCheckOnItsFields(dto: UserDto)
    ensures Validate(dto).None? ==> ValidateInvite(CreateInviteRequest(dto.email, dto.role)).None?
    ensures !NullOrBlank(dto.name) && ValidateInvite(CreateInviteRequest(dto.email, dto.role)).Some? ==>
      Validate(dto) == ValidateInvite(CreateInviteRequest(dto.email, dto.role))
  {
  }
}

/** The validator of a request that accepts an invitation. */
module InviteValidation {
  import opened Wrappers
  import opened Text
  import opened FieldChecks

  datatype AcceptInviteRequest = AcceptInviteRequest(token: Option<string>, password: Option<string>, name: Option<string>)

  const TOKEN_REQUIRED := "Token is required"
  const PASSWORD_TOO_SHORT := "Password must be at least 8 characters"
  const NAME_REQUIRED := "Name is required"

  /** The password length counts UTF-16 code units, as a Java string does. */
  predicate ShortPassword(password: Option<string>) { password.None? || Utf16Length(password.value) < 8 }

  /** `validateAcceptInvite`: token, password, name, in that order. */
  function ValidateAcceptInvite(request: AcceptInviteRequest): (r: Option<string>)
    ensures r.None? <==> !NullOrBlank(request.token) && !ShortPassword(request.password) && !NullOrBlank(request.name)
    ensures r == Some(TOKEN_REQUIRED) <==> NullOrBlank(request.token)
    ensures r == Some(PASSWORD_TOO_SHORT) <==> !NullOrBlank(request.token) && ShortPassword(request.password)
    ensures r == Some(NAME_REQUIRED) <==>
      !NullOrBlank(request.token) && !ShortPassword(request.password) && NullOrBlank(request.name)
  {
    if NullOrBlank(request.token) then Some(TOKEN_REQUIRED)
    else if ShortPassword(request.password) then Some(PASSWORD_TOO_SHORT)
    else if NullOrBlank(request.name) then Some(NAME_REQUIRED)
    else None
  }

  /** Any password of eight or more characters is long enough, and none of fewer than four is;
      between the two, characters outside the basic plane count twice. */
  lemma PasswordLengthBounds(p: string)
    ensures |p| >= 8 ==> !ShortPassword(Some(p))
    ensures |p| < 4 ==> ShortPassword(Some(p))
  {
  }
}
